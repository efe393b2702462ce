/**
 * Speech recognition result events and how the client turns them into text.
 * The loops in the recognition handlers are proved against the functions here.
 */
module Transcript {

  /** One element of `event.results`. */
  datatype RecognitionResult =
      /** The shape the Azure adapter emits: `{ transcript, isFinal }`. */
    | Flat(transcript: string, isFinal: bool)
      /** The Web Speech API shape: alternatives `result[k].transcript` and `result.isFinal`. */
    | Alternatives(alternatives: seq<string>, isFinal: bool)

  /** An `onresult` event: the results so far and the index of the first changed one. */
  datatype ResultEvent = ResultEvent(results: seq<RecognitionResult>, resultIndex: nat)

  /** `result.transcript || result[0]?.transcript || ''`. */
  function Piece(r: RecognitionResult): string
  {
    match r
    case Flat(t, _) => t
    case Alternatives(alts, _) => if |alts| > 0 then alts[0] else ""
  }

  /** The shape `event.results[i][0].transcript` can be read from without a TypeError. */
  predicate WebShaped(r: RecognitionResult)
  {
    r.Alternatives? && |r.alternatives| > 0
  }

  predicate WellFormed(ev: ResultEvent)
  {
    ev.resultIndex <= |ev.results|
  }

  /** The results a handler visits: from `resultIndex` to the end. */
  function Window(ev: ResultEvent): seq<RecognitionResult>
    requires WellFormed(ev)
  {
    ev.results[ev.resultIndex..]
  }

  /** The final pieces, each followed by one space. */
  function CommittedText(rs: seq<RecognitionResult>): string
  {
    if rs == [] then ""
    else
      var last := rs[|rs| - 1];
      CommittedText(rs[..|rs| - 1]) + (if last.isFinal then Piece(last) + " " else "")
  }

  /** The non-final pieces, concatenated. */
  function InterimText(rs: seq<RecognitionResult>): string
  {
    if rs == [] then ""
    else
      var last := rs[|rs| - 1];
      InterimText(rs[..|rs| - 1]) + (if last.isFinal then "" else Piece(last))
  }

  /** The final pieces, concatenated with no separator. */
  function FinalText(rs: seq<RecognitionResult>): string
  {
    if rs == [] then ""
    else
      var last := rs[|rs| - 1];
      FinalText(rs[..|rs| - 1]) + (if last.isFinal then Piece(last) else "")
  }

  /** A single final result commits its piece and a space; a non-final one commits nothing. */
  lemma SingleResult(r: RecognitionResult)
    ensures CommittedText([r]) == (if r.isFinal then Piece(r) + " " else "")
    ensures InterimText([r]) == (if r.isFinal then "" else Piece(r))
    ensures FinalText([r]) == (if r.isFinal then Piece(r) else "")
  {
    assert [r][..0] == [];
  }

  /**
   * The loop of the page's `onresult`: the final pieces of the window
   * concatenated, and the interim pieces concatenated.
   */
  method ScanFinalAndInterim(ev: ResultEvent) returns (final: string, interim: string)
    requires WellFormed(ev)
    ensures final == FinalText(Window(ev)) && interim == InterimText(Window(ev))
  {
    var rs := Window(ev);
    final, interim := "", "";
    var i := 0;
    while i < |rs|
      invariant i <= |rs|
      invariant final == FinalText(rs[..i]) && interim == InterimText(rs[..i])
    {
      assert rs[..i + 1][..i] == rs[..i];
      if rs[i].isFinal {
        final := final + Piece(rs[i]);
      } else {
        interim := interim + Piece(rs[i]);
      }
      i := i + 1;
    }
    assert rs[..i] == rs;
  }

  /**
   * The loop of the interview screen's `onresult`: each final piece
   * followed by one space, and the interim pieces concatenated.
   */
  method ScanCommittedAndInterim(ev: ResultEvent) returns (committed: string, interim: string)
    requires WellFormed(ev)
    ensures committed == CommittedText(Window(ev)) && interim == InterimText(Window(ev))
  {
    var rs := Window(ev);
    committed, interim := "", "";
    var i := 0;
    while i < |rs|
      invariant i <= |rs|
      invariant committed == CommittedText(rs[..i]) && interim == InterimText(rs[..i])
    {
      assert rs[..i + 1][..i] == rs[..i];
      if rs[i].isFinal {
        committed := committed + Piece(rs[i]) + " ";
      } else {
        interim := interim + Piece(rs[i]);
      }
      i := i + 1;
    }
    assert rs[..i] == rs;
  }

  /** Splitting a run of results splits the committed text the same way. */
  lemma {:induction false} CommittedAppend(a: seq<RecognitionResult>, b: seq<RecognitionResult>)
    ensures CommittedText(a + b) == CommittedText(a) + CommittedText(b)
    decreases |b|
  {
    if b == [] {
      assert a + b == a;
    } else {
      var ab, b', last := a + b, b[..|b| - 1], b[|b| - 1];
      assert ab[..|ab| - 1] == a + b' && ab[|ab| - 1] == last;
      CommittedAppend(a, b');
      calc {
        CommittedText(ab);
        CommittedText(a + b') + (if last.isFinal then Piece(last) + " " else "");
        CommittedText(a) + CommittedText(b') + (if last.isFinal then Piece(last) + " " else "");
        CommittedText(a) + CommittedText(b);
      }
    }
  }


  lemma {:induction false} InterimAppend(a: seq<RecognitionResult>, b: seq<RecognitionResult>)
    ensures InterimText(a + b) == InterimText(a) + InterimText(b)
    decreases |b|
  {
    if b == [] {
      assert a + b == a;
    } else {
      var ab, b', last := a + b, b[..|b| - 1], b[|b| - 1];
      assert ab[..|ab| - 1] == a + b' && ab[|ab| - 1] == last;
      InterimAppend(a, b');
      calc {
        InterimText(ab);
        InterimText(a + b') + (if last.isFinal then "" else Piece(last));
        InterimText(a) + InterimText(b') + (if last.isFinal then "" else Piece(last));
        InterimText(a) + InterimText(b);
      }
    }
  }


  lemma {:induction false} FinalAppend(a: seq<RecognitionResult>, b: seq<RecognitionResult>)
    ensures FinalText(a + b) == FinalText(a) + FinalText(b)
    decreases |b|
  {
    if b == [] {
      assert a + b == a;
    } else {
      var ab, b', last := a + b, b[..|b| - 1], b[|b| - 1];
      assert ab[..|ab| - 1] == a + b' && ab[|ab| - 1] == last;
      FinalAppend(a, b');
      calc {
        FinalText(ab);
        FinalText(a + b') + (if last.isFinal then Piece(last) else "");
        FinalText(a) + FinalText(b') + (if last.isFinal then Piece(last) else "");
        FinalText(a) + FinalText(b);
      }
    }
  }


  /** A run with no final result commits nothing. */
  lemma {:induction false} NoFinalCommitsNothing(rs: seq<RecognitionResult>)
    requires forall i :: 0 <= i < |rs| ==> !rs[i].isFinal
    ensures CommittedText(rs) == "" && FinalText(rs) == ""
  {
    if rs != [] {
      NoFinalCommitsNothing(rs[..|rs| - 1]);
    }
  }
}
