/**
 * The fixed role and experience tables both setup flows use to turn form
 * values into display names (frontend/js/app.js, SetupScreen.jsx).
 */
module Roles {
  import opened Wrappers
  import opened Text

  const RoleTable: map<string, string> := map[
    "frontend" := "Frontend Developer",
    "backend" := "Backend Developer",
    "fullstack" := "Full Stack Engineer",
    "devops" := "DevOps Engineer",
    "pm" := "Product Manager"]

  const ExperienceTable: map<string, string> := map[
    "intern" := "Intern",
    "junior" := "Junior",
    "mid" := "Mid-Level",
    "senior" := "Senior"]

  const DefaultRole := "Software Engineer"
  const DefaultExperience := "Mid-Level"

  /** `table[v] || v || fallback`: the table entry, else the raw value, else the fallback. */
  function Lookup(table: map<string, string>, v: Option<string>, fallback: string): (r: string)
    requires forall k :: k in table ==> table[k] != ""
    requires fallback != ""
    ensures v.Some? && v.value in table ==> r == table[v.value]
    ensures (v.None? || v.value !in table) && Truthy(v) ==> r == v.value
    ensures (v.None? || v.value !in table) && !Truthy(v) ==> r == fallback
    ensures r != ""
  {
    if v.Some? && v.value in table then table[v.value] else OrElse(v, fallback)
  }

  function MapRole(v: Option<string>): (r: string)
    ensures r != ""
  {
    Lookup(RoleTable, v, DefaultRole)
  }

  function MapExperience(v: Option<string>): (r: string)
    ensures r != ""
  {
    Lookup(ExperienceTable, v, DefaultExperience)
  }

  /** `${experience} ${role} Interview`. */
  function RoleDisplay(experience: string, role: string): string
  {
    experience + " " + role + " Interview"
  }

  /** A display name is never a table key, so normalising twice changes nothing. */
  lemma MapRoleIdempotent(v: Option<string>)
    ensures MapRole(Some(MapRole(v))) == MapRole(v)
  {
    assert forall k :: k in RoleTable ==> RoleTable[k] !in RoleTable;
  }

  lemma MapExperienceIdempotent(v: Option<string>)
    ensures MapExperience(Some(MapExperience(v))) == MapExperience(v)
  {
    assert forall k :: k in ExperienceTable ==> ExperienceTable[k] !in ExperienceTable;
  }
}
