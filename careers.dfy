/**
 * The three career fields and the result page of each. The quiz and the
 * career selector each declare their own `CAREER_PATHS` table with the same
 * three entries; the model shares one table because the two copies are equal.
 */
module Careers {

  /** Science, Technology/Engineering, Mathematics. */
  datatype Field = S | T | M

  /** The field's code as it appears in the tables and in the selector's values. */
  function Code(f: Field): string {
    match f
    case S => "S"
    case T => "T"
    case M => "M"
  }

  const CareerPaths: map<string, string> :=
    map["S" := "pages/science.html", "T" := "pages/tech_eng.html", "M" := "pages/math.html"]

  /** Every field has a result page, and the table has no other keys. */
  lemma CareerPathsCoverFields()
    ensures forall f: Field :: Code(f) in CareerPaths
    ensures CareerPaths.Keys == {Code(S), Code(T), Code(M)}
  {
  }
}
