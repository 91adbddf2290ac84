/** The fixed letter-grade table and its case-insensitive, silently-defaulting lookup (`GradePointMap`). */
module GradeScale {
  import opened Text

  /** The ten grades of the table and their grade points. */
  const Table: map<string, real> := map[
    "A+" := 4.0, "A" := 4.0, "A-" := 3.7,
    "B+" := 3.3, "B" := 3.0, "B-" := 2.7,
    "C+" := 2.3, "C" := 2.0, "C-" := 1.7,
    "F" := 0.0
  ]

  /**
   * `GradePointMap.get_point`: the table entry for the upper-cased grade,
   * or 0.0 for anything the table does not list.
   */
  function GradePoint(grade: string): (p: real)
    ensures 0.0 <= p <= 4.0
  {
    var key := Upper(grade);
    if key in Table then Table[key] else 0.0
  }

  /*
   * An independent description of the same scale: a letter A, B or C with an
   * optional `+` (0.3 up, capped at 4.0) or `-` (0.3 down), or the letter F.
   */

  function LetterPoint(c: char): real
    requires c in "ABC"
  {
    if c == 'A' then 4.0 else if c == 'B' then 3.0 else 2.0
  }

  /** `key` (already upper-case) is a grade of the scale. */
  predicate IsScaleGrade(key: string) {
    || key == "F"
    || (1 <= |key| <= 2 && key[0] in "ABC" && (|key| == 1 || key[1] in "+-"))
  }

  function ScalePoint(key: string): real
    requires IsScaleGrade(key)
  {
    if key == "F" then 0.0
    else if |key| == 1 then LetterPoint(key[0])
    else if key[1] == '+' then (if LetterPoint(key[0]) + 0.3 > 4.0 then 4.0 else LetterPoint(key[0]) + 0.3)
    else LetterPoint(key[0]) - 0.3
  }

  /** The table holds exactly the scale's grades, each with the scale's point. */
  lemma TableIsScale(key: string)
    ensures key in Table <==> IsScaleGrade(key)
    ensures key in Table ==> Table[key] == ScalePoint(key)
  {
    if IsScaleGrade(key) && key != "F" {
      if |key| == 1 {
        assert key == [key[0]];
      } else {
        assert key == [key[0], key[1]];
      }
    }
  }

  /**
   * The lookup follows the scale: a grade whose upper-case form is on the scale
   * gets that grade's point, and every other token gets 0.0 without an error.
   */
  lemma GradePointFollowsScale(grade: string)
    ensures IsScaleGrade(Upper(grade)) ==> GradePoint(grade) == ScalePoint(Upper(grade))
    ensures !IsScaleGrade(Upper(grade)) ==> GradePoint(grade) == 0.0
  {
    TableIsScale(Upper(grade));
  }

  /** Matching ignores case: grades that differ only in letter case get the same point. */
  lemma GradePointIgnoresCase(a: string, b: string)
    requires SameIgnoringCase(a, b)
    ensures GradePoint(a) == GradePoint(b)
  {
    UpperEqualIffSameIgnoringCase(a, b);
  }

  /** The ten listed values. */
  lemma TableGradeExamples()
    ensures GradePoint("A+") == 4.0 && GradePoint("A") == 4.0 && GradePoint("A-") == 3.7
    ensures GradePoint("B+") == 3.3 && GradePoint("B") == 3.0 && GradePoint("B-") == 2.7
    ensures GradePoint("C+") == 2.3 && GradePoint("C") == 2.0 && GradePoint("C-") == 1.7
    ensures GradePoint("F") == 0.0
  {
    GradePointFollowsScale("A+");
    GradePointFollowsScale("A");
    GradePointFollowsScale("A-");
    GradePointFollowsScale("B+");
    GradePointFollowsScale("B");
    GradePointFollowsScale("B-");
    GradePointFollowsScale("C+");
    GradePointFollowsScale("C");
    GradePointFollowsScale("C-");
    GradePointFollowsScale("F");
  }

  /** Lower-case spellings reach the same values. */
  lemma LowerCaseGradeExamples()
    ensures GradePoint("a+") == 4.0 && GradePoint("a") == 4.0 && GradePoint("a-") == 3.7
    ensures GradePoint("b") == 3.0 && GradePoint("c") == 2.0 && GradePoint("f") == 0.0
  {
    GradePointFollowsScale("a+");
    GradePointFollowsScale("a");
    GradePointFollowsScale("a-");
    GradePointFollowsScale("b");
    GradePointFollowsScale("c");
    GradePointFollowsScale("f");
  }

  /** Tokens off the table silently score 0.0, an unstripped one included. */
  lemma UnknownGradeExamples()
    ensures GradePoint("") == 0.0 && GradePoint("D") == 0.0 && GradePoint("Z") == 0.0
    ensures GradePoint("A+ ") == 0.0 && GradePoint("F+") == 0.0
  {
    GradePointFollowsScale("");
    GradePointFollowsScale("D");
    GradePointFollowsScale("Z");
    GradePointFollowsScale("A+ ");
    GradePointFollowsScale("F+");
  }
}
