/**
 * What the checks buy the calculators, in exact arithmetic: input that passed
 * the validators keeps GPA and CGPA within [0, 4] and never reaches the
 * zero-credit fallback. With the checks as intended this holds for every
 * input; with the checks as written it holds for the inputs that parsed to
 * numbers (not NaN or infinity). Float overflow in the sums is not modelled.
 */
module Soundness {
  import opened Wrappers
  import opened Floats
  import opened Validation
  import opened Averages
  import opened Records
  import opened Calculators

  /**
   * A GPA request: the subject count passed `positive_int`, and each of that
   * many subjects carries a credit that passed the intended positivity check
   * (under its own label) and the form's grade token, stripped.
   */
  lemma GpaOfValidatedInput(count: Result<int, string>, grades: seq<string>, credits: seq<Result<Float, string>>,
                            labels: seq<string>, student: Student)
    requires PositiveInt(count, "Subjects").Success?
    requires |grades| == |credits| == |labels| == |student.subjects| == count.value
    requires forall i :: 0 <= i < |student.subjects| ==>
      PositiveFloat(credits[i], labels[i]) == Success(student.subjects[i].credit) &&
      student.subjects[i] == NewSubject(grades[i], student.subjects[i].credit)
    ensures TotalCredits(student.subjects) > 0.0
    ensures 0.0 <= Gpa(student) <= 4.0
  {
    assert PositiveCredits(student.subjects);
    TotalWeightPositive(GradeEntries(student.subjects));
  }

  /**
   * The same request checked by `positive_float` as written: when every credit
   * parsed to a number, the credits are positive and the GPA is in [0, 4].
   */
  lemma GpaOfAsWrittenValidatedInput(count: Result<int, string>, grades: seq<string>, credits: seq<Result<Float, string>>,
                                     labels: seq<string>, student: Student)
    requires PositiveInt(count, "Subjects").Success?
    requires |grades| == |credits| == |labels| == |student.subjects| == count.value
    requires forall i :: 0 <= i < |student.subjects| ==>
      PositiveFloatAsWritten(credits[i], labels[i]) == Success(Finite(student.subjects[i].credit)) &&
      student.subjects[i] == NewSubject(grades[i], student.subjects[i].credit)
    ensures TotalCredits(student.subjects) > 0.0
    ensures 0.0 <= Gpa(student) <= 4.0
  {
    assert PositiveCredits(student.subjects);
    TotalWeightPositive(GradeEntries(student.subjects));
  }

  /**
   * A CGPA request: the semester count passed `positive_int`, and each of that
   * many semesters carries a GPA that passed the intended range check and
   * credits that passed the intended positivity check.
   */
  lemma CgpaOfValidatedInput(count: Result<int, string>, gpas: seq<Result<Float, string>>, credits: seq<Result<Float, string>>,
                             gpaLabels: seq<string>, creditLabels: seq<string>, semesters: seq<Semester>)
    requires PositiveInt(count, "Semesters").Success?
    requires |gpas| == |credits| == |gpaLabels| == |creditLabels| == |semesters| == count.value
    requires forall i :: 0 <= i < |semesters| ==>
      GpaRange(gpas[i], gpaLabels[i]) == Success(semesters[i].gpa) &&
      PositiveFloat(credits[i], creditLabels[i]) == Success(semesters[i].credits)
    ensures SemesterCredits(semesters) > 0.0
    ensures 0.0 <= Cgpa(semesters) <= 4.0
  {
    assert ValidSemesters(semesters);
    TotalWeightPositive(SemesterEntries(semesters));
  }

  /**
   * The same request checked by `gpa` and `positive_float` as written: when
   * every GPA and credit parsed to a number, the credits are positive and the
   * CGPA is in [0, 4].
   */
  lemma CgpaOfAsWrittenValidatedInput(count: Result<int, string>, gpas: seq<Result<Float, string>>,
                                      credits: seq<Result<Float, string>>, gpaLabels: seq<string>,
                                      creditLabels: seq<string>, semesters: seq<Semester>)
    requires PositiveInt(count, "Semesters").Success?
    requires |gpas| == |credits| == |gpaLabels| == |creditLabels| == |semesters| == count.value
    requires forall i :: 0 <= i < |semesters| ==>
      GpaAsWritten(gpas[i], gpaLabels[i]) == Success(Finite(semesters[i].gpa)) &&
      PositiveFloatAsWritten(credits[i], creditLabels[i]) == Success(Finite(semesters[i].credits))
    ensures SemesterCredits(semesters) > 0.0
    ensures 0.0 <= Cgpa(semesters) <= 4.0
  {
    assert ValidSemesters(semesters);
    TotalWeightPositive(SemesterEntries(semesters));
  }
}
