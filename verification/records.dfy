/** The per-request records the calculators read: `Subject`, `Student` and `Semester`. */
module Records {
  import opened Text
  import opened GradeScale

  /** A course: the (stripped) grade token and its credits. */
  datatype Subject = Subject(grade: string, credit: real)

  /** A student's subjects, in form order. The display-only name is not modelled. */
  datatype Student = Student(subjects: seq<Subject>)

  /** A completed semester: its GPA and its credits. */
  datatype Semester = Semester(gpa: real, credits: real)

  /**
   * `Subject(grade, credit)`: keeps the credit and stores the grade with
   * surrounding whitespace removed, so the stored token starts and ends with a
   * non-space character (or is empty) and is a whitespace-framed middle of the input.
   */
  function NewSubject(grade: string, credit: real): (s: Subject)
    ensures s.credit == credit
    ensures IsStripped(s.grade)
    ensures exists i :: IsMiddle(grade, s.grade, i)
  {
    Subject(Strip(grade), credit)
  }

  /** Whitespace around the grade token does not change the subject, hence not its grade point. */
  lemma SubjectIgnoresSurroundingSpace(w1: string, grade: string, w2: string, credit: real)
    requires AllSpace(w1) && AllSpace(w2)
    ensures NewSubject(w1 + grade + w2, credit) == NewSubject(grade, credit)
    ensures GradePoint(NewSubject(w1 + grade + w2, credit).grade) == GradePoint(NewSubject(grade, credit).grade)
  {
    StripIgnoresSurroundingSpace(w1, grade, w2);
  }
}
