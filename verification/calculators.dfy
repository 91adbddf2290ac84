/**
 * `GPACalculator` and `CGPACalculator`: both are the weighted average of
 * `Averages`, fed grade points weighted by subject credits, or semester GPAs
 * weighted by semester credits.
 */
module Calculators {
  import opened GradeScale
  import opened Averages
  import opened Records

  /** Each subject as the entry `(grade point of its grade, credit)`. */
  function GradeEntries(subjects: seq<Subject>): (es: seq<Entry>)
    ensures |es| == |subjects|
    ensures forall i :: 0 <= i < |subjects| ==>
      es[i] == Entry(GradePoint(subjects[i].grade), subjects[i].credit)
  {
    seq(|subjects|, i requires 0 <= i < |subjects| => Entry(GradePoint(subjects[i].grade), subjects[i].credit))
  }

  /** Each semester as the entry `(gpa, credits)`. */
  function SemesterEntries(semesters: seq<Semester>): (es: seq<Entry>)
    ensures |es| == |semesters|
    ensures forall i :: 0 <= i < |semesters| ==> es[i] == Entry(semesters[i].gpa, semesters[i].credits)
  {
    seq(|semesters|, i requires 0 <= i < |semesters| => Entry(semesters[i].gpa, semesters[i].credits))
  }

  function TotalCredits(subjects: seq<Subject>): real {
    TotalWeight(GradeEntries(subjects))
  }

  function SemesterCredits(semesters: seq<Semester>): real {
    TotalWeight(SemesterEntries(semesters))
  }

  predicate PositiveCredits(subjects: seq<Subject>) {
    forall i :: 0 <= i < |subjects| ==> subjects[i].credit > 0.0
  }

  predicate ValidSemesters(semesters: seq<Semester>) {
    forall i :: 0 <= i < |semesters| ==>
      0.0 <= semesters[i].gpa <= 4.0 && semesters[i].credits > 0.0
  }

  /**
   * The unrounded GPA of a student: 0 when the credits add up to zero (no
   * subjects, in particular); with positive credits and at least one subject,
   * a value in [0, 4].
   */
  function Gpa(student: Student): (gpa: real)
    ensures TotalCredits(student.subjects) == 0.0 ==> gpa == 0.0
    ensures student.subjects == [] ==> gpa == 0.0
    ensures student.subjects != [] && PositiveCredits(student.subjects) ==> 0.0 <= gpa <= 4.0
  {
    var es := GradeEntries(student.subjects);
    assert student.subjects != [] && PositiveCredits(student.subjects) ==> 0.0 <= WeightedAverage(es) <= 4.0 by {
      if student.subjects != [] && PositiveCredits(student.subjects) {
        AverageWithin(es, 0.0, 4.0);
      }
    }
    WeightedAverage(es)
  }

  /**
   * The unrounded CGPA over semesters: 0 when the credits add up to zero (no
   * semesters, in particular); for semesters with GPAs in [0, 4] and positive
   * credits, a value in [0, 4].
   */
  function Cgpa(semesters: seq<Semester>): (cgpa: real)
    ensures SemesterCredits(semesters) == 0.0 ==> cgpa == 0.0
    ensures semesters == [] ==> cgpa == 0.0
    ensures semesters != [] && ValidSemesters(semesters) ==> 0.0 <= cgpa <= 4.0
  {
    var es := SemesterEntries(semesters);
    assert semesters != [] && ValidSemesters(semesters) ==> 0.0 <= WeightedAverage(es) <= 4.0 by {
      if semesters != [] && ValidSemesters(semesters) {
        AverageWithin(es, 0.0, 4.0);
      }
    }
    WeightedAverage(es)
  }

  /** `GPACalculator.calculate` without the final rounding: the loop over the subjects. */
  method CalculateGpa(student: Student) returns (gpa: real)
    ensures gpa == Gpa(student)
  {
    var subjects := student.subjects;
    ghost var es := GradeEntries(subjects);
    var totalPoints, totalCredits := 0.0, 0.0;
    var i := 0;
    while i < |subjects|
      invariant 0 <= i <= |subjects|
      invariant totalPoints == TotalPoints(es[..i])
      invariant totalCredits == TotalWeight(es[..i])
    {
      assert es[..i + 1][..i] == es[..i];
      var s := subjects[i];
      var e := Entry(GradePoint(s.grade), s.credit);
      assert es[i] == e && es[..i + 1][i] == e;
      assert TotalPoints(es[..i + 1]) == TotalPoints(es[..i]) + Points(e);
      totalPoints := totalPoints + Points(e);
      totalCredits := totalCredits + s.credit;
      i := i + 1;
    }
    assert es[..i] == es;
    gpa := if totalCredits != 0.0 then totalPoints / totalCredits else 0.0;
  }

  /** `CGPACalculator.calculate` without the final rounding: the loop over the semesters. */
  method CalculateCgpa(semesters: seq<Semester>) returns (cgpa: real)
    ensures cgpa == Cgpa(semesters)
  {
    ghost var es := SemesterEntries(semesters);
    var totalPoints, totalCredits := 0.0, 0.0;
    var i := 0;
    while i < |semesters|
      invariant 0 <= i <= |semesters|
      invariant totalPoints == TotalPoints(es[..i])
      invariant totalCredits == TotalWeight(es[..i])
    {
      assert es[..i + 1][..i] == es[..i];
      var s := semesters[i];
      var e := Entry(s.gpa, s.credits);
      assert es[i] == e && es[..i + 1][i] == e;
      assert TotalPoints(es[..i + 1]) == TotalPoints(es[..i]) + Points(e);
      totalPoints := totalPoints + Points(e);
      totalCredits := totalCredits + s.credits;
      i := i + 1;
    }
    assert es[..i] == es;
    cgpa := if totalCredits != 0.0 then totalPoints / totalCredits else 0.0;
  }

  /** Each subject read as a semester whose GPA is the subject's grade point. */
  function AsSemesters(subjects: seq<Subject>): (sems: seq<Semester>)
    ensures |sems| == |subjects|
    ensures forall i :: 0 <= i < |subjects| ==>
      sems[i] == Semester(GradePoint(subjects[i].grade), subjects[i].credit)
  {
    seq(|subjects|, i requires 0 <= i < |subjects| => Semester(GradePoint(subjects[i].grade), subjects[i].credit))
  }

  /** The two calculators compute the same thing: a GPA is the CGPA of its subjects read as semesters. */
  lemma GpaIsCgpaOfGradePoints(student: Student)
    ensures Gpa(student) == Cgpa(AsSemesters(student.subjects))
  {
    assert GradeEntries(student.subjects) == SemesterEntries(AsSemesters(student.subjects));
  }

  /** All subjects of a sequence of terms, in order. */
  function Flatten(terms: seq<seq<Subject>>): (all: seq<Subject>)
    ensures |terms| == 1 ==> all == terms[0]
  {
    if terms == [] then [] else Flatten(terms[..|terms| - 1]) + terms[|terms| - 1]
  }

  /** Each term summarised as a semester: its unrounded GPA and its total credits. */
  function TermSemesters(terms: seq<seq<Subject>>): (sems: seq<Semester>)
    ensures |sems| == |terms|
    ensures forall i :: 0 <= i < |terms| ==>
      sems[i] == Semester(Gpa(Student(terms[i])), TotalCredits(terms[i]))
  {
    seq(|terms|, i requires 0 <= i < |terms| => Semester(Gpa(Student(terms[i])), TotalCredits(terms[i])))
  }

  lemma GradeEntriesOfConcat(a: seq<Subject>, b: seq<Subject>)
    ensures GradeEntries(a + b) == GradeEntries(a) + GradeEntries(b)
  {
  }

  /** With positive credits, a term summarised by its GPA and its credits carries the term's grade points. */
  lemma TermEntry(subjects: seq<Subject>)
    requires PositiveCredits(subjects)
    ensures TotalCredits(subjects) != 0.0 || TotalPoints(GradeEntries(subjects)) == 0.0
    ensures Entry(Gpa(Student(subjects)), TotalCredits(subjects)) == GroupEntry(GradeEntries(subjects))
  {
    TotalWeightPositive(GradeEntries(subjects));
    if subjects == [] {
      assert GradeEntries(subjects) == [];
    }
  }

  /** Summarising each term as a semester keeps both accumulators of the flattened subject list. */
  lemma {:induction false} TermTotals(terms: seq<seq<Subject>>)
    requires forall t :: 0 <= t < |terms| ==> PositiveCredits(terms[t])
    ensures TotalPoints(SemesterEntries(TermSemesters(terms))) == TotalPoints(GradeEntries(Flatten(terms)))
    ensures TotalWeight(SemesterEntries(TermSemesters(terms))) == TotalWeight(GradeEntries(Flatten(terms)))
    decreases |terms|
  {
    if terms != [] {
      var init, last := terms[..|terms| - 1], terms[|terms| - 1];
      TermTotals(init);
      var es := SemesterEntries(TermSemesters(terms));
      var before, after := GradeEntries(Flatten(init)), GradeEntries(last);
      assert es[..|es| - 1] == SemesterEntries(TermSemesters(init));
      TermEntry(last);
      var e := es[|es| - 1];
      assert e == GroupEntry(after);
      assert Points(e) == TotalPoints(after);
      assert TotalPoints(es) == TotalPoints(before) + TotalPoints(after);
      assert TotalWeight(es) == TotalWeight(before) + TotalWeight(after);
      GradeEntriesOfConcat(Flatten(init), last);
      TotalsOfConcat(before, after);
    }
  }

  /**
   * CGPA is consistent with GPA: with positive credits, the CGPA of the terms'
   * unrounded GPAs, weighted by each term's credits, is the GPA over all
   * subjects of all terms.
   */
  lemma CgpaOfTermsIsOverallGpa(terms: seq<seq<Subject>>)
    requires forall t :: 0 <= t < |terms| ==> PositiveCredits(terms[t])
    ensures Cgpa(TermSemesters(terms)) == Gpa(Student(Flatten(terms)))
  {
    TermTotals(terms);
    SameTotalsSameAverage(SemesterEntries(TermSemesters(terms)), GradeEntries(Flatten(terms)));
  }

  /** The worked example: 'A' and 'B' over equal credits give 3.5, in either case; no subjects give 0. */
  lemma GpaExamples()
    ensures Gpa(Student([Subject("A", 3.0), Subject("B", 3.0)])) == 3.5
    ensures Gpa(Student([Subject("a", 3.0), Subject("b", 3.0)])) == 3.5
    ensures Gpa(Student([])) == 0.0
  {
    GradePointFollowsScale("A");
    GradePointFollowsScale("B");
    GradePointFollowsScale("a");
    GradePointFollowsScale("b");
    TotalsOfPair(Entry(4.0, 3.0), Entry(3.0, 3.0));
    assert GradeEntries([Subject("A", 3.0), Subject("B", 3.0)]) == [Entry(4.0, 3.0), Entry(3.0, 3.0)];
    assert GradeEntries([Subject("a", 3.0), Subject("b", 3.0)]) == [Entry(4.0, 3.0), Entry(3.0, 3.0)];
  }

  /** Semesters (3.5, 15) and (3.8, 12) give 98.1 / 27 = 109/30; no semesters give 0. */
  lemma CgpaExamples()
    ensures Cgpa([Semester(3.5, 15.0), Semester(3.8, 12.0)]) == 109.0 / 30.0
    ensures Cgpa([]) == 0.0
  {
    TotalsOfPair(Entry(3.5, 15.0), Entry(3.8, 12.0));
    assert SemesterEntries([Semester(3.5, 15.0), Semester(3.8, 12.0)]) == [Entry(3.5, 15.0), Entry(3.8, 12.0)];
  }
}
