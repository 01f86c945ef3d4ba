/** Concrete runs of the application, traced command by command. */
module Scenarios {
  import opened Wrappers
  import opened Profile
  import opened Commands
  import opened Signals
  import opened Session

  function Subj(name: string, score: int): Subject {
    Subject(name, score, TrendOf(score))
  }

  const attendanceZero := Notification(AcademicNote, HighPriority, LowAttendance(0))
  const algorithms := Notification(AcademicNote, HighPriority, LowScore("Algorithms", 55))

  /** A calm record: no wellness notice fires for it. */
  predicate Calm(w: Wellness) {
    w.stressLevel < 7 && w.sleepHours >= 6.0
  }

  /** Creating a profile signs the student in and at once reports the
      starting attendance of 0. */
  lemma CreateReportsAttendance(today: string)
    ensures var s1 := Step(Start(today), CreateProfile("Asha", "a@x.edu"));
            && s1.user == SignedIn(Student)
            && s1.student.academic == Initial(today).academic
            && s1.student.wellness == Initial(today).wellness
            && s1.log == [attendanceZero]
  {
    var s0 := Start(today);
    var next := s0.student.(name := "Asha", email := "a@x.edu");
    assert Dispatch(s0, CreateProfile("Asha", "a@x.edu")) == Some(AppState(SignedIn(Student), next, []));
    assert SubjectNotices([]) == [];
  }

  /** A failing subject added while attendance is still 0 is reported
      together with a repeat of the attendance report. */
  lemma FailingSubjectRepeatsAttendance(s: AppState)
    requires s.user == SignedIn(Student) && s.student.academic.subjects == []
    requires s.student.academic.attendance == 0 && Calm(s.student.wellness)
    ensures var t := Step(s, AddSubject("Algorithms", Some(55)));
            && t.student.academic.subjects == [Subj("Algorithms", 55)]
            && t.log == [algorithms, attendanceZero] + s.log
  {
    var t := Step(s, AddSubject("Algorithms", Some(55)));
    assert t.student.academic.subjects == [] + [Subj("Algorithms", 55)];
    SubjectNoticesSingle(Subj("Algorithms", 55));
  }

  /** While Algorithms is failing and attendance stays below 75, every
      academic update reports the subject and the attendance again. */
  lemma AcademicUpdateReportsBoth(s: AppState, form: AcademicForm)
    requires s.user == SignedIn(Student) && s.student.academic.subjects == [Subj("Algorithms", 55)]
    requires Calm(s.student.wellness)
    requires OrPrevious(form.attendance, s.student.academic.attendance) < 75
    ensures var t := Step(s, UpdateAcademicInfo(form));
            && t.user == s.user
            && t.student.academic.subjects == s.student.academic.subjects
            && t.student.wellness == s.student.wellness
            && t.student.academic.attendance == OrPrevious(form.attendance, s.student.academic.attendance)
            && t.log == [algorithms, Notification(AcademicNote, HighPriority, LowAttendance(t.student.academic.attendance))]
                        + s.log
  {
    SubjectNoticesSingle(Subj("Algorithms", 55));
  }

  /** Raising attendance to 60 reports both the subject again and the new
      attendance; a later study-hours update reports both once more. */
  lemma EveryWriteReportsAgain(s: AppState)
    requires s.user == SignedIn(Student) && s.student.academic.subjects == [Subj("Algorithms", 55)]
    requires Calm(s.student.wellness)
    ensures var t := Step(s, UpdateAcademicInfo(AcademicForm(Some(60), None, None, None)));
            && t.log == [algorithms, Notification(AcademicNote, HighPriority, LowAttendance(60))] + s.log
            && Step(t, UpdateAcademicInfo(AcademicForm(None, None, None, Some(10)))).log
               == [algorithms, Notification(AcademicNote, HighPriority, LowAttendance(60))] + t.log
  {
    AcademicUpdateReportsBoth(s, AcademicForm(Some(60), None, None, None));
    var t := Step(s, UpdateAcademicInfo(AcademicForm(Some(60), None, None, None)));
    AcademicUpdateReportsBoth(t, AcademicForm(None, None, None, Some(10)));
  }

  /** Checking in at stress 8 and 5 hours of sleep records high risk,
      appends the next week's point and emits the wellness notice; doing it
      again emits the notice again. */
  lemma CheckInAtStrain(s: AppState, today: string)
    requires s.user == SignedIn(Student)
    ensures var t := Step(s, AddWellnessEntry(8, 5.0, today));
            && t.student.wellness.burnoutRisk == High
            && t.student.wellness.trends == s.student.wellness.trends
                                            + [TrendPoint(WeekLabel(|s.student.wellness.trends| + 1), 8, 5.0)]
            && t.log[0] == Notification(WellnessNote, HighPriority, Strain(8, 5.0))
            && Step(t, AddWellnessEntry(8, 5.0, today)).log[0] == Notification(WellnessNote, HighPriority, Strain(8, 5.0))
  {
  }

  lemma FirstWeeksLabelled()
    ensures WeekLabel(1) == "Week 1" && WeekLabel(2) == "Week 2"
  {
    assert Decimal.Show(1) == "1";
    assert Decimal.Show(2) == "2";
  }

  /** Deleting position 0 twice from [A, B, C] removes A and then B. */
  lemma DeletionReindexes(today: string)
    ensures var a := Subj("A", 90);
            var b := Subj("B", 90);
            var c := Subj("C", 90);
            var s := Initial(today).(academic := Initial(today).academic.(subjects := [a, b, c]));
            && Commands.DeleteSubject(s, 0).academic.subjects == [b, c]
            && Commands.DeleteSubject(Commands.DeleteSubject(s, 0), 0).academic.subjects == [c]
  {
    var a := Subj("A", 90);
    var b := Subj("B", 90);
    var c := Subj("C", 90);
    assert [a, b, c][1..] == [b, c];
    assert [b, c][1..] == [c];
  }
}
