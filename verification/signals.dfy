/** Notification rules run after every change while a student is signed in
    (src/App.jsx:48-97). They keep no memory of earlier runs: every run
    emits every alert whose condition currently holds. */
module Signals {
  import opened Profile

  datatype Kind = AcademicNote | WellnessNote

  /** Every rule emits its notices at high priority. */
  datatype Priority = HighPriority

  /** What a message cites; the rendered text is not modelled. */
  datatype Alert =
    | LowScore(subject: string, score: int)
    | LowAttendance(attendance: int)
    | Strain(stress: int, sleep: real)

  datatype Notification = Notification(kind: Kind, priority: Priority, alert: Alert)

  predicate Failing(subject: Subject) {
    subject.score < 70
  }

  function SubjectNotice(subject: Subject): Notification {
    Notification(AcademicNote, HighPriority, LowScore(subject.name, subject.score))
  }

  /** One notice per failing subject, in subject order. */
  function SubjectNotices(subjects: seq<Subject>): (r: seq<Notification>)
    ensures |r| <= |subjects|
    ensures forall k :: 0 <= k < |r| ==>
              r[k].kind == AcademicNote && r[k].priority == HighPriority
              && r[k].alert.LowScore? && r[k].alert.score < 70
    decreases |subjects|
  {
    if subjects == [] then []
    else
      var last := subjects[|subjects| - 1];
      SubjectNotices(subjects[..|subjects| - 1]) + (if Failing(last) then [SubjectNotice(last)] else [])
  }

  /** The attendance alert, present exactly when attendance is below 75. */
  function AttendanceNotices(attendance: int): (r: seq<Notification>)
    ensures |r| == if attendance < 75 then 1 else 0
    ensures forall k :: 0 <= k < |r| ==>
              r[k] == Notification(AcademicNote, HighPriority, LowAttendance(attendance))
  {
    if attendance < 75 then [Notification(AcademicNote, HighPriority, LowAttendance(attendance))] else []
  }

  /** The batch `generateRecommendations` prepends. */
  function AcademicBatch(s: StudentData): (batch: seq<Notification>)
    ensures |batch| <= |s.academic.subjects| + 1
    ensures forall k :: 0 <= k < |batch| ==> batch[k].kind == AcademicNote && batch[k].priority == HighPriority
    ensures s.academic.attendance < 75 <==>
              batch != [] && batch[|batch| - 1] == Notification(AcademicNote, HighPriority, LowAttendance(s.academic.attendance))
  {
    SubjectNotices(s.academic.subjects) + AttendanceNotices(s.academic.attendance)
  }

  /** The wellness alert, present exactly when stress is at least 7 or
      sleep is under 6 hours. */
  function WellnessNotices(w: Wellness): (r: seq<Notification>)
    ensures |r| == if w.stressLevel >= 7 || w.sleepHours < 6.0 then 1 else 0
    ensures forall k :: 0 <= k < |r| ==>
              r[k] == Notification(WellnessNote, HighPriority, Strain(w.stressLevel, w.sleepHours))
  {
    if w.stressLevel >= 7 || w.sleepHours < 6.0 then
      [Notification(WellnessNote, HighPriority, Strain(w.stressLevel, w.sleepHours))]
    else []
  }

  ghost predicate IsSuffix<T>(tail: seq<T>, whole: seq<T>) {
    |tail| <= |whole| && whole[|whole| - |tail|..] == tail
  }

  lemma SuffixTransitive<T>(a: seq<T>, b: seq<T>, c: seq<T>)
    requires IsSuffix(a, b) && IsSuffix(b, c)
    ensures IsSuffix(a, c)
  {
    assert c[|c| - |a|..] == c[|c| - |b|..][|b| - |a|..];
  }

  /** One full evaluation: the academic rules prepend their batch, then the
      wellness rule prepends its notice, so the newest entry comes first. */
  function Evaluate(s: StudentData, log: seq<Notification>): (log': seq<Notification>)
    ensures IsSuffix(log, log')
    ensures |log'| == |log| + |AcademicBatch(s)| + |WellnessNotices(s.wellness)|
    ensures log'[..|WellnessNotices(s.wellness)|] == WellnessNotices(s.wellness)
    ensures log'[|WellnessNotices(s.wellness)|..|log'| - |log|] == AcademicBatch(s)
  {
    var academic := AcademicBatch(s) + log;
    WellnessNotices(s.wellness) + academic
  }

  /** The notices for a list are the notices for its parts, in order. */
  lemma {:induction false} SubjectNoticesAppend(a: seq<Subject>, b: seq<Subject>)
    ensures SubjectNotices(a + b) == SubjectNotices(a) + SubjectNotices(b)
    decreases |b|
  {
    if b == [] {
      assert a + b == a;
    } else {
      var b' := b[..|b| - 1];
      SubjectNoticesAppend(a, b');
      assert (a + b)[..|a + b| - 1] == a + b';
      assert (a + b)[|a + b| - 1] == b[|b| - 1];
    }
  }

  /** A single subject yields its notice exactly when it is failing. */
  lemma SubjectNoticesSingle(subject: Subject)
    ensures Failing(subject) ==> SubjectNotices([subject]) == [SubjectNotice(subject)]
    ensures !Failing(subject) ==> SubjectNotices([subject]) == []
  {
    assert [subject][..0] == [];
  }

  /** A notice is emitted for a subject list exactly when some subject in it
      is failing and the notice names that subject and its score. */
  lemma {:induction false} SubjectNoticesMembers(subjects: seq<Subject>, n: Notification)
    ensures n in SubjectNotices(subjects) <==>
              exists i :: 0 <= i < |subjects| && Failing(subjects[i]) && n == SubjectNotice(subjects[i])
    decreases |subjects|
  {
    if subjects != [] {
      var init := subjects[..|subjects| - 1];
      var last := subjects[|subjects| - 1];
      SubjectNoticesMembers(init, n);
      if n in SubjectNotices(init) {
        var i :| 0 <= i < |init| && Failing(init[i]) && n == SubjectNotice(init[i]);
        assert subjects[i] == init[i];
      }
      if exists i :: 0 <= i < |subjects| && Failing(subjects[i]) && n == SubjectNotice(subjects[i]) {
        var i :| 0 <= i < |subjects| && Failing(subjects[i]) && n == SubjectNotice(subjects[i]);
        if i < |init| {
          assert init[i] == subjects[i];
        }
      }
    }
  }

  /** Every failing subject gets a notice in the batch. */
  lemma FailingSubjectNoticed(s: StudentData, i: int)
    requires 0 <= i < |s.academic.subjects| && Failing(s.academic.subjects[i])
    ensures SubjectNotice(s.academic.subjects[i]) in AcademicBatch(s)
  {
    SubjectNoticesMembers(s.academic.subjects, SubjectNotice(s.academic.subjects[i]));
  }

  /** The academic rules stay silent exactly when no subject fails and
      attendance is at least 75. */
  lemma AcademicBatchEmpty(s: StudentData)
    ensures AcademicBatch(s) == [] <==>
              (forall i :: 0 <= i < |s.academic.subjects| ==> !Failing(s.academic.subjects[i]))
              && s.academic.attendance >= 75
  {
    var subs := s.academic.subjects;
    if SubjectNotices(subs) != [] {
      SubjectNoticesMembers(subs, SubjectNotices(subs)[0]);
    }
    if exists i :: 0 <= i < |subs| && Failing(subs[i]) {
      var i :| 0 <= i < |subs| && Failing(subs[i]);
      SubjectNoticesMembers(subs, SubjectNotice(subs[i]));
    }
  }

  /** The boundary of the attendance rule: 74 alerts, 75 does not. */
  lemma AttendanceBoundary()
    ensures |AttendanceNotices(74)| == 1
    ensures AttendanceNotices(75) == []
  {
  }

  /** `generateRecommendations`: walks the subjects collecting a notice for
      each failing one, then adds the attendance notice. */
  method GenerateRecommendations(s: StudentData) returns (batch: seq<Notification>)
    ensures batch == AcademicBatch(s)
  {
    var subjects := s.academic.subjects;
    batch := [];
    var i := 0;
    while i < |subjects|
      invariant 0 <= i <= |subjects|
      invariant batch == SubjectNotices(subjects[..i])
    {
      assert subjects[..i + 1][..i] == subjects[..i];
      if subjects[i].score < 70 {
        batch := batch + [SubjectNotice(subjects[i])];
      }
      i := i + 1;
    }
    assert subjects[..i] == subjects;
    if s.academic.attendance < 75 {
      batch := batch + [Notification(AcademicNote, HighPriority, LowAttendance(s.academic.attendance))];
    }
  }
}
