/** The running application: who is signed in, the student record, and the
    newest-first notification log (src/App.jsx:13-53). A command writes the
    record and/or the signed-in user; whenever something was written, the
    notification rules run once on the new record, but only if the signed-in
    user is a student. A command that is rejected writes nothing and so
    triggers no evaluation. */
module Session {
  import opened Wrappers
  import opened Profile
  import opened Commands
  import opened Signals

  datatype User = SignedOut | SignedIn(role: Role)

  datatype AppState = AppState(user: User, student: StudentData, log: seq<Notification>)

  datatype Command =
    | CreateProfile(name: string, email: string)
    | MentorLogin
    | Logout
    | AddSubject(subjectName: string, score: Option<int>)
    | DeleteSubject(index: int)
    | UpdateAcademicInfo(form: AcademicForm)
    | AddWellnessEntry(stress: int, sleep: real, today: string)
    | AddSkill(skillName: string, level: Option<int>)
    | DeleteSkill(index: int)
    | AddInterest(interest: string)
    | DeleteInterest(index: int)

  /** The store as the application first renders it. */
  function Start(today: string): (s: AppState)
    ensures s.user == SignedOut && s.log == []
    ensures s.student == Initial(today)
    ensures s.student.name == [] && s.student.role == Student
    ensures Consistent(s.student)
  {
    InitialConsistent(today);
    AppState(SignedOut, Initial(today), [])
  }

  function AfterWrite(u: Update, user: User, log: seq<Notification>): Option<AppState> {
    match u
    case Rejected => None
    case Written(next) => Some(AppState(user, next, log))
  }

  /** The commands that stop at an empty required input, show an alert and
      write nothing. */
  predicate Rejects(cmd: Command) {
    || (cmd.CreateProfile? && (cmd.name == [] || cmd.email == []))
    || (cmd.AddSubject? && (cmd.subjectName == [] || cmd.score.None?))
    || (cmd.AddSkill? && (cmd.skillName == [] || cmd.level.None?))
    || (cmd.AddInterest? && cmd.interest == [])
  }

  /** The state right after a command's writes, before the rules run;
      `None` when the command wrote nothing. */
  function Dispatch(s: AppState, cmd: Command): (w: Option<AppState>)
    ensures w.None? <==> Rejects(cmd)
    ensures w.Some? ==> w.value.log == s.log
    ensures w.Some? && cmd.CreateProfile? ==> w.value.user == SignedIn(Student)
    ensures cmd.MentorLogin? ==> w == Some(s.(user := SignedIn(Mentor)))
    ensures cmd.Logout? ==> w == Some(s.(user := SignedOut))
    ensures w.Some? && !(cmd.CreateProfile? || cmd.MentorLogin? || cmd.Logout?) ==> w.value.user == s.user
    ensures w.Some? && (cmd.MentorLogin? || cmd.Logout?) ==> w.value.student == s.student
    ensures cmd.CreateProfile? && w.Some? ==>
              w.value.student == Commands.CreateProfile(s.student, cmd.name, cmd.email).next
    ensures cmd.AddSubject? && w.Some? ==>
              w.value.student == Commands.AddSubject(s.student, cmd.subjectName, cmd.score).next
    ensures cmd.DeleteSubject? ==> w == Some(s.(student := Commands.DeleteSubject(s.student, cmd.index)))
    ensures cmd.UpdateAcademicInfo? ==>
              w == Some(s.(student := Commands.UpdateAcademicInfo(s.student, cmd.form)))
    ensures cmd.AddWellnessEntry? ==>
              w == Some(s.(student := Commands.AddWellnessEntry(s.student, cmd.stress, cmd.sleep, cmd.today)))
    ensures cmd.AddSkill? && w.Some? ==>
              w.value.student == Commands.AddSkill(s.student, cmd.skillName, cmd.level).next
    ensures cmd.DeleteSkill? ==> w == Some(s.(student := Commands.DeleteSkill(s.student, cmd.index)))
    ensures cmd.AddInterest? && w.Some? ==>
              w.value.student == Commands.AddInterest(s.student, cmd.interest).next
    ensures cmd.DeleteInterest? ==> w == Some(s.(student := Commands.DeleteInterest(s.student, cmd.index)))
  {
    match cmd
    case CreateProfile(name, email) =>
      AfterWrite(Commands.CreateProfile(s.student, name, email), SignedIn(Student), s.log)
    case MentorLogin => Some(s.(user := SignedIn(Mentor)))
    case Logout => Some(s.(user := SignedOut))
    case AddSubject(name, score) => AfterWrite(Commands.AddSubject(s.student, name, score), s.user, s.log)
    case DeleteSubject(index) => Some(s.(student := Commands.DeleteSubject(s.student, index)))
    case UpdateAcademicInfo(form) => Some(s.(student := Commands.UpdateAcademicInfo(s.student, form)))
    case AddWellnessEntry(stress, sleep, today) =>
      Some(s.(student := Commands.AddWellnessEntry(s.student, stress, sleep, today)))
    case AddSkill(name, level) => AfterWrite(Commands.AddSkill(s.student, name, level), s.user, s.log)
    case DeleteSkill(index) => Some(s.(student := Commands.DeleteSkill(s.student, index)))
    case AddInterest(interest) => AfterWrite(Commands.AddInterest(s.student, interest), s.user, s.log)
    case DeleteInterest(index) => Some(s.(student := Commands.DeleteInterest(s.student, index)))
  }

  /** One command followed by the evaluation it triggers. */
  function Step(s: AppState, cmd: Command): (t: AppState)
    ensures IsSuffix(s.log, t.log)
    ensures t.user != SignedIn(Student) ==> t.log == s.log
    ensures t.log != s.log ==> t.log == Evaluate(t.student, s.log)
    ensures Dispatch(s, cmd).None? ==> t == s
    ensures Dispatch(s, cmd).Some? && t.user == SignedIn(Student) ==> t.log == Evaluate(t.student, s.log)
    ensures Dispatch(s, cmd).Some? ==>
              t.student == Dispatch(s, cmd).value.student && t.user == Dispatch(s, cmd).value.user
  {
    match Dispatch(s, cmd)
    case None => s
    case Some(w) =>
      if w.user == SignedIn(Student) then w.(log := Evaluate(w.student, w.log)) else w
  }

  /** Applies a sequence of commands in order. */
  function Run(s: AppState, cmds: seq<Command>): AppState
    decreases |cmds|
  {
    if cmds == [] then s else Run(Step(s, cmds[0]), cmds[1..])
  }

  // ---- Properties of a single step ----

  /** A rejected add or profile creation leaves the whole state as it was.
      Any other command by a signed-in student that keeps the student signed
      in writes its record and then runs the rules once on that new record. */
  lemma RejectedIsNoOp(s: AppState, cmd: Command)
    ensures Rejects(cmd) ==> Step(s, cmd) == s
    ensures !Rejects(cmd) && s.user == SignedIn(Student) && !cmd.MentorLogin? && !cmd.Logout? ==>
              var written := Dispatch(s, cmd).value.student;
              Step(s, cmd) == AppState(SignedIn(Student), written, Evaluate(written, s.log))
  {
  }

  /** A mentor's session never gains notifications, whatever the command,
      unless the command signs a student in. */
  lemma MentorNeverNotified(s: AppState, cmd: Command)
    requires s.user == SignedIn(Mentor) && !cmd.CreateProfile?
    ensures Step(s, cmd).log == s.log
  {
  }

  /** No de-duplication: when a student with a failing subject adds an
      interest, the subject's notice is emitted again, even if the log
      already holds it. */
  lemma FailingSubjectReEmitted(s: AppState, interest: string, i: int)
    requires s.user == SignedIn(Student) && interest != []
    requires 0 <= i < |s.student.academic.subjects| && Failing(s.student.academic.subjects[i])
    ensures var t := Step(s, AddInterest(interest));
            && |t.log| > |s.log|
            && SubjectNotice(s.student.academic.subjects[i]) in t.log[..|t.log| - |s.log|]
  {
    var u := Commands.AddInterest(s.student, interest);
    assert u.Written? && u.next.academic == s.student.academic;
    assert Dispatch(s, AddInterest(interest)) == Some(AppState(s.user, u.next, s.log));
    var t := Step(s, AddInterest(interest));
    assert t.log == Evaluate(u.next, s.log);
    FailingSubjectNoticed(u.next, i);
    var w := WellnessNotices(t.student.wellness);
    assert t.log[..|t.log| - |s.log|] == w + AcademicBatch(t.student);
  }

  /** Every step keeps the record consistent. */
  lemma StepKeepsConsistent(s: AppState, cmd: Command)
    requires Consistent(s.student)
    ensures Consistent(Step(s, cmd).student)
  {
    match cmd
    case AddSubject(name, score) => AddSubjectKeepsConsistent(s.student, name, score);
    case DeleteSubject(index) => DeleteSubjectKeepsConsistent(s.student, index);
    case AddWellnessEntry(stress, sleep, today) => AddWellnessEntryKeepsConsistent(s.student, stress, sleep, today);
    case _ =>
  }

  // ---- Properties of a run ----

  /** The log only grows: what was logged before a run is the tail of the
      log after it. */
  lemma {:induction false} RunKeepsLogSuffix(s: AppState, cmds: seq<Command>)
    ensures IsSuffix(s.log, Run(s, cmds).log)
    decreases |cmds|
  {
    if cmds != [] {
      var s' := Step(s, cmds[0]);
      RunKeepsLogSuffix(s', cmds[1..]);
      SuffixTransitive(s.log, s'.log, Run(s', cmds[1..]).log);
    }
  }

  /** Every reachable record classifies its subjects by score, numbers its
      trend points "Week 1", "Week 2", … and shows the latest check-in. */
  lemma {:induction false} RunKeepsConsistent(s: AppState, cmds: seq<Command>)
    requires Consistent(s.student)
    ensures Consistent(Run(s, cmds).student)
    decreases |cmds|
  {
    if cmds != [] {
      StepKeepsConsistent(s, cmds[0]);
      RunKeepsConsistent(Step(s, cmds[0]), cmds[1..]);
    }
  }

  /** In a record reached from the start, no two trend points share a week label. */
  lemma ReachableLabelsDistinct(today: string, cmds: seq<Command>, i: int, j: int)
    requires var trends := Run(Start(today), cmds).student.wellness.trends;
             0 <= i < |trends| && 0 <= j < |trends| && i != j
    ensures var trends := Run(Start(today), cmds).student.wellness.trends;
            trends[i].week != trends[j].week
  {
    InitialConsistent(today);
    RunKeepsConsistent(Start(today), cmds);
    NumberedLabelsDistinct(Run(Start(today), cmds).student.wellness.trends, i, j);
  }
}
