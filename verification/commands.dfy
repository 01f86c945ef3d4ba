/** The store's mutation commands (src/App.jsx:116-262). Each maps the
    previous record to the next one, as the functional state setters do.
    The add commands and profile creation check for empty inputs first: on
    an empty input the source shows an alert and writes nothing, which is
    `Rejected` here. The other commands always write. */
module Commands {
  import opened Wrappers
  import opened Positions
  import opened Profile

  datatype Update = Rejected | Written(next: StudentData)

  /** Sets name and email; both must be non-empty. */
  function CreateProfile(s: StudentData, name: string, email: string): (u: Update)
    ensures u.Rejected? <==> name == [] || email == []
    ensures u.Written? ==> u.next.name == name && u.next.email == email
    ensures u.Written? ==> && u.next.id == s.id && u.next.role == s.role
                           && u.next.academic == s.academic && u.next.wellness == s.wellness
                           && u.next.career == s.career
  {
    if name == [] || email == [] then Rejected
    else Written(s.(name := name, email := email))
  }

  /** Appends a subject whose trend is fixed from its score; the name must
      be non-empty and the score present. */
  function AddSubject(s: StudentData, subjectName: string, score: Option<int>): (u: Update)
    ensures u.Rejected? <==> subjectName == [] || score.None?
    ensures u.Written? ==>
              Appended(s.academic.subjects, u.next.academic.subjects,
                       Subject(subjectName, score.value, TrendOf(score.value)))
    ensures u.Written? ==> && SameIdentity(s, u.next) && SameMetrics(s.academic, u.next.academic)
                           && u.next.wellness == s.wellness && u.next.career == s.career
  {
    if subjectName == [] || score.None? then Rejected
    else
      var subject := Subject(subjectName, score.value, TrendOf(score.value));
      Written(s.(academic := s.academic.(subjects := s.academic.subjects + [subject])))
  }

  /** Drops the subject at `index`; other subjects keep their order. */
  function DeleteSubject(s: StudentData, index: int): (t: StudentData)
    ensures 0 <= index < |s.academic.subjects| ==>
              t.academic.subjects == s.academic.subjects[..index] + s.academic.subjects[index + 1..]
    ensures !(0 <= index < |s.academic.subjects|) ==> t == s
    ensures SameIdentity(s, t) && SameMetrics(s.academic, t.academic)
    ensures t.wellness == s.wellness && t.career == s.career
  {
    KeepOthersSplices(s.academic.subjects, index, 0);
    s.(academic := s.academic.(subjects := RemoveAt(s.academic.subjects, index)))
  }

  /** The parsed academic form; a field left empty is `None`. */
  datatype AcademicForm = AcademicForm(
    attendance: Option<int>,
    internalMarks: Option<int>,
    assignmentCompletion: Option<int>,
    studyHours: Option<int>)

  /** `input || previous`: a missing value and a zero both fall back to
      the previous value. */
  function OrPrevious(input: Option<int>, previous: int): (v: int)
    ensures input.Some? && input.value != 0 ==> v == input.value
    ensures input.None? || input.value == 0 ==> v == previous
  {
    if input.Some? && input.value != 0 then input.value else previous
  }

  /** Field-wise update of the four metrics; subjects are left as they are. */
  function UpdateAcademicInfo(s: StudentData, form: AcademicForm): (t: StudentData)
    ensures t.academic.attendance == OrPrevious(form.attendance, s.academic.attendance)
    ensures t.academic.internalMarks == OrPrevious(form.internalMarks, s.academic.internalMarks)
    ensures t.academic.assignmentCompletion ==
              OrPrevious(form.assignmentCompletion, s.academic.assignmentCompletion)
    ensures t.academic.studyHours == OrPrevious(form.studyHours, s.academic.studyHours)
    ensures t.academic.subjects == s.academic.subjects
    ensures SameIdentity(s, t) && t.wellness == s.wellness && t.career == s.career
  {
    s.(academic := Academic(
      OrPrevious(form.attendance, s.academic.attendance),
      OrPrevious(form.internalMarks, s.academic.internalMarks),
      OrPrevious(form.assignmentCompletion, s.academic.assignmentCompletion),
      OrPrevious(form.studyHours, s.academic.studyHours),
      s.academic.subjects))
  }

  /** This command never turns a non-zero metric into zero. */
  lemma UpdateNeverStoresZero(s: StudentData, form: AcademicForm)
    ensures var t := UpdateAcademicInfo(s, form);
            && (t.academic.attendance == 0 ==> s.academic.attendance == 0)
            && (t.academic.internalMarks == 0 ==> s.academic.internalMarks == 0)
            && (t.academic.assignmentCompletion == 0 ==> s.academic.assignmentCompletion == 0)
            && (t.academic.studyHours == 0 ==> s.academic.studyHours == 0)
  {
  }

  /** Records a wellness check-in taken on `today`: the current status
      becomes the new values, the risk is derived from the stress, and one
      point labelled with the next week number is appended to the trend. */
  function AddWellnessEntry(s: StudentData, stress: int, sleep: real, today: string): (t: StudentData)
    ensures t.wellness.stressLevel == stress && t.wellness.sleepHours == sleep
    ensures t.wellness.lastAssessment == today
    ensures t.wellness.burnoutRisk == RiskOf(stress)
    ensures Appended(s.wellness.trends, t.wellness.trends,
                     TrendPoint(WeekLabel(|s.wellness.trends| + 1), stress, sleep))
    ensures SameIdentity(s, t) && t.academic == s.academic && t.career == s.career
  {
    var point := TrendPoint(WeekLabel(|s.wellness.trends| + 1), stress, sleep);
    s.(wellness := Wellness(stress, sleep, today, RiskOf(stress), s.wellness.trends + [point]))
  }

  /** Appends a skill; the name must be non-empty and the level present. */
  function AddSkill(s: StudentData, skillName: string, level: Option<int>): (u: Update)
    ensures u.Rejected? <==> skillName == [] || level.None?
    ensures u.Written? ==> Appended(s.career.skills, u.next.career.skills, Skill(skillName, level.value))
    ensures u.Written? ==> && SameIdentity(s, u.next) && u.next.academic == s.academic
                           && u.next.wellness == s.wellness
                           && u.next.career.interests == s.career.interests
                           && u.next.career.recommendedPath == s.career.recommendedPath
  {
    if skillName == [] || level.None? then Rejected
    else Written(s.(career := s.career.(skills := s.career.skills + [Skill(skillName, level.value)])))
  }

  /** Appends an interest; duplicates are allowed, the empty string is not. */
  function AddInterest(s: StudentData, interest: string): (u: Update)
    ensures u.Rejected? <==> interest == []
    ensures u.Written? ==> Appended(s.career.interests, u.next.career.interests, interest)
    ensures u.Written? ==> && SameIdentity(s, u.next) && u.next.academic == s.academic
                           && u.next.wellness == s.wellness
                           && u.next.career.skills == s.career.skills
                           && u.next.career.recommendedPath == s.career.recommendedPath
  {
    if interest == [] then Rejected
    else Written(s.(career := s.career.(interests := s.career.interests + [interest])))
  }

  /** Drops the skill at `index`; other skills keep their order. */
  function DeleteSkill(s: StudentData, index: int): (t: StudentData)
    ensures 0 <= index < |s.career.skills| ==>
              t.career.skills == s.career.skills[..index] + s.career.skills[index + 1..]
    ensures !(0 <= index < |s.career.skills|) ==> t == s
    ensures SameIdentity(s, t) && t.academic == s.academic && t.wellness == s.wellness
    ensures t.career.interests == s.career.interests
    ensures t.career.recommendedPath == s.career.recommendedPath
  {
    KeepOthersSplices(s.career.skills, index, 0);
    s.(career := s.career.(skills := RemoveAt(s.career.skills, index)))
  }

  /** Drops the interest at `index`; other interests keep their order. */
  function DeleteInterest(s: StudentData, index: int): (t: StudentData)
    ensures 0 <= index < |s.career.interests| ==>
              t.career.interests == s.career.interests[..index] + s.career.interests[index + 1..]
    ensures !(0 <= index < |s.career.interests|) ==> t == s
    ensures SameIdentity(s, t) && t.academic == s.academic && t.wellness == s.wellness
    ensures t.career.skills == s.career.skills
    ensures t.career.recommendedPath == s.career.recommendedPath
  {
    KeepOthersSplices(s.career.interests, index, 0);
    s.(career := s.career.(interests := RemoveAt(s.career.interests, index)))
  }

  // ---- Deletion undoes an append ----

  /** Deleting the subject just added, at the last index, restores the record. */
  lemma DeleteUndoesAddSubject(s: StudentData, subjectName: string, score: Option<int>)
    requires AddSubject(s, subjectName, score).Written?
    ensures DeleteSubject(AddSubject(s, subjectName, score).next, |s.academic.subjects|) == s
  {
  }

  /** Deleting the skill just added, at the last index, restores the record. */
  lemma DeleteUndoesAddSkill(s: StudentData, skillName: string, level: Option<int>)
    requires AddSkill(s, skillName, level).Written?
    ensures DeleteSkill(AddSkill(s, skillName, level).next, |s.career.skills|) == s
  {
  }

  /** Deleting the interest just added, at the last index, restores the record. */
  lemma DeleteUndoesAddInterest(s: StudentData, interest: string)
    requires AddInterest(s, interest).Written?
    ensures DeleteInterest(AddInterest(s, interest).next, |s.career.interests|) == s
  {
  }

  /** Submitting the same academic form twice has the effect of submitting it once. */
  lemma UpdateAcademicInfoIdempotent(s: StudentData, form: AcademicForm)
    ensures UpdateAcademicInfo(UpdateAcademicInfo(s, form), form) == UpdateAcademicInfo(s, form)
  {
  }

  // ---- The commands keep the record consistent ----

  lemma AddSubjectKeepsConsistent(s: StudentData, subjectName: string, score: Option<int>)
    requires Consistent(s)
    ensures AddSubject(s, subjectName, score).Written? ==>
              Consistent(AddSubject(s, subjectName, score).next)
  {
  }

  lemma DeleteSubjectKeepsConsistent(s: StudentData, index: int)
    requires Consistent(s)
    ensures Consistent(DeleteSubject(s, index))
  {
    var subs := s.academic.subjects;
    var t := DeleteSubject(s, index);
    var r := t.academic.subjects;
    if 0 <= index < |subs| {
      forall i | 0 <= i < |r|
        ensures r[i].trend == TrendOf(r[i].score)
      {
        if i < index { assert r[i] == subs[i]; } else { assert r[i] == subs[i + 1]; }
      }
    }
  }

  /** On a consistent record, a check-in keeps trend labels sequential (the
      new label continues the numbering) and makes the status equal to the
      new latest point. */
  lemma AddWellnessEntryKeepsConsistent(s: StudentData, stress: int, sleep: real, today: string)
    requires Consistent(s)
    ensures Consistent(AddWellnessEntry(s, stress, sleep, today))
  {
    var before := s.wellness.trends;
    var after := AddWellnessEntry(s, stress, sleep, today).wellness.trends;
    forall i | 0 <= i < |after|
      ensures after[i].week == WeekLabel(i + 1)
    {
      if i < |before| { assert after[i] == after[..|before|][i] == before[i]; }
    }
  }
}
