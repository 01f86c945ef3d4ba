/** Status bands and colours the dashboard and wellness views derive from
    the record (src/App.jsx:607-628, 753-754, 843-844, 859-860), and the
    career-path guess from the first skill (src/App.jsx:1035-1037). */
module Dashboard {
  import opened Profile
  import opened Signals

  datatype CardStatus = GoodCard | WarningCard | ExcellentCard

  datatype Tint = Red | Yellow | Green

  function MarksStatus(internalMarks: int): (c: CardStatus)
    ensures c == GoodCard <==> internalMarks >= 75
    ensures c == WarningCard <==> internalMarks < 75
  {
    if internalMarks >= 75 then GoodCard else WarningCard
  }

  function StressStatus(stress: int): (c: CardStatus)
    ensures c == GoodCard <==> stress <= 5
    ensures c == WarningCard <==> stress > 5
  {
    if stress <= 5 then GoodCard else WarningCard
  }

  function AttendanceStatus(attendance: int): (c: CardStatus)
    ensures c == GoodCard <==> attendance >= 75
    ensures c == WarningCard <==> attendance < 75
  {
    if attendance >= 75 then GoodCard else WarningCard
  }

  function AssignmentStatus(completion: int): (c: CardStatus)
    ensures c == ExcellentCard <==> completion >= 85
    ensures c == GoodCard <==> completion < 85
  {
    if completion >= 85 then ExcellentCard else GoodCard
  }

  /** Colour of the current stress level. */
  function StressTint(stress: int): (t: Tint)
    ensures t == Red <==> stress >= 7
    ensures t == Yellow <==> 5 <= stress < 7
    ensures t == Green <==> stress < 5
  {
    if stress >= 7 then Red else if stress >= 5 then Yellow else Green
  }

  /** Colour of the current sleep hours. */
  function SleepTint(sleep: real): (t: Tint)
    ensures t == Red <==> sleep < 6.0
    ensures t == Yellow <==> 6.0 <= sleep < 7.0
    ensures t == Green <==> sleep >= 7.0
  {
    if sleep < 6.0 then Red else if sleep < 7.0 then Yellow else Green
  }

  /** Colour of a subject's progress bar. */
  function ScoreTint(score: int): (t: Tint)
    ensures t == Green <==> score >= 80
    ensures t == Yellow <==> 70 <= score < 80
    ensures t == Red <==> score < 70
  {
    if score >= 80 then Green else if score >= 70 then Yellow else Red
  }

  // ---- How the views agree with the rules ----

  /** The attendance card warns exactly when the attendance alert fires. */
  lemma AttendanceCardMatchesAlert(attendance: int)
    ensures AttendanceStatus(attendance) == WarningCard <==> AttendanceNotices(attendance) != []
  {
  }

  /** The stress colour is the burnout risk a check-in at that stress records. */
  lemma StressTintMatchesRisk(stress: int)
    ensures StressTint(stress) == Red <==> RiskOf(stress) == High
    ensures StressTint(stress) == Yellow <==> RiskOf(stress) == Moderate
    ensures StressTint(stress) == Green <==> RiskOf(stress) == Low
  {
  }

  /** The wellness alert fires exactly when one of the two wellness colours is red. */
  lemma WellnessAlertMatchesRed(w: Wellness)
    ensures WellnessNotices(w) != [] <==> StressTint(w.stressLevel) == Red || SleepTint(w.sleepHours) == Red
  {
  }

  /** A progress bar is red exactly when the subject's trend needs attention
      and a notice is emitted for it. */
  lemma ScoreTintMatchesTrend(subject: Subject)
    requires subject.trend == TrendOf(subject.score)
    ensures ScoreTint(subject.score) == Red <==> subject.trend == NeedsAttention
    ensures ScoreTint(subject.score) == Red <==> Failing(subject)
    ensures ScoreTint(subject.score) == Green <==> subject.trend == Good
  {
  }

  /** The stress card and the stress colour disagree at stress 5: the card
      says good while the colour is already yellow. */
  lemma StressCardLooserThanTint(stress: int)
    ensures StressStatus(stress) == WarningCard ==> StressTint(stress) != Green
    ensures stress == 5 ==> StressStatus(stress) == GoodCard && StressTint(stress) == Yellow
  {
  }

  // ---- Career path guess ----

  predicate StartsWith(s: string, prefix: string) {
    |prefix| <= |s| && s[..|prefix|] == prefix
  }

  /** `s.includes(part)`. */
  predicate Includes(s: string, part: string)
    decreases |s|
  {
    StartsWith(s, part) || (s != [] && Includes(s[1..], part))
  }

  lemma {:induction false} IncludesAt(s: string, part: string, i: int)
    requires 0 <= i <= |s| - |part| && s[i..i + |part|] == part
    ensures Includes(s, part)
    decreases i
  {
    if i > 0 {
      assert s[1..][i - 1..i - 1 + |part|] == part;
      IncludesAt(s[1..], part, i - 1);
    }
  }

  datatype CareerPath = BackendDevelopment | SoftwareDevelopment

  /** Shown only when there is at least one skill; decided by the first. */
  function SuggestedPath(skills: seq<Skill>): (p: CareerPath)
    requires |skills| > 0
    ensures p == BackendDevelopment <==> Includes(skills[0].skill, "Java") || Includes(skills[0].skill, "Python")
  {
    if Includes(skills[0].skill, "Java") || Includes(skills[0].skill, "Python") then BackendDevelopment
    else SoftwareDevelopment
  }

  /** A skill whose name mentions Python anywhere steers the first-skill guess to backend. */
  lemma PythonAnywhereMeansBackend(skills: seq<Skill>, i: int)
    requires |skills| > 0
    requires 0 <= i <= |skills[0].skill| - 6 && skills[0].skill[i..i + 6] == "Python"
    ensures SuggestedPath(skills) == BackendDevelopment
  {
    IncludesAt(skills[0].skill, "Python", i);
  }

  /** Appending more skills never changes the guess once a first skill exists. */
  lemma SuggestedPathStable(skills: seq<Skill>, more: seq<Skill>)
    requires |skills| > 0
    ensures SuggestedPath(skills + more) == SuggestedPath(skills)
  {
    assert (skills + more)[0] == skills[0];
  }
}
