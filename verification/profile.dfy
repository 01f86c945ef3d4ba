/** The student record held by the store (src/App.jsx:20-44) and the two
    classifications it caches: a subject's trend and the burnout risk. */
module Profile {
  import opened Decimal

  datatype Role = Student | Mentor

  datatype Trend = Good | Improving | NeedsAttention

  datatype Risk = Low | Moderate | High

  datatype Subject = Subject(name: string, score: int, trend: Trend)

  datatype Academic = Academic(
    attendance: int,
    internalMarks: int,
    assignmentCompletion: int,
    studyHours: int,
    subjects: seq<Subject>)

  /** One wellness check-in as plotted on the trend chart. */
  datatype TrendPoint = TrendPoint(week: string, stress: int, sleep: real)

  datatype Wellness = Wellness(
    stressLevel: int,
    sleepHours: real,
    lastAssessment: string,
    burnoutRisk: Risk,
    trends: seq<TrendPoint>)

  datatype Skill = Skill(skill: string, level: int)

  datatype Career = Career(interests: seq<string>, skills: seq<Skill>, recommendedPath: string)

  datatype StudentData = StudentData(
    id: int,
    name: string,
    email: string,
    role: Role,
    academic: Academic,
    wellness: Wellness,
    career: Career)

  /** The record the store starts from; `today` is the date the clock gives
      when the store is created. */
  function Initial(today: string): (s: StudentData)
    ensures s.name == [] && s.email == [] && s.role == Student
    ensures s.academic.subjects == [] && s.wellness.trends == []
    ensures s.career.skills == [] && s.career.interests == []
    ensures s.academic.attendance == 0 && s.academic.internalMarks == 0
    ensures s.academic.assignmentCompletion == 0 && s.academic.studyHours == 0
    ensures s.wellness.stressLevel == 5 && s.wellness.sleepHours == 7.0 && s.wellness.burnoutRisk == Low
    ensures s.career.recommendedPath == []
  {
    StudentData(
      1, "", "", Student,
      Academic(0, 0, 0, 0, []),
      Wellness(5, 7.0, today, Low, []),
      Career([], [], ""))
  }

  /** Trend of a subject, fixed from its score when the subject is added. */
  function TrendOf(score: int): (t: Trend)
    ensures t == Good <==> 80 <= score
    ensures t == Improving <==> 70 <= score < 80
    ensures t == NeedsAttention <==> score < 70
  {
    if score >= 80 then Good else if score >= 70 then Improving else NeedsAttention
  }

  /** Burnout risk derived from a recorded stress level. */
  function RiskOf(stress: int): (r: Risk)
    ensures r == High <==> 7 <= stress
    ensures r == Moderate <==> 5 <= stress < 7
    ensures r == Low <==> stress < 5
  {
    if stress >= 7 then High else if stress >= 5 then Moderate else Low
  }

  function TrendRank(t: Trend): nat {
    match t
    case NeedsAttention => 0
    case Improving => 1
    case Good => 2
  }

  function RiskRank(r: Risk): nat {
    match r
    case Low => 0
    case Moderate => 1
    case High => 2
  }

  /** A higher score never earns a worse trend. */
  lemma TrendMonotone(a: int, b: int)
    requires a <= b
    ensures TrendRank(TrendOf(a)) <= TrendRank(TrendOf(b))
  {
  }

  /** More stress never lowers the risk. */
  lemma RiskMonotone(a: int, b: int)
    requires a <= b
    ensures RiskRank(RiskOf(a)) <= RiskRank(RiskOf(b))
  {
  }

  /** Label of the `n`-th trend point: "Week n". */
  function WeekLabel(n: nat): (w: string)
    ensures 5 < |w| && w[..5] == "Week "
    ensures forall i :: 5 <= i < |w| ==> IsDigit(w[i])
    ensures Read(w[5..]) == n
  {
    ReadShow(n);
    assert ("Week " + Show(n))[5..] == Show(n);
    "Week " + Show(n)
  }

  /** Different week numbers never share a label. */
  lemma WeekLabelInjective(a: nat, b: nat)
    ensures WeekLabel(a) == WeekLabel(b) ==> a == b
  {
    if WeekLabel(a) == WeekLabel(b) {
      assert WeekLabel(a)[5..] == Show(a);
      assert WeekLabel(b)[5..] == Show(b);
      ShowInjective(a, b);
    }
  }

  // ---- Invariants the commands keep ----

  /** Every subject carries the trend its score gives. */
  ghost predicate SubjectsClassified(subjects: seq<Subject>) {
    forall i :: 0 <= i < |subjects| ==> subjects[i].trend == TrendOf(subjects[i].score)
  }

  /** The `i`-th trend point (from 0) is labelled "Week i+1". */
  ghost predicate TrendsNumbered(trends: seq<TrendPoint>) {
    forall i :: 0 <= i < |trends| ==> trends[i].week == WeekLabel(i + 1)
  }

  /** Once a check-in exists, the current wellness status is the latest
      trend point and its risk is the one that point's stress gives. */
  ghost predicate CurrentIsLatest(w: Wellness) {
    |w.trends| > 0 ==>
      var p := w.trends[|w.trends| - 1];
      w.stressLevel == p.stress && w.sleepHours == p.sleep && w.burnoutRisk == RiskOf(p.stress)
  }

  ghost predicate Consistent(s: StudentData) {
    && SubjectsClassified(s.academic.subjects)
    && TrendsNumbered(s.wellness.trends)
    && CurrentIsLatest(s.wellness)
  }

  /** Sequential numbering makes every week label unique. */
  lemma NumberedLabelsDistinct(trends: seq<TrendPoint>, i: int, j: int)
    requires TrendsNumbered(trends)
    requires 0 <= i < |trends| && 0 <= j < |trends| && i != j
    ensures trends[i].week != trends[j].week
  {
    WeekLabelInjective(i + 1, j + 1);
  }

  lemma InitialConsistent(today: string)
    ensures Consistent(Initial(today))
  {
  }

  /** The starting record pairs stress level 5 with risk "low", which is not
      what a check-in at stress 5 would record. */
  lemma InitialRiskDisagrees(today: string)
    ensures Initial(today).wellness.burnoutRisk != RiskOf(Initial(today).wellness.stressLevel)
  {
  }

  // ---- Frame predicates: what a command leaves alone ----

  predicate SameIdentity(a: StudentData, b: StudentData) {
    a.id == b.id && a.name == b.name && a.email == b.email && a.role == b.role
  }

  predicate SameMetrics(a: Academic, b: Academic) {
    && a.attendance == b.attendance
    && a.internalMarks == b.internalMarks
    && a.assignmentCompletion == b.assignmentCompletion
    && a.studyHours == b.studyHours
  }
}
