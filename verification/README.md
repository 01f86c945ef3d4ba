# Student wellness store and alert engine, in Dafny

This project models the logic inside the `StudentWellnessSystem` component of a
single-page student wellness app. That component holds one student record with
three parts:

- academic: attendance, internal marks, assignment completion, study hours and a list of subjects;
- wellness: stress level, sleep hours, burnout risk and a list of weekly trend points;
- career: skills and interests.

Commands rewrite the record as pure "previous record to next record" updates.
After every write, while the signed-in user is a student, a rule engine prepends
notifications to a newest-first log. The dashboard and wellness views classify
the record into status bands and colours.

Modules:

- `Wrappers`: `Option`. An empty form field is `None`.
- `Decimal`: decimal printing of week numbers, and reading the digits back.
- `Positions`: append at the end, and delete by filtering on position.
- `Profile`: the record, the initial state, subject trend and burnout risk, and the consistency invariant.
- `Commands`: every mutation command. A rejected add, which the app shows as an alert, is `Update.Rejected`.
- `Signals`: the notification rules and one full evaluation.
- `Dashboard`: status cards, colours and the career-path guess.
- `Session`: the signed-in user and the log. It runs a command, then the evaluation that command triggers.
- `Scenarios`: concrete command sequences traced step by step.

## Behaviour as written

The model follows the code, including where the code keeps less than a
cleaner design would.

- There is no de-duplication. Every evaluation emits every alert whose condition
  holds at that moment. Adding an interest therefore re-reports a failing subject
  (`Session.FailingSubjectReEmitted`). A fresh profile already gets an
  attendance-0 alert, which repeats on every later write while a student
  is signed in and attendance is still 0 (`Scenarios.CreateReportsAttendance`, `Scenarios.FailingSubjectRepeatsAttendance`).
- There is no range validation and there are no error results:
  - an add with an empty required input writes nothing and triggers no evaluation;
  - a delete at an out-of-range index still writes an unchanged record, so it does trigger an evaluation;
  - out-of-range numbers are stored as given.
- `updateAcademicInfo` uses `value || previous`, so a 0 typed into the form keeps the old value.
- The starting record has stress level 5 and burnout risk "low". A check-in at
  stress 5 would record "moderate" (`Profile.InitialRiskDisagrees`). The
  consistency invariant therefore ties risk to stress only once a check-in
  exists (`Profile.CurrentIsLatest`).
- The stress card calls stress 5 "good" while the stress colour at 5 is already
  yellow (`Dashboard.StressCardLooserThanTint`).

## Model

| member | source | states |
|---|---|---|
| Profile.Initial | src/App.jsx:20-44 | the store starts with an empty name and email, no subjects, trends, skills or interests, attendance 0, stress 5 and sleep 7 |
| Profile.TrendOf | src/App.jsx:122-126 | a subject's trend is good iff score ≥ 80, improving iff 70 ≤ score < 80, needs-attention iff score < 70 |
| Profile.TrendMonotone | src/App.jsx:122-126 | a higher score never gets a worse trend |
| Profile.RiskOf | src/App.jsx:170-171 | burnout risk is high iff stress ≥ 7, moderate iff 5 ≤ stress < 7, low iff stress < 5 |
| Profile.RiskMonotone | src/App.jsx:170-171 | more stress never lowers the risk |
| Profile.WeekLabelInjective | src/App.jsx:164-165 | two different week numbers never print as the same "Week n" label |
| Profile.WeekLabel | src/App.jsx:165 | a week label is "Week " followed by decimal digits that read back as the week number |
| Decimal.ReadShow | src/App.jsx:165 | the decimal digits in a week label read back as the week number |
| Profile.NumberedLabelsDistinct | src/App.jsx:163-181 | in sequentially numbered trends, no two points share a label |
| Profile.InitialConsistent | src/App.jsx:20-44 | the starting record satisfies the consistency invariant |
| Profile.InitialRiskDisagrees | src/App.jsx:36-39 | the starting risk "low" is not the risk a check-in at the starting stress 5 records |
| Positions.KeepOthers | src/App.jsx:144 | filtering on position removes one element when the index is in range and none otherwise |
| Positions.KeepOthersSplices | src/App.jsx:144 | the position filter equals the list with exactly element i spliced out, or the list unchanged for an out-of-range i |
| Positions.RemoveAt | src/App.jsx:139-147 | after deleting index i, elements before i stay in place, later elements shift down by one and the length drops by one; an out-of-range index changes nothing |
| Positions.RemoveAtSubset | src/App.jsx:144 | deletion never introduces an element |
| Commands.CreateProfile | src/App.jsx:246-266 | rejected iff name or email is empty; otherwise sets exactly name and email and leaves every other part alone |
| Commands.AddSubject | src/App.jsx:116-137 | rejected iff name is empty or score is absent; otherwise appends exactly one subject whose trend comes from its score and leaves everything else alone |
| Commands.DeleteSubject | src/App.jsx:139-147 | removes exactly subject i with order kept; an out-of-range index leaves the record unchanged; nothing else changes |
| Commands.OrPrevious | src/App.jsx:154-157 | a present non-zero value replaces the old one; absent or zero keeps the old one |
| Commands.UpdateAcademicInfo | src/App.jsx:149-161 | each of the four metrics is updated field by field with fallback; subjects, wellness and career stay the same |
| Commands.UpdateNeverStoresZero | src/App.jsx:154-157 | this command can never store 0 over a non-zero metric |
| Commands.AddWellnessEntry | src/App.jsx:163-185 | sets stress, sleep and date, derives the risk from the stress, and appends exactly one point "Week n+1" with earlier points kept |
| Commands.AddSkill | src/App.jsx:187-207 | rejected iff name is empty or level is absent; otherwise appends exactly one skill; nothing else changes |
| Commands.AddInterest | src/App.jsx:209-224 | rejected iff the interest is empty; otherwise appends it, duplicates allowed; nothing else changes |
| Commands.DeleteSkill | src/App.jsx:226-234 | removes exactly skill i with order kept; out of range is a no-op; nothing else changes |
| Commands.DeleteInterest | src/App.jsx:236-244 | removes exactly interest i with order kept; out of range is a no-op; nothing else changes |
| Commands.DeleteUndoesAddSubject | src/App.jsx:116-147 | deleting the last index right after adding a subject gives back the original record |
| Commands.DeleteUndoesAddSkill | src/App.jsx:187-234 | deleting the last index right after adding a skill gives back the original record |
| Commands.DeleteUndoesAddInterest | src/App.jsx:209-244 | deleting the last index right after adding an interest gives back the original record |
| Commands.UpdateAcademicInfoIdempotent | src/App.jsx:149-161 | submitting the same academic form twice equals submitting it once |
| Commands.AddSubjectKeepsConsistent | src/App.jsx:116-137 | adding a subject keeps every subject's trend equal to the trend of its score |
| Commands.DeleteSubjectKeepsConsistent | src/App.jsx:139-147 | deleting a subject keeps every remaining subject classified by its score |
| Commands.AddWellnessEntryKeepsConsistent | src/App.jsx:163-185 | after a check-in, trend points are still numbered Week 1, 2, … and the current status equals the latest point |
| Signals.SubjectNotices | src/App.jsx:58-68 | at most one notice per subject; each is academic, high priority, and cites a score below 70 |
| Signals.SubjectNoticesAppend | src/App.jsx:58-68 | notices follow subject order: the notices for a + b are those for a followed by those for b |
| Signals.SubjectNoticesSingle | src/App.jsx:59 | a single subject yields its notice iff its score is below 70, and nothing otherwise |
| Signals.SubjectNoticesMembers | src/App.jsx:58-68 | a notice is emitted iff some subject scores below 70 and the notice carries that subject's name and score |
| Signals.AcademicBatch | src/App.jsx:56-79 | the batch holds only academic high-priority notices, at most one per subject plus one, and ends with the attendance notice iff attendance < 75 |
| Signals.AttendanceNotices | src/App.jsx:70-78 | exactly one academic high-priority attendance notice iff attendance < 75, otherwise none |
| Signals.AttendanceBoundary | src/App.jsx:70 | attendance 74 alerts and 75 does not |
| Signals.WellnessNotices | src/App.jsx:85-97 | exactly one wellness high-priority notice citing stress and sleep iff stress ≥ 7 or sleep < 6 |
| Signals.FailingSubjectNoticed | src/App.jsx:58-68 | every subject scoring below 70 appears in the academic batch |
| Signals.AcademicBatchEmpty | src/App.jsx:55-83 | the academic rules are silent iff no subject scores below 70 and attendance is at least 75 |
| Signals.GenerateRecommendations | src/App.jsx:55-83 | walking the subjects and then checking attendance yields the academic batch |
| Signals.Evaluate | src/App.jsx:80-97 | one evaluation gives [wellness?] ++ academic batch ++ old log, so the old log is a suffix and the log grows by exactly the number of alerts |
| Session.Start | src/App.jsx:14-44 | the app starts signed out with an empty log and exactly the starting record, which is consistent |
| Session.Dispatch | src/App.jsx:116-266 | exactly the rejecting commands write nothing; each other command writes exactly the record its command produces (subject, skill and interest adds and deletes, the academic update, the check-in, profile creation) and never touches the log; profile creation signs a student in, mentor login signs a mentor in, logout signs out, every other command keeps the user |
| Session.Step | src/App.jsx:48-53 | the resulting record and user are exactly what the command wrote; a rejected command changes nothing; the log is the old log unless the user after the write is a student, in which case it is one evaluation of the new record prepended to the old log |
| Session.RejectedIsNoOp | src/App.jsx:116-266 | a rejected add or profile creation leaves the whole state unchanged; any other command by a signed-in student, other than a login change, yields the written record with one evaluation of it prepended to the log |
| Session.MentorNeverNotified | src/App.jsx:48-53 | while a mentor is signed in, no command except profile creation adds a notification |
| Session.FailingSubjectReEmitted | src/App.jsx:48-83 | with no de-duplication, an unrelated write such as adding an interest re-emits the notice of every failing subject |
| Session.StepKeepsConsistent | src/App.jsx:116-266 | every command keeps the consistency invariant |
| Session.RunKeepsLogSuffix | src/App.jsx:80-97 | over any sequence of commands the log never shrinks and its old contents stay at its tail |
| Session.RunKeepsConsistent | src/App.jsx:116-266 | over any sequence of commands the consistency invariant holds |
| Session.ReachableLabelsDistinct | src/App.jsx:163-181 | in any record reached from the start, week labels are never reused |
| Dashboard.MarksStatus | src/App.jsx:607 | the marks card is good iff internal marks ≥ 75, otherwise warning |
| Dashboard.StressStatus | src/App.jsx:614 | the stress card is good iff stress ≤ 5, otherwise warning |
| Dashboard.AttendanceStatus | src/App.jsx:621 | the attendance card is good iff attendance ≥ 75, otherwise warning |
| Dashboard.AssignmentStatus | src/App.jsx:628 | the assignments card is excellent iff completion ≥ 85, otherwise good |
| Dashboard.StressTint | src/App.jsx:843-844 | stress colour is red iff ≥ 7, yellow iff 5..6, green iff < 5 |
| Dashboard.SleepTint | src/App.jsx:859-860 | sleep colour is red iff < 6, yellow iff 6 ≤ sleep < 7, green iff ≥ 7 |
| Dashboard.ScoreTint | src/App.jsx:753-754 | a subject bar is green iff score ≥ 80, yellow iff 70..79, red iff < 70 |
| Dashboard.AttendanceCardMatchesAlert | src/App.jsx:621 | the attendance card warns iff the attendance alert fires |
| Dashboard.StressTintMatchesRisk | src/App.jsx:843-844 | the stress colour bands coincide with the burnout-risk bands |
| Dashboard.WellnessAlertMatchesRed | src/App.jsx:88 | the wellness alert fires iff the stress or the sleep colour is red |
| Dashboard.ScoreTintMatchesTrend | src/App.jsx:753-754 | for a classified subject the bar is red iff it needs attention iff it is notified |
| Dashboard.StressCardLooserThanTint | src/App.jsx:614 | a stress warning card is never green; at stress 5 the card is good while the colour is yellow |
| Dashboard.SuggestedPath | src/App.jsx:1035-1037 | backend development iff the first skill's name contains "Java" or "Python" |
| Dashboard.PythonAnywhereMeansBackend | src/App.jsx:1035-1037 | "Python" anywhere in the first skill's name gives backend development |
| Dashboard.SuggestedPathStable | src/App.jsx:1035-1037 | appending skills never changes the guess once a first skill exists |
| Scenarios.CreateReportsAttendance | src/App.jsx:246-266 | creating a profile signs in a student and logs exactly the attendance-0 alert |
| Scenarios.FailingSubjectRepeatsAttendance | src/App.jsx:116-137 | adding Algorithms at 55 logs its notice plus a repeat of the attendance alert |
| Scenarios.AcademicUpdateReportsBoth | src/App.jsx:149-161 | while Algorithms scores 55 and attendance stays below 75, any academic update logs exactly the subject alert and the current attendance alert, keeping subjects, wellness and the user |
| Scenarios.EveryWriteReportsAgain | src/App.jsx:149-161 | setting attendance to 60 logs the subject and attendance-60 alerts again, and a later study-hours update logs exactly those two alerts once more |
| Scenarios.CheckInAtStrain | src/App.jsx:163-185 | a check-in at stress 8 and sleep 5 records high risk, appends the next week's point and puts the wellness alert first; an identical second check-in puts it first again |
| Scenarios.FirstWeeksLabelled | src/App.jsx:165 | the first two trend labels are "Week 1" and "Week 2" |
| Scenarios.DeletionReindexes | src/App.jsx:139-147 | deleting index 0 twice from [A, B, C] leaves [C] |

## Left out

- Rendering: JSX markup, charts, icons, modals, view navigation and notification rendering.
- Form parsing with `parseInt`/`parseFloat`: commands take already-parsed values, with `None` for an empty field. Inputs that parse to NaN are not modelled.
- Commands.AddWellnessEntry: takes stress as an `int`, so it cannot express a check-in whose stress slider was never moved (src/App.jsx:470). That form sends no value, and the source then stores NaN stress and risk "low" (src/App.jsx:166, 170-171). The same holds for an untouched sleep field.
- Notification ids (clock plus randomness) and the "Just now" timestamp are omitted.
- Message text is not modelled. A notification carries the values its message cites: subject name and score, attendance, or stress and sleep.
- The assessment date comes from the clock. It is a `today` parameter of the check-in and of the initial state.
- React batching and effect scheduling become one synchronous step: command, then evaluation. Evaluation runs when the record or the signed-in user was written.
- `sleepHours` is a `real`, not a floating-point number.
- The mentor login (src/App.jsx:289) and logout (src/App.jsx:1115) are modelled only as role changes.
- The signed-in user's display copy of the name and email is not modelled.
- `Signals.Evaluate` does not model the source's two separate state updates. Both prepends are combined into one function, in the order the source applies them.
