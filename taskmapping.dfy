/** The quest-task validation engine: one handler per (quest, task) pair, each deciding from the
    user's comment, the user's progress record and a handful of facts about the tracked
    repository whether the task is complete, and what to answer. A handler returns
    `[responseText, completed]`; three of them also change the progress record. */
module TaskMapping {
  import opened Wrappers
  import opened Text
  import opened JsNumber
  import opened FileSearch

  /** The two views a participant can ask for in Q0T1 (`"score"` and `"map"`). */
  datatype Display = Score | Map

  /** The fields of a participant's progress record that the handlers read or write
      (`display_preference`, `selectedIssue`, `points`, `streakCount`), as one value. */
  datatype Progress = Progress(displayPreference: seq<Display>, selectedIssue: Option<int>, points: int, streakCount: int)

  /** The effect of `completeTask(user_data, quest, task, context, db)` on the record. The
      gamification module is not part of this model, so the effect is an input: any change of
      any field, chosen per event. */
  type Award = (Progress, string, string) -> Progress

  /** The award leaves the display preference and the selected issue alone. */
  ghost predicate ScoresOnly(award: Award) {
    forall p: Progress, quest: string, task: string ::
      award(p, quest, task).displayPreference == p.displayPreference
      && award(p, quest, task).selectedIssue == p.selectedIssue
  }

  /** An award that keeps to the scores leaves this record's preference and selection alone. */
  lemma AwardKeepsChoices(award: Award, p: Progress, quest: string, task: string)
    requires ScoresOnly(award)
    ensures award(p, quest, task).displayPreference == p.displayPreference
    ensures award(p, quest, task).selectedIssue == p.selectedIssue
  {
  }

  /** The participant's progress record, updated in place by the handlers. */
  class UserRecord {
    var displayPreference: seq<Display>
    var selectedIssue: Option<int>
    var points: int
    var streakCount: int

    constructor (displayPreference: seq<Display>, selectedIssue: Option<int>, points: int, streakCount: int)
      ensures State() == Progress(displayPreference, selectedIssue, points, streakCount)
    {
      this.displayPreference := displayPreference;
      this.selectedIssue := selectedIssue;
      this.points := points;
      this.streakCount := streakCount;
    }

    /** The record's fields as a value. */
    function State(): Progress
      reads this
    {
      Progress(displayPreference, selectedIssue, points, streakCount)
    }

    /** `user_data.selectedIssue = issue`: only the selected issue changes. */
    method SelectIssue(issue: Option<int>)
      modifies this
      ensures State() == old(State()).(selectedIssue := issue)
    {
      selectedIssue := issue;
    }

    /** `completeTask(this, quest, task, ...)`: the record becomes what the award makes of it. */
    method CompleteTask(award: Award, quest: string, task: string)
      modifies this
      ensures State() == award(old(State()), quest, task)
    {
      var next := award(State(), quest, task);
      displayPreference := next.displayPreference;
      selectedIssue := next.selectedIssue;
      points := next.points;
      streakCount := next.streakCount;
    }
  }

  /** The response templates a handler receives as `response`. */
  datatype Responses = Responses(success: string, error: string)

  /** What a handler returns: `[responseText, completed]`. */
  datatype Verdict = Verdict(text: string, completed: bool)

  /** What `utils.validateAnswers` does with a quiz answer: it grades it, or it throws. */
  datatype QuizResult = Graded(correctAnswers: nat, feedback: seq<string>) | Threw

  /** What running a grading script yields. */
  datatype ScriptResult = ScriptResult(success: bool, output: string, error: string, exitCode: int)

  /** The facts a handler obtains from the tracked repository, the quiz checker, the grading
      script and the file system, each as the answer for this comment and this participant. */
  datatype Signals = Signals(
    issueCount: Option<int>,        // utils.getIssueCount: a number or null
    prCount: Option<int>,           // utils.getPRCount: a number or null
    openIssues: seq<int>,           // utils.openIssues
    firstAssignee: bool,            // utils.isFirstAssignee for the issue number in the comment
    nonCodeLabel: bool,             // utils.hasNonCodeContributionLabel for that issue
    issueTitle: string,             // utils.getIssueTitle for that issue
    commentedInIssue: bool,         // utils.userCommentedInIssue on the selected issue
    prWithComment: bool,            // utils.userPRAndComment
    assignSucceeds: bool,           // whether the assignment step runs without throwing
    issueClosed: bool,              // utils.issueClosed on the selected issue
    validateAnswers: (string, seq<string>) -> QuizResult,
    completeTask: Award,            // what completeTask does to the record
    script: ScriptResult,           // runPythonScript on the test file found
    cwd: string,                    // process.cwd()
    root: Node)                     // the directory at cwd

  /** The deep link appended to most failure answers. */
  function Link(ossRepo: string): string {
    "\n\n" + BareLink(ossRepo)
  }

  function BareLink(ossRepo: string): string {
    "[Click here to start](https://github.com/" + ossRepo + ")"
  }

  /** The common failure answer: the error template followed by the link. */
  function Failure(resp: Responses, ossRepo: string): Verdict {
    Verdict(resp.error + Link(ossRepo), false)
  }

  // ---------------------------------------------------------------- Q0

  /** The views a Q0T1 answer selects: the first of the letters a, b, c, d that occurs in the
      lower-cased comment decides; `None` when none of them occurs. */
  function ChosenDisplay(comment: string): Option<seq<Display>> {
    var lower := ToLower(comment);
    if 'a' in lower then Some([Score])
    else if 'b' in lower then Some([Map])
    else if 'c' in lower then Some([Score, Map])
    else if 'd' in lower then Some([])
    else None
  }

  /** The choice does not depend on case: the first of a/A, b/B, c/C, d/D present decides. */
  lemma ChosenDisplayIgnoresCase(comment: string)
    ensures ChosenDisplay(comment) ==
      if 'a' in comment || 'A' in comment then Some([Score])
      else if 'b' in comment || 'B' in comment then Some([Map])
      else if 'c' in comment || 'C' in comment then Some([Score, Map])
      else if 'd' in comment || 'D' in comment then Some([])
      else None
  {
    LowerContains(comment, 'a');
    LowerContains(comment, 'b');
    LowerContains(comment, 'c');
    LowerContains(comment, 'd');
  }

  /** What Q0T1 answers and makes of the record: the task completes exactly when one of the four
      letters occurs, and then the record with the chosen views is awarded; a failure answers
      the bare error text and leaves the preference empty and everything else as it was. */
  predicate Q0T1Outcome(comment: string, resp: Responses, award: Award, before: Progress, v: Verdict, after: Progress) {
    (v.completed <==> ChosenDisplay(comment).Some?)
    && v.text == (if v.completed then resp.success else resp.error)
    && after == if v.completed then award(before.(displayPreference := ChosenDisplay(comment).value), "Q0", "T1")
                else before.(displayPreference := [])
  }

  /** Q0T1: the preference is reset, then set from the answer, and a choice is awarded. */
  method HandleQ0T1(u: UserRecord, comment: string, resp: Responses, s: Signals) returns (v: Verdict)
    modifies u
    ensures Q0T1Outcome(comment, resp, s.completeTask, old(u.State()), v, u.State())
    ensures ScoresOnly(s.completeTask) ==> u.displayPreference == ChosenDisplay(comment).GetOr([])
  {
    var userResponse := ToLower(comment);
    u.displayPreference := [];
    if 'a' in userResponse {
      u.displayPreference := u.displayPreference + [Score];
      assert u.State() == old(u.State()).(displayPreference := ChosenDisplay(comment).value);
      u.CompleteTask(s.completeTask, "Q0", "T1");
      return Verdict(resp.success, true);
    } else if 'b' in userResponse {
      u.displayPreference := u.displayPreference + [Map];
      assert u.State() == old(u.State()).(displayPreference := ChosenDisplay(comment).value);
      u.CompleteTask(s.completeTask, "Q0", "T1");
      return Verdict(resp.success, true);
    } else if 'c' in userResponse {
      u.displayPreference := u.displayPreference + [Score];
      u.displayPreference := u.displayPreference + [Map];
      assert u.State() == old(u.State()).(displayPreference := ChosenDisplay(comment).value);
      u.CompleteTask(s.completeTask, "Q0", "T1");
      return Verdict(resp.success, true);
    } else if 'd' in userResponse {
      assert u.State() == old(u.State()).(displayPreference := ChosenDisplay(comment).value);
      u.CompleteTask(s.completeTask, "Q0", "T1");
      return Verdict(resp.success, true);
    }
    return Verdict(resp.error, false);
  }

  // ---------------------------------------------------------------- Q1

  /** Q1T1 and Q1T2: the comment must be loosely equal to the fetched issue count (Q1T1) or
      pull-request count (Q1T2); a count that could not be fetched fails every answer. */
  function CountAnswer(comment: string, count: Option<int>, resp: Responses, ossRepo: string): (v: Verdict)
    ensures v.completed ==> v.text == resp.success
    ensures !v.completed ==> v == Failure(resp, ossRepo)
  {
    if count.Some? && LooselyEquals(comment, count.value) then Verdict(resp.success, true)
    else Failure(resp, ossRepo)
  }

  /** With a live count of `n`, the numeral for `n` completes the task, with or without leading
      zeros and surrounding white space, and the numeral for any other number fails with the
      error answer; without a count nothing completes. */
  lemma CountAnswerAcceptsExactlyTheCount(n: nat, m: nat, w1: string, zeros: string, w2: string, comment: string, resp: Responses, ossRepo: string)
    requires AllSpace(w1) && AllSpace(w2)
    requires forall i :: 0 <= i < |zeros| ==> zeros[i] == '0'
    ensures CountAnswer(w1 + zeros + NatToString(n) + w2, Some(n), resp, ossRepo) == Verdict(resp.success, true)
    ensures m != n ==> CountAnswer(NatToString(m), Some(n), resp, ossRepo) == Failure(resp, ossRepo)
    ensures CountAnswer(comment, None, resp, ossRepo) == Failure(resp, ossRepo)
  {
    NumeralEqualsCount(w1, zeros, n, w2);
    if m != n {
      NumeralEqualsNoOtherCount(m, n);
    }
  }

  /** Q1T3: the lower-cased comment, untrimmed, must be exactly "c". */
  function HandleQ1T3(comment: string, resp: Responses, ossRepo: string): (v: Verdict)
    ensures !v.completed ==> v == Failure(resp, ossRepo)
  {
    if ToLower(comment) == "c" then Verdict(resp.success, true) else Failure(resp, ossRepo)
  }

  /** Only "c" and "C" complete Q1T3; white space around the letter is not forgiven. */
  lemma Q1T3AcceptsOnlyC(comment: string, resp: Responses, ossRepo: string)
    ensures HandleQ1T3(comment, resp, ossRepo).completed <==> comment == "c" || comment == "C"
  {
    if ToLower(comment) == "c" {
      assert |comment| == 1 && LowerChar(comment[0]) == 'c';
      assert comment == [comment[0]];
    }
  }

  /** The answer keys of the three quizzes. */
  const Q1QuizKey: seq<string> := ["b", "a", "c", "b", "d"]
  const Q2QuizKey: seq<string> := ["a", "b", "c", "c", "d", "b"]
  const Q3QuizKey: seq<string> := ["b", "c", "c", "b", "b", "d"]

  /** Q1T4, Q2T4 and Q3T4: the quiz completes whenever `validateAnswers` returns, whatever the score;
      it fails, with the error answer and the link, only when it throws. */
  function QuizAnswer(key: seq<string>, comment: string, validateAnswers: (string, seq<string>) -> QuizResult,
                      resp: Responses, ossRepo: string): (v: Verdict)
    ensures v.completed <==> validateAnswers(comment, key).Graded?
    ensures !v.completed ==> v == Failure(resp, ossRepo)
    ensures v.completed ==> StartsWith(v.text, resp.success + "\n ## You correctly answered " + NatToString(validateAnswers(comment, key).correctAnswers) + " questions!")
    ensures v.completed ==> EndsWith(v.text, "\n\n ### Feedback:\n" + Concat(validateAnswers(comment, key).feedback))
    ensures v.completed ==>
      v.text == resp.success + "\n ## You correctly answered " + NatToString(validateAnswers(comment, key).correctAnswers)
                + " questions!" + "\n\n ### Feedback:\n" + Concat(validateAnswers(comment, key).feedback)
  {
    match validateAnswers(comment, key)
    case Graded(correct, feedback) =>
      var head := resp.success + "\n ## You correctly answered " + NatToString(correct) + " questions!";
      var tail := "\n\n ### Feedback:\n" + Concat(feedback);
      assert (head + tail)[..|head|] == head;
      assert (head + tail)[|head + tail| - |tail|..] == tail;
      Verdict(head + tail, true)
    case Threw => Failure(resp, ossRepo)
  }

  // ---------------------------------------------------------------- Q2

  const MaintainerName: string := "pedrorodriguesarantes"

  /** Q2T1: the trimmed, lower-cased comment must be the maintainer's user name. */
  function HandleQ2T1(comment: string, resp: Responses, ossRepo: string): (v: Verdict)
    ensures !v.completed ==> v == Failure(resp, ossRepo)
  {
    if ToLower(Trim(comment)) == MaintainerName then Verdict(resp.success, true) else Failure(resp, ossRepo)
  }

  /** A word that lowers to the maintainer's name neither starts nor ends with white space. */
  lemma LowersToMaintainer(name: string)
    requires ToLower(name) == MaintainerName
    ensures name != [] && !IsSpace(name[0]) && !IsSpace(name[|name| - 1])
  {
    assert |name| == |MaintainerName|;
    assert LowerChar(name[0]) == 'p';
    assert LowerChar(name[|name| - 1]) == 's';
  }

  /** The maintainer's name in any letter case with white space around it completes Q2T1. */
  lemma {:induction false} PaddedNameAccepted(w1: string, name: string, w2: string, resp: Responses, ossRepo: string)
    requires AllSpace(w1) && AllSpace(w2) && ToLower(name) == MaintainerName
    ensures HandleQ2T1(w1 + name + w2, resp, ossRepo).completed
  {
    LowersToMaintainer(name);
    TrimPadded(w1, name, w2);
  }

  /** Q2T1 completes exactly for the maintainer's name in any letter case with any white space
      around it. */
  lemma {:induction false} Q2T1AcceptsNameInAnyCase(comment: string, resp: Responses, ossRepo: string)
    ensures HandleQ2T1(comment, resp, ossRepo).completed <==>
      exists w1, name, w2 :: AllSpace(w1) && AllSpace(w2) && ToLower(name) == MaintainerName && comment == w1 + name + w2
  {
    var t := Trim(comment);
    if ToLower(t) == MaintainerName {
      var w1, w2 := TrimDecompose(comment);
      assert AllSpace(w1) && AllSpace(w2) && ToLower(t) == MaintainerName && comment == w1 + t + w2;
    }
    if exists w1, name, w2 :: AllSpace(w1) && AllSpace(w2) && ToLower(name) == MaintainerName && comment == w1 + name + w2 {
      var w1, name, w2 :| AllSpace(w1) && AllSpace(w2) && ToLower(name) == MaintainerName && comment == w1 + name + w2;
      PaddedNameAccepted(w1, name, w2, resp, ossRepo);
    }
  }

  /** The issue number a Q2T2 comment names: `Number(body.replace("#", "").trim())`. */
  function IssueNumber(comment: string): Option<int> {
    ToNumber(Trim(RemoveFirst(comment, '#')))
  }

  /** "#12" and "12" both name issue 12. */
  lemma IssueNumberReadsNumerals(n: nat)
    ensures IssueNumber(NatToString(n)) == Some(n)
    ensures IssueNumber("#" + NatToString(n)) == Some(n)
  {
    var d := NatToString(n);
    assert '#' !in d by {
      assert forall i | 0 <= i < |d| :: d[i] != '#';
    }
    assert RemoveFirst("#" + d, '#') == d by {
      assert ("#" + d)[1..] == d;
    }
    DigitIsNotSpace(d[0]);
    DigitIsNotSpace(d[|d| - 1]);
    assert [] + d + [] == d;
    TrimPadded([], d, []);
    NatToStringValue(n);
    DecimalNumeral(d, d);
  }

  /** What Q2T2 answers and makes of the record: the task completes only when the issue named in
      the comment is open, the participant is its first assignee, it carries the
      non-code-contribution label and its title check answers the participant's login; then
      the record with that issue selected is awarded. Otherwise the record is untouched. */
  predicate Q2T2Outcome(user: string, comment: string, resp: Responses, ossRepo: string, s: Signals,
                        before: Progress, v: Verdict, after: Progress) {
    (v.completed <==>
      IssueNumber(comment).Some? && IssueNumber(comment).value in s.openIssues
      && s.firstAssignee && s.nonCodeLabel && s.issueTitle == user)
    && (v.completed ==>
        v.text == resp.success
        && after == s.completeTask(before.(selectedIssue := IssueNumber(comment)), "Q2", "T2"))
    && (!v.completed ==> after == before && v == Failure(resp, ossRepo))
  }

  /** Q2T2: the named issue is selected, and awarded, when it passes the checks. */
  method HandleQ2T2(u: UserRecord, user: string, comment: string, resp: Responses, ossRepo: string, s: Signals)
    returns (v: Verdict)
    modifies u
    ensures Q2T2Outcome(user, comment, resp, ossRepo, s, old(u.State()), v, u.State())
    ensures v.completed && ScoresOnly(s.completeTask) ==> u.selectedIssue == IssueNumber(comment)
  {
    var issueComment := Trim(RemoveFirst(comment, '#'));
    var number := ToNumber(issueComment);
    if number.Some? && number.value in s.openIssues && s.firstAssignee && s.nonCodeLabel && s.issueTitle == user {
      u.SelectIssue(number);
      if ScoresOnly(s.completeTask) {
        AwardKeepsChoices(s.completeTask, u.State(), "Q2", "T2");
      }
      u.CompleteTask(s.completeTask, "Q2", "T2");
      return Verdict(resp.success, true);
    }
    var response := resp.error;
    response := response + Link(ossRepo);
    return Verdict(response, false);
  }

  /** A verdict together with whether the handler asked GitHub to assign the participant. */
  datatype Assigning = Assigning(verdict: Verdict, assignRequested: bool)

  const Q2T3AssignFailed: string := "\n\n\U{2757} Failed to assign user. Please try again or check permissions."

  /** The trimmed, lower-cased comment is "done". */
  predicate IsDone(comment: string) {
    ToLower(Trim(comment)) == "done"
  }

  /** Q2T3: "done" after a comment of the participant on the selected issue requests the
      assignment; the task completes when the assignment step does not throw, and a throw gives
      the error answer with the assignment note and no link. */
  function HandleQ2T3(comment: string, s: Signals, resp: Responses, ossRepo: string): (r: Assigning)
    ensures r.assignRequested <==> IsDone(comment) && s.commentedInIssue
    ensures r.verdict.completed <==> r.assignRequested && s.assignSucceeds
    ensures r.verdict.completed ==> r.verdict.text == resp.success
    ensures r.assignRequested && !s.assignSucceeds ==> r.verdict.text == resp.error + Q2T3AssignFailed
    ensures !r.assignRequested ==> r.verdict == Failure(resp, ossRepo)
  {
    if IsDone(comment) && s.commentedInIssue then
      if s.assignSucceeds then Assigning(Verdict(resp.success, true), true)
      else Assigning(Verdict(resp.error + Q2T3AssignFailed, false), true)
    else Assigning(Failure(resp, ossRepo), false)
  }

  // ---------------------------------------------------------------- Q3

  const TestFailedNote: string :=
    "\n\n\U{274C} **Test Failed**\n\nThe test did not pass. Please review the errors below and fix your code, then type \"test\" again to verify.\n\n"
  const TestFileMissingNote: string := "\n\n\U{274C} Test file not found. Please contact an administrator."
  const TestFirstNote: string :=
    "\n\n**Note:** Type \"test\" to run the automated test, then type \"done\" once the test passes to complete this task."

  /** A headed, fenced code block. */
  function CodeBlock(heading: string, body: string): string {
    heading + "\n```\n" + body + "\n```\n\n"
  }

  /** The code block, present only for a non-empty text. */
  function Fenced(heading: string, body: string): string {
    if body == "" then "" else CodeBlock(heading, body)
  }

  /** Appending a code block only for a non-empty text appends `Fenced`. */
  lemma FencedAppended(r: string, heading: string, body: string, r': string)
    requires body != "" ==> r' == r + CodeBlock(heading, body)
    requires body == "" ==> r' == r
    ensures r' == r + Fenced(heading, body)
  {
    if body == "" {
      assert r + "" == r;
    }
  }

  /** The Q3T1 test file: the first `Q3T1-*.py` under `<cwd>/src/tests`. */
  function Q3T1TestFile(s: Signals): Option<string> {
    FirstFound(s.cwd + "/src/tests", Resolve(s.root, ["src", "tests"]), "Q3T1-")
  }

  /** What Q3T1 answers and makes of the record: the task completes, and is awarded, only on
      "done" with a grading script found that passes. A failing run reports the script's output and errors,
      each only when non-empty; a missing script and any other comment give their own notes. */
  predicate Q3T1Outcome(comment: string, resp: Responses, ossRepo: string, s: Signals,
                        before: Progress, v: Verdict, after: Progress) {
    (v.completed <==> IsDone(comment) && Q3T1TestFile(s).Some? && s.script.success)
    && after == (if v.completed then s.completeTask(before, "Q3", "T1") else before)
    && (v.completed ==> v.text == resp.success)
    && (!IsDone(comment) ==> v.text == resp.error + TestFirstNote + Link(ossRepo))
    && (IsDone(comment) && Q3T1TestFile(s).None? ==> v.text == resp.error + TestFileMissingNote + Link(ossRepo))
    && (IsDone(comment) && Q3T1TestFile(s).Some? && !s.script.success ==>
        v.text == resp.error + TestFailedNote + Fenced("**Output:**", s.script.output)
                  + Fenced("**Errors:**", s.script.error) + BareLink(ossRepo))
  }

  /** Q3T1: on "done" the grading script is looked up and run again. */
  method HandleQ3T1(u: UserRecord, comment: string, resp: Responses, ossRepo: string, s: Signals) returns (v: Verdict)
    modifies u
    ensures Q3T1Outcome(comment, resp, ossRepo, s, old(u.State()), v, u.State())
  {
    var response: string;
    if IsDone(comment) {
      var testFile := FindQ3T1TestFile(s.cwd, s.root);
      if testFile.Some? {
        var result := s.script;
        if result.success {
          u.CompleteTask(s.completeTask, "Q3", "T1");
          return Verdict(resp.success, true);
        } else {
          response := resp.error;
          response := response + TestFailedNote;
          ghost var noted := response;
          if result.output != "" {
            response := response + CodeBlock("**Output:**", result.output);
          }
          FencedAppended(noted, "**Output:**", result.output, response);
          ghost var withOutput := response;
          if result.error != "" {
            response := response + CodeBlock("**Errors:**", result.error);
          }
          FencedAppended(withOutput, "**Errors:**", result.error, response);
          response := response + BareLink(ossRepo);
          return Verdict(response, false);
        }
      } else {
        response := resp.error;
        response := response + TestFileMissingNote;
        response := response + Link(ossRepo);
        return Verdict(response, false);
      }
    }
    response := resp.error;
    response := response + TestFirstNote;
    response := response + Link(ossRepo);
    return Verdict(response, false);
  }

  const Q3T2AssignFailed: string :=
    "\n\n\U{2757} Failed to assign you to the issue automatically. Please try again or check the bot's permissions."

  /** JavaScript truthiness of the selected issue: a number other than 0 (null and undefined are
      falsy). */
  predicate Truthy(selectedIssue: Option<int>) {
    selectedIssue.Some? && selectedIssue.value != 0
  }

  /** Q3T2: once the participant has opened a pull request and commented on it, the task
      completes; the participant is assigned to the selected issue only when one is selected,
      and a throw in that step gives the error answer with the assignment note and no link. */
  function HandleQ3T2(selectedIssue: Option<int>, s: Signals, resp: Responses, ossRepo: string): (r: Assigning)
    ensures r.assignRequested <==> s.prWithComment && Truthy(selectedIssue)
    ensures r.verdict.completed <==> s.prWithComment && (!Truthy(selectedIssue) || s.assignSucceeds)
    ensures r.verdict.completed ==> r.verdict.text == resp.success
    ensures r.assignRequested && !s.assignSucceeds ==> r.verdict.text == resp.error + Q3T2AssignFailed
    ensures !s.prWithComment ==> r.verdict == Failure(resp, ossRepo)
  {
    if s.prWithComment then
      if Truthy(selectedIssue) && !s.assignSucceeds then
        Assigning(Verdict(resp.error + Q3T2AssignFailed, false), true)
      else Assigning(Verdict(resp.success, true), Truthy(selectedIssue))
    else Assigning(Failure(resp, ossRepo), false)
  }

  /** The Q3T3 bonus, added after the award: `streakCount * 100` more points, the streak read
      from the record as the award left it. */
  function StreakBonus(p: Progress): (q: Progress)
    ensures q.points - p.points == q.streakCount * 100 && q.streakCount == p.streakCount
    ensures q.displayPreference == p.displayPreference && q.selectedIssue == p.selectedIssue
    ensures p.streakCount >= 0 ==> q.points >= p.points
  {
    p.(points := p.points + p.streakCount * 100)
  }

  /** What Q3T3 answers and makes of the record: when the selected issue is closed the task
      completes, is awarded, and then earns the streak bonus on the awarded record; otherwise
      the answer is the failure and the record is untouched. */
  predicate Q3T3Outcome(resp: Responses, ossRepo: string, s: Signals, before: Progress, v: Verdict, after: Progress) {
    v == (if s.issueClosed then Verdict(resp.success, true) else Failure(resp, ossRepo))
    && after == if s.issueClosed then StreakBonus(s.completeTask(before, "Q3", "T3")) else before
  }

  /** Q3T3: the award, then `user_data.points += user_data.streakCount * 100`. */
  method HandleQ3T3(u: UserRecord, resp: Responses, ossRepo: string, s: Signals) returns (v: Verdict)
    modifies u
    ensures Q3T3Outcome(resp, ossRepo, s, old(u.State()), v, u.State())
  {
    if s.issueClosed {
      u.CompleteTask(s.completeTask, "Q3", "T3");
      var newPoints := u.streakCount * 100;
      u.points := u.points + newPoints;
      return Verdict(resp.success, true);
    }
    var response := resp.error;
    response := response + Link(ossRepo);
    return Verdict(response, false);
  }

  // ---------------------------------------------------------------- registry

  datatype HandlerId =
    | Q0T1
    | Q1T1 | Q1T2 | Q1T3 | Q1T4
    | Q2T1 | Q2T2 | Q2T3 | Q2T4
    | Q3T1 | Q3T2 | Q3T3 | Q3T4
    | Q4T1 | Q4T2 | Q4T3 | Q4T4
  {
    /** The (quest, task) key the handler is written for. */
    function Key(): (string, string) {
      match this
      case Q0T1 => ("Q0", "T1")
      case Q1T1 => ("Q1", "T1")
      case Q1T2 => ("Q1", "T2")
      case Q1T3 => ("Q1", "T3")
      case Q1T4 => ("Q1", "T4")
      case Q2T1 => ("Q2", "T1")
      case Q2T2 => ("Q2", "T2")
      case Q2T3 => ("Q2", "T3")
      case Q2T4 => ("Q2", "T4")
      case Q3T1 => ("Q3", "T1")
      case Q3T2 => ("Q3", "T2")
      case Q3T3 => ("Q3", "T3")
      case Q3T4 => ("Q3", "T4")
      case Q4T1 => ("Q4", "T1")
      case Q4T2 => ("Q4", "T2")
      case Q4T3 => ("Q4", "T3")
      case Q4T4 => ("Q4", "T4")
    }

    /** The Q4 handlers are placeholders that never complete. */
    predicate IsPlaceholder() {
      Q4T1? || Q4T2? || Q4T3? || Q4T4?
    }

    /** The handlers that write a field of the progress record themselves, besides the award
        every completing handler gives. */
    predicate WritesRecord() {
      Q0T1? || Q2T2? || Q3T3?
    }
  }

  /** `taskMapping`: quest, then task, to handler. */
  const Registry: map<string, map<string, HandlerId>> := map[
    "Q0" := map["T1" := Q0T1],
    "Q1" := map["T1" := Q1T1, "T2" := Q1T2, "T3" := Q1T3, "T4" := Q1T4],
    "Q2" := map["T1" := Q2T1, "T2" := Q2T2, "T3" := Q2T3, "T4" := Q2T4],
    "Q3" := map["T1" := Q3T1, "T2" := Q3T2, "T3" := Q3T3, "T4" := Q3T4],
    "Q4" := map["T1" := Q4T1, "T2" := Q4T2, "T3" := Q4T3, "T4" := Q4T4]
  ]

  /** `taskMapping[quest][task]`, or `None` when the key has no entry. */
  function Lookup(quest: string, task: string): (h: Option<HandlerId>)
    ensures h.Some? ==> h.value.Key() == (quest, task)
  {
    RegistryKeysMatch();
    if quest in Registry && task in Registry[quest] then Some(Registry[quest][task]) else None
  }

  /** The registry holds Q0 with T1 only and Q1 to Q4 with T1 to T4 each, and nothing else. */
  lemma RegistryShape()
    ensures Registry.Keys == {"Q0", "Q1", "Q2", "Q3", "Q4"}
    ensures Registry["Q0"].Keys == {"T1"}
    ensures Registry["Q1"].Keys == {"T1", "T2", "T3", "T4"}
    ensures Registry["Q2"].Keys == {"T1", "T2", "T3", "T4"}
    ensures Registry["Q3"].Keys == {"T1", "T2", "T3", "T4"}
    ensures Registry["Q4"].Keys == {"T1", "T2", "T3", "T4"}
  {
  }

  /** Every entry is the handler written for its own key, so no two keys share a handler. */
  lemma RegistryKeysMatch()
    ensures forall q, t :: q in Registry && t in Registry[q] ==> Registry[q][t].Key() == (q, t)
  {
  }

  /** Lookup succeeds exactly on the seventeen keys, and every Q4 entry is a placeholder. */
  lemma LookupTotalOnQuestGraph(quest: string, task: string)
    ensures Lookup(quest, task).Some? <==>
      (quest == "Q0" && task == "T1")
      || ((quest == "Q1" || quest == "Q2" || quest == "Q3" || quest == "Q4")
          && (task == "T1" || task == "T2" || task == "T3" || task == "T4"))
    ensures Lookup(quest, task).Some? ==> (Lookup(quest, task).value.IsPlaceholder() <==> quest == "Q4")
  {
    RegistryShape();
  }

  /** The answer of a handler that neither writes a field of the progress record itself nor
      searches the file system; `None` for the four handlers that do. */
  function PureAnswer(h: HandlerId, comment: string, ossRepo: string, resp: Responses,
                      selectedIssue: Option<int>, s: Signals): (r: Option<Verdict>)
    ensures r.None? <==> h.WritesRecord() || h.Q3T1?
    ensures h.IsPlaceholder() ==> r == Some(Failure(resp, ossRepo))
  {
    if h.WritesRecord() || h.Q3T1? then None
    else if h.IsPlaceholder() then Some(Failure(resp, ossRepo))
    else Some(HandlerVerdict(h, comment, ossRepo, resp, selectedIssue, s))
  }

  /** The answer of each of the nine handlers that complete without writing a record field of
      their own or searching the file system. */
  function HandlerVerdict(h: HandlerId, comment: string, ossRepo: string, resp: Responses,
                          selectedIssue: Option<int>, s: Signals): Verdict
    requires !h.WritesRecord() && !h.Q3T1? && !h.IsPlaceholder()
  {
    match h
    case Q1T1 => CountAnswer(comment, s.issueCount, resp, ossRepo)
    case Q1T2 => CountAnswer(comment, s.prCount, resp, ossRepo)
    case Q1T3 => HandleQ1T3(comment, resp, ossRepo)
    case Q1T4 => QuizAnswer(Q1QuizKey, comment, s.validateAnswers, resp, ossRepo)
    case Q2T1 => HandleQ2T1(comment, resp, ossRepo)
    case Q2T3 => HandleQ2T3(comment, s, resp, ossRepo).verdict
    case Q2T4 => QuizAnswer(Q2QuizKey, comment, s.validateAnswers, resp, ossRepo)
    case Q3T2 => HandleQ3T2(selectedIssue, s, resp, ossRepo).verdict
    case Q3T4 => QuizAnswer(Q3QuizKey, comment, s.validateAnswers, resp, ossRepo)
  }

  /** The record after the award: every handler calls `completeTask` with its own key exactly
      when it completes the task. */
  function Awarded(h: HandlerId, v: Verdict, award: Award, p: Progress): Progress {
    if v.completed then award(p, h.Key().0, h.Key().1) else p
  }

  /** Runs the handler `h` with the handlers' uniform parameter list: the answer and the new
      record are those of the handler run. */
  method RunHandler(h: HandlerId, u: UserRecord, user: string, comment: string, ossRepo: string,
                    resp: Responses, selectedIssue: Option<int>, s: Signals) returns (v: Verdict)
    modifies u
    ensures PureAnswer(h, comment, ossRepo, resp, selectedIssue, s).Some? ==>
      v == PureAnswer(h, comment, ossRepo, resp, selectedIssue, s).value
      && u.State() == Awarded(h, v, s.completeTask, old(u.State()))
    ensures h.Q0T1? ==> Q0T1Outcome(comment, resp, s.completeTask, old(u.State()), v, u.State())
    ensures h.Q2T2? ==> Q2T2Outcome(user, comment, resp, ossRepo, s, old(u.State()), v, u.State())
    ensures h.Q3T1? ==> Q3T1Outcome(comment, resp, ossRepo, s, old(u.State()), v, u.State())
    ensures h.Q3T3? ==> Q3T3Outcome(resp, ossRepo, s, old(u.State()), v, u.State())
  {
    if h.Q0T1? {
      v := HandleQ0T1(u, comment, resp, s);
    } else if h.Q2T2? {
      v := HandleQ2T2(u, user, comment, resp, ossRepo, s);
    } else if h.Q3T1? {
      v := HandleQ3T1(u, comment, resp, ossRepo, s);
    } else if h.Q3T3? {
      v := HandleQ3T3(u, resp, ossRepo, s);
    } else {
      v := PureAnswer(h, comment, ossRepo, resp, selectedIssue, s).value;
      if v.completed {
        u.CompleteTask(s.completeTask, h.Key().0, h.Key().1);
      }
    }
  }

  /** Apart from Q0T1 and the two assignment failures, every failing handler answers with the
      error template and ends with the deep link. */
  lemma FailuresCarryLink(comment: string, user: string, selectedIssue: Option<int>, s: Signals, resp: Responses, ossRepo: string)
    ensures !CountAnswer(comment, s.issueCount, resp, ossRepo).completed ==>
      CountAnswer(comment, s.issueCount, resp, ossRepo).text == resp.error + Link(ossRepo)
    ensures !HandleQ1T3(comment, resp, ossRepo).completed ==> EndsWith(HandleQ1T3(comment, resp, ossRepo).text, Link(ossRepo))
    ensures !HandleQ2T1(comment, resp, ossRepo).completed ==> EndsWith(HandleQ2T1(comment, resp, ossRepo).text, Link(ossRepo))
    ensures !HandleQ2T3(comment, s, resp, ossRepo).assignRequested ==>
      EndsWith(HandleQ2T3(comment, s, resp, ossRepo).verdict.text, Link(ossRepo))
    ensures !s.prWithComment ==> EndsWith(HandleQ3T2(selectedIssue, s, resp, ossRepo).verdict.text, Link(ossRepo))
    ensures !s.prWithComment ==> !HandleQ3T2(selectedIssue, s, resp, ossRepo).verdict.completed
  {
    var l := Link(ossRepo);
    assert (resp.error + l)[|resp.error + l| - |l|..] == l;
  }
}
