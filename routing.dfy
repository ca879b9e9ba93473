/** The comment entry point of the bot: which path an inbound issue comment takes, how the quest
    and task are read off an issue title, the markdown report of a test run, and the test run
    itself from title to posted comments. */
module Routing {
  import opened Wrappers
  import opened Text
  import opened FileSearch
  import opened TaskMapping

  // ---------------------------------------------------------------- comment routing

  /** Where `issue_comment.created` sends a comment. */
  datatype Route =
    | Ignored            // the tracked repository itself, or a bot outside the command and hint paths
    | RunCommand         // `parseCommand`
    | RefuseCommand      // answered with `NotAnOwner`
    | AdminCheckFailed   // the owner lookup threw: nothing is answered
    | GiveHint           // `gameFunction.giveHint`
    | RunTest            // `runTest`
    | ValidateTask       // `gameFunction.validateTask`

  const NotAnOwner: string := "You need to be a repo or org owner to run / commands."

  /** `comment.trim().toLowerCase() === "test"`. */
  predicate IsTestCommand(comment: string) {
    ToLower(Trim(comment)) == "test"
  }

  /** The routing of `issue_comment.created`. `ossRepo` is `process.env.OSS_REPO` (`None` when
      unset), and `isAdmin` what the owner lookup answers (`None` when it throws); the lookup is
      made only for a comment starting with `/`, and before the bot test. */
  function RouteComment(repoFullName: string, ossRepo: Option<string>, comment: string,
                        authorIsBot: bool, isAdmin: Option<bool>): (r: Route)
    ensures ossRepo == Some(repoFullName) ==> r == Ignored
    ensures authorIsBot ==> r != RunTest && r != ValidateTask && r != RefuseCommand
    ensures r == RunTest ==> IsTestCommand(comment)
    ensures r in {RunCommand, RefuseCommand, AdminCheckFailed} <==>
      ossRepo != Some(repoFullName) && StartsWith(comment, "/")
  {
    if ossRepo == Some(repoFullName) then Ignored
    else if StartsWith(comment, "/") then
      match isAdmin
      case None => AdminCheckFailed
      case Some(admin) => if admin || authorIsBot then RunCommand else RefuseCommand
    else if StartsWith(comment, "help") then GiveHint
    else if IsTestCommand(comment) then (if authorIsBot then Ignored else RunTest)
    else if authorIsBot then Ignored
    else ValidateTask
  }

  /** Outside the tracked repository a person's comment always goes somewhere, and a bot's
      comment is dropped exactly when it is neither a command nor a hint request. */
  lemma {:induction false} OnlyBotsAreIgnored(repoFullName: string, ossRepo: Option<string>, comment: string,
                           authorIsBot: bool, isAdmin: Option<bool>)
    requires ossRepo != Some(repoFullName)
    ensures RouteComment(repoFullName, ossRepo, comment, authorIsBot, isAdmin) == Ignored <==>
      authorIsBot && !StartsWith(comment, "/") && !StartsWith(comment, "help")
  {
  }

  /** A word that lowers to "test" has four letters and opens with `t` or `T`. */
  lemma LowersToTest(word: string)
    requires ToLower(word) == "test"
    ensures |word| == 4 && (word[0] == 't' || word[0] == 'T')
  {
    assert LowerChar(word[0]) == 't';
  }

  /** A string whose first character differs from the prefix's does not start with it. */
  lemma FirstCharDiffers(s: string, prefix: string)
    requires |s| > 0 && |prefix| > 0 && s[0] != prefix[0]
    ensures !StartsWith(s, prefix)
  {
  }

  /** White space padding a word that opens with a letter other than `/` and `h` leaves a
      comment that is neither a command nor a hint request. */
  lemma {:induction false} PaddedIsNoCommand(w1: string, word: string, w2: string)
    requires AllSpace(w1) && |word| > 0 && (word[0] == 't' || word[0] == 'T')
    ensures !StartsWith(w1 + word + w2, "/") && !StartsWith(w1 + word + w2, "help")
  {
    var c := w1 + word + w2;
    if w1 == [] {
      assert c[0] == word[0];
    } else {
      assert c[0] == w1[0] && IsSpace(w1[0]);
    }
    FirstCharDiffers(c, "/");
    FirstCharDiffers(c, "help");
  }

  /** "test" in any letter case and with any surrounding white space starts a test run for a
      person, and is never read as a quest answer. */
  lemma {:induction false} TestCommandRoutes(repoFullName: string, ossRepo: Option<string>, w1: string, word: string, w2: string,
                          isAdmin: Option<bool>)
    requires ossRepo != Some(repoFullName)
    requires AllSpace(w1) && AllSpace(w2) && ToLower(word) == "test"
    ensures RouteComment(repoFullName, ossRepo, w1 + word + w2, false, isAdmin) == RunTest
  {
    LowersToTest(word);
    assert LowerChar(word[3]) == 't';
    TrimPadded(w1, word, w2);
    PaddedIsNoCommand(w1, word, w2);
  }

  /** Only a comment that is neither a command, a hint request nor "test" reaches quest
      validation, and only from a person. */
  lemma {:induction false} ValidationIsTheRest(repoFullName: string, ossRepo: Option<string>, comment: string,
                            authorIsBot: bool, isAdmin: Option<bool>)
    ensures RouteComment(repoFullName, ossRepo, comment, authorIsBot, isAdmin) == ValidateTask <==>
      ossRepo != Some(repoFullName) && !authorIsBot
      && !StartsWith(comment, "/") && !StartsWith(comment, "help") && !IsTestCommand(comment)
  {
  }

  // ---------------------------------------------------------------- extractQuestAndTask

  /** The quest and task named in an issue title. */
  datatype QuestTask = QuestTask(quest: string, task: string)

  predicate IsQ(c: char) { c == 'Q' || c == 'q' }
  predicate IsT(c: char) { c == 'T' || c == 't' }

  /** The positions of a match of `/Q(\d+)\s*T(\d+)/i` starting at `i`: `Q` at `i`, digits up to
      `j`, white space up to `k`, `T` at `k`, digits up to `e`; either letter in either case. */
  ghost predicate PatternSpans(s: string, i: nat, j: nat, k: nat, e: nat) {
    i + 1 < j <= k < e - 1 && e <= |s|
    && IsQ(s[i]) && (forall x :: i < x < j ==> IsDigit(s[x]))
    && (forall x :: j <= x < k ==> IsSpace(s[x]))
    && IsT(s[k]) && (forall x :: k < x < e ==> IsDigit(s[x]))
  }

  /** The ends `(j, k, e)` of the match at `i` that the greedy runs produce. None of the runs can
      give anything back: a shorter first number would leave a digit where `\s*T` must go, a
      shorter white-space run a white-space code point where `T` must go. */
  function MatchEnds(s: string, i: nat): (r: Option<(nat, nat, nat)>)
    requires i <= |s|
    ensures r.Some? ==> i + 1 < r.value.0 <= r.value.1 < r.value.2 - 1 && r.value.2 <= |s|
  {
    if i < |s| && IsQ(s[i]) then
      var j := i + 1 + Span(s, i + 1, IsDigit);
      var k := j + Span(s, j, IsSpace);
      if j > i + 1 && k < |s| && IsT(s[k]) then
        var e := k + 1 + Span(s, k + 1, IsDigit);
        if e > k + 1 then Some((j, k, e)) else None
      else None
    else None
  }

  /** The greedy reading is a match of the pattern, with the second number read to its end. */
  lemma {:induction false} MatchEndsSound(s: string, i: nat)
    requires i <= |s| && MatchEnds(s, i).Some?
    ensures var (j, k, e) := MatchEnds(s, i).value;
      PatternSpans(s, i, j, k, e) && (e == |s| || !IsDigit(s[e]))
  {
    var (j, k, e) := MatchEnds(s, i).value;
    EndsOfMatch(s, i);
    SpanStops(s, i + 1, IsDigit);
    SpanStops(s, j, IsSpace);
    SpanStops(s, k + 1, IsDigit);
  }

  /** The ends `MatchEnds` reports are where the three greedy runs stop. */
  lemma EndsOfMatch(s: string, i: nat)
    requires i <= |s| && MatchEnds(s, i).Some?
    ensures var (j, k, e) := MatchEnds(s, i).value;
      i < |s| && IsQ(s[i]) && k < |s| && IsT(s[k])
      && j == i + 1 + Span(s, i + 1, IsDigit) && k == j + Span(s, j, IsSpace)
      && e == k + 1 + Span(s, k + 1, IsDigit)
  {
  }

  /** Wherever the pattern matches at `i`, the greedy reading matches there too, with the same
      first number and a second number at least as long. */
  lemma {:induction false} MatchEndsComplete(s: string, i: nat, j: nat, k: nat, e: nat)
    requires PatternSpans(s, i, j, k, e)
    ensures MatchEnds(s, i).Some?
    ensures MatchEnds(s, i).value.0 == j && MatchEnds(s, i).value.1 == k && MatchEnds(s, i).value.2 >= e
  {
    RunsOfMatch(s, i, j, k, e);
    GreedyEnds(s, i, j, k, e);
  }

  /** The three greedy runs of a match reach the match's `j` and `k`, and at least its `e`. */
  lemma {:induction false} RunsOfMatch(s: string, i: nat, j: nat, k: nat, e: nat)
    requires PatternSpans(s, i, j, k, e)
    ensures i + 1 + Span(s, i + 1, IsDigit) == j && j + Span(s, j, IsSpace) == k
    ensures k + 1 + Span(s, k + 1, IsDigit) >= e
  {
    StopsFirstNumber(s[j]);
    SpanIs(s, i + 1, IsDigit, j - i - 1);
    StopsSpaceRun(s[k]);
    SpanIs(s, j, IsSpace, k - j);
    SpanAtLeast(s, k + 1, IsDigit, e - k - 1);
  }

  /** Runs that reach a `T` and a digit after it make `MatchEnds` a match with those ends. */
  lemma GreedyEnds(s: string, i: nat, j: nat, k: nat, e: nat)
    requires i + 1 < j <= k < e - 1 && e <= |s| && IsQ(s[i]) && IsT(s[k])
    requires i + 1 + Span(s, i + 1, IsDigit) == j && j + Span(s, j, IsSpace) == k
    requires k + 1 + Span(s, k + 1, IsDigit) >= e
    ensures MatchEnds(s, i) == Some((j, k, k + 1 + Span(s, k + 1, IsDigit)))
  {
  }

  /** White space or a `T` ends the first number. */
  lemma StopsFirstNumber(c: char)
    requires IsSpace(c) || IsT(c)
    ensures !IsDigit(c)
  {
  }

  /** A `T` ends the white-space run. */
  lemma StopsSpaceRun(c: char)
    requires IsT(c)
    ensures !IsSpace(c)
  {
  }

  /** A run of `p` code points is no longer than the one `Span` measures. */
  lemma SpanAtLeast(s: string, i: nat, p: char -> bool, n: nat)
    requires i + n <= |s|
    requires forall x :: i <= x < i + n ==> p(s[x])
    ensures Span(s, i, p) >= n
  {
    SpanStops(s, i, p);
  }

  /** The groups of the match at `i`, with the prefixes `Q` and `T` upper-case whatever the
      title's case. */
  function MatchAt(s: string, i: nat): (r: Option<QuestTask>)
    requires i <= |s|
    ensures r.Some? <==> MatchEnds(s, i).Some?
  {
    match MatchEnds(s, i)
    case None => None
    case Some((j, k, e)) => Some(QuestTask("Q" + s[i + 1..j], "T" + s[k + 1..e]))
  }

  /** The first position at or after `i` where the pattern matches. */
  function SearchFrom(s: string, i: nat): (r: Option<nat>)
    requires i <= |s|
    ensures r.Some? ==> i <= r.value <= |s| && MatchEnds(s, r.value).Some?
    ensures r.Some? ==> forall x :: i <= x < r.value ==> MatchEnds(s, x).None?
    ensures r.None? ==> forall x :: i <= x <= |s| ==> MatchEnds(s, x).None?
    decreases |s| - i
  {
    if MatchEnds(s, i).Some? then Some(i)
    else if i == |s| then None
    else SearchFrom(s, i + 1)
  }

  /** `extractQuestAndTask`: `{quest: "Q" + m[1], task: "T" + m[2]}` for the leftmost match of
      `/Q(\d+)\s*T(\d+)/i`, or `None` (`null`) when the title has none. */
  function ExtractQuestAndTask(title: string): (r: Option<QuestTask>)
    ensures r.Some? ==> r.value.quest != [] && r.value.quest[0] == 'Q' && r.value.task != [] && r.value.task[0] == 'T'
  {
    match SearchFrom(title, 0)
    case None => None
    case Some(i) => MatchAt(title, i)
  }

  /** A found quest and task are the groups of a match of the pattern, read with upper-case
      prefixes, at a position before which the pattern matches nowhere; the second number is
      read to its end. */
  lemma {:induction false} ExtractIsLeftmostMatch(title: string)
    requires ExtractQuestAndTask(title).Some?
    ensures exists i: nat, j: nat, k: nat, e: nat :: (PatternSpans(title, i, j, k, e)
      && (e == |title| || !IsDigit(title[e]))
      && ExtractQuestAndTask(title) == Some(QuestTask("Q" + title[i + 1..j], "T" + title[k + 1..e]))
      && forall x: nat, j': nat, k': nat, e': nat :: x < i ==> !PatternSpans(title, x, j', k', e'))
  {
    var i := SearchFrom(title, 0).value;
    var ends := MatchEnds(title, i).value;
    MatchEndsSound(title, i);
    forall x, j', k', e' | x < i
      ensures !PatternSpans(title, x, j', k', e')
    {
      if PatternSpans(title, x, j', k', e') {
        MatchEndsComplete(title, x, j', k', e');
      }
    }
    assert PatternSpans(title, i, ends.0, ends.1, ends.2);
  }

  /** A title in which the pattern matches nowhere gives `None`, and one in which it matches
      somewhere gives a result. */
  lemma {:induction false} ExtractFindsAnyMatch(title: string)
    ensures ExtractQuestAndTask(title).None? <==>
      forall i: nat, j: nat, k: nat, e: nat :: !PatternSpans(title, i, j, k, e)
  {
    if ExtractQuestAndTask(title).Some? {
      var i := SearchFrom(title, 0).value;
      var ends := MatchEnds(title, i).value;
      MatchEndsSound(title, i);
      assert PatternSpans(title, i, ends.0, ends.1, ends.2);
    } else {
      forall i, j, k, e
        ensures !PatternSpans(title, i, j, k, e)
      {
        if PatternSpans(title, i, j, k, e) {
          MatchEndsComplete(title, i, j, k, e);
        }
      }
    }
  }

  /** The quest is "Q" and the task "T" followed by digits, whatever the title's case. */
  lemma {:induction false} ExtractedPrefixesUpperCase(title: string)
    requires ExtractQuestAndTask(title).Some?
    ensures var qt := ExtractQuestAndTask(title).value;
      |qt.quest| >= 2 && qt.quest[0] == 'Q' && AllDigits(qt.quest[1..])
      && |qt.task| >= 2 && qt.task[0] == 'T' && AllDigits(qt.task[1..])
  {
    var i := SearchFrom(title, 0).value;
    var ends := MatchEnds(title, i).value;
    MatchEndsSound(title, i);
    var qt := ExtractQuestAndTask(title).value;
    assert qt.quest[1..] == title[i + 1..ends.0];
    assert qt.task[1..] == title[ends.1 + 1..ends.2];
  }

  /** The titles the bot opens, "Q<n> T<m>" followed by anything but a digit, give back
      "Q<n>" and "T<m>". */
  lemma {:induction false} ExtractFromQuestTitle(q: nat, t: nat, rest: string)
    requires rest == [] || !IsDigit(rest[0])
    ensures ExtractQuestAndTask("Q" + NatToString(q) + " T" + NatToString(t) + rest)
      == Some(QuestTask("Q" + NatToString(q), "T" + NatToString(t)))
  {
    var dq, dt := NatToString(q), NatToString(t);
    var title := "Q" + dq + " T" + dt + rest;
    var j := 1 + |dq|;
    var e := j + 2 + |dt|;
    assert title[1..j] == dq;
    assert title[j + 2..e] == dt;
    assert forall x :: 0 < x < j ==> IsDigit(title[x]) by {
      forall x | 0 < x < j ensures IsDigit(title[x]) {
        assert title[x] == dq[x - 1];
      }
    }
    assert forall x :: j + 1 < x < e ==> IsDigit(title[x]) by {
      forall x | j + 1 < x < e ensures IsDigit(title[x]) {
        assert title[x] == dt[x - j - 2];
      }
    }
    assert title[j] == ' ' && title[j + 1] == 'T';
    assert PatternSpans(title, 0, j, j + 1, e);
    MatchEndsComplete(title, 0, j, j + 1, e);
    assert e == |title| || title[e] == rest[0];
    SpanIs(title, j + 2, IsDigit, |dt|);
  }

  // ---------------------------------------------------------------- formatTestResults

  function ReportHeader(quest: string, task: string): string {
    "## \U{1F9EA} Test Results for " + quest + " " + task + "\n\n"
  }

  const PassedLine: string := "\U{2705} **Test Passed**\n\n"
  const FailedLine: string := "\U{274C} **Test Failed**\n\n"

  /** A headed code block of the trimmed text, left out when the trimmed text is empty. */
  function TrimmedBlock(heading: string, text: string): string {
    if Trim(text) == "" then "" else CodeBlock(heading, Trim(text))
  }

  /** The markdown comment reporting a test run. */
  function TestReport(success: bool, output: string, error: string, quest: string, task: string): string {
    ReportHeader(quest, task) + (if success then PassedLine else FailedLine)
      + TrimmedBlock(OutputHeading, output) + TrimmedBlock(ErrorHeading, error)
  }

  const OutputHeading: string := "### Output:"
  const ErrorHeading: string := "### Error:"
  const BlockClose: string := "\n```\n\n"

  /** The heading line and opening fence of a code block. */
  function BlockOpen(heading: string): string {
    heading + "\n```\n"
  }

  /** Appending a code block piece by piece appends the block. */
  lemma AppendBlock(r: string, heading: string, body: string)
    ensures r + BlockOpen(heading) + body + BlockClose == r + CodeBlock(heading, body)
  {
  }

  lemma TrimOfEmpty()
    ensures Trim("") == ""
  {
    assert [] + [] + [] == "";
    TrimPadded([], [], []);
  }

  /** The block `formatTestResults` appends for one text, `""` when it prints nothing. */
  lemma {:induction false} BlockAppended(r: string, heading: string, text: string, r': string)
    requires text != "" && Trim(text) != "" ==> r' == r + BlockOpen(heading) + Trim(text) + BlockClose
    requires !(text != "" && Trim(text) != "") ==> r' == r
    ensures r' == r + TrimmedBlock(heading, text)
  {
    if text != "" && Trim(text) != "" {
      AppendBlock(r, heading, Trim(text));
    } else {
      if text == "" {
        TrimOfEmpty();
      }
      assert r + "" == r;
    }
  }

  /** `formatTestResults`, appending to `result` step by step. */
  method FormatTestResults(success: bool, output: string, error: string, quest: string, task: string)
    returns (result: string)
    ensures result == TestReport(success, output, error, quest, task)
  {
    result := ReportHeader(quest, task);
    if success {
      result := result + PassedLine;
    } else {
      result := result + FailedLine;
    }
    ghost var withVerdict := result;
    if output != "" && Trim(output) != "" {
      result := result + BlockOpen(OutputHeading);
      result := result + Trim(output);
      result := result + BlockClose;
    }
    BlockAppended(withVerdict, OutputHeading, output, result);
    ghost var withOutput := result;
    if error != "" && Trim(error) != "" {
      result := result + BlockOpen(ErrorHeading);
      result := result + Trim(error);
      result := result + BlockClose;
    }
    BlockAppended(withOutput, ErrorHeading, error, result);
  }

  /** A report made of a header, a verdict line and the rest opens with the header and then
      the verdict line. */
  lemma OpensWith(h: string, v: string, b1: string, b2: string)
    ensures StartsWith(h + v + b1 + b2, h)
    ensures StartsWith((h + v + b1 + b2)[|h|..], v)
  {
    assert h + v + b1 + b2 == h + (v + (b1 + b2));
    AppendParts(h, v + (b1 + b2));
    AppendParts(v, b1 + b2);
  }

  /** Every report opens with the header naming quest and task, then the verdict line. */
  lemma {:induction false} ReportOpensWithVerdict(success: bool, output: string, error: string, quest: string, task: string)
    ensures var r := TestReport(success, output, error, quest, task);
      var h := ReportHeader(quest, task);
      StartsWith(r, h) && StartsWith(r[|h|..], if success then PassedLine else FailedLine)
  {
    OpensWith(ReportHeader(quest, task), if success then PassedLine else FailedLine,
              TrimmedBlock(OutputHeading, output), TrimmedBlock(ErrorHeading, error));
  }

  /** A passing and a failing report for the same quest and task never coincide, whatever they
      print. */
  lemma {:induction false} PassAndFailDiffer(o1: string, e1: string, o2: string, e2: string, quest: string, task: string)
    ensures TestReport(true, o1, e1, quest, task) != TestReport(false, o2, e2, quest, task)
  {
    var h := ReportHeader(quest, task);
    var pass, fail := TestReport(true, o1, e1, quest, task), TestReport(false, o2, e2, quest, task);
    ReportOpensWithVerdict(true, o1, e1, quest, task);
    ReportOpensWithVerdict(false, o2, e2, quest, task);
    assert pass[|h|..][0] == PassedLine[0];
    assert fail[|h|..][0] == FailedLine[0];
  }

  /** A block shows the trimmed text. */
  lemma {:induction false} TrimmedBlockOfTrim(heading: string, text: string)
    ensures TrimmedBlock(heading, text) == TrimmedBlock(heading, Trim(text))
  {
    TrimIdempotent(text);
  }

  /** A text of white space only gives no block. */
  lemma {:induction false} BlankGivesNoBlock(heading: string, text: string)
    requires AllSpace(text)
    ensures TrimmedBlock(heading, text) == ""
  {
    assert text + [] + [] == text;
    TrimPadded(text, [], []);
  }

  /** White space around the output and error texts does not show. */
  lemma {:induction false} ReportIgnoresSurroundingSpace(success: bool, output: string, error: string, quest: string, task: string)
    ensures TestReport(success, output, error, quest, task) == TestReport(success, Trim(output), Trim(error), quest, task)
  {
    TrimmedBlockOfTrim(OutputHeading, output);
    TrimmedBlockOfTrim(ErrorHeading, error);
  }

  /** Output made only of white space is reported like no output at all. */
  lemma {:induction false} BlankOutputIsNoOutput(success: bool, output: string, error: string, quest: string, task: string)
    requires AllSpace(output)
    ensures TestReport(success, output, error, quest, task) == TestReport(success, "", error, quest, task)
  {
    BlankGivesNoBlock(OutputHeading, output);
    BlankGivesNoBlock(OutputHeading, "");
  }

  // ---------------------------------------------------------------- runTest

  const NoTitle: string := "\U{274C} Could not retrieve issue title."
  const NoQuestInTitle: string :=
    "\U{274C} Could not find quest and task in issue title. Issue title should follow the pattern \"Q# T#: ...\""

  function NoTestFile(qt: QuestTask): string {
    "\U{274C} Test file not found for " + qt.quest + " " + qt.task + ". Expected pattern: " + qt.quest + qt.task + "-*.py"
  }

  function Running(qt: QuestTask): string {
    "\U{1F504} Running test for " + qt.quest + " " + qt.task + "..."
  }

  /** `runTest`: the comments it posts for an issue whose title is `title` (empty when GitHub
      gave none), with the test file looked up under `cwd` and `script` the outcome of running
      it. */
  method RunTestFlow(title: string, cwd: string, root: Node, script: ScriptResult) returns (posts: seq<string>)
    ensures title == "" ==> posts == [NoTitle]
    ensures title != "" && ExtractQuestAndTask(title).None? ==> posts == [NoQuestInTitle]
    ensures title != "" && ExtractQuestAndTask(title).Some? ==>
      var qt := ExtractQuestAndTask(title).value;
      posts == match TestFileFor(cwd, root, qt.quest, qt.task)
               case None => [NoTestFile(qt)]
               case Some(_) => [Running(qt), TestReport(script.success, script.output, script.error, qt.quest, qt.task)]
  {
    if title == "" {
      return [NoTitle];
    }
    var extracted := ExtractQuestAndTask(title);
    if extracted.None? {
      return [NoQuestInTitle];
    }
    var qt := extracted.value;
    var testFile := FindTestFileFor(cwd, root, qt.quest, qt.task);
    if testFile.None? {
      return [NoTestFile(qt)];
    }
    var formatted := FormatTestResults(script.success, script.output, script.error, qt.quest, qt.task);
    return [Running(qt), formatted];
  }
}
