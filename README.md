# Quest bot core in Dafny

This project models the core of a GitHub bot that leads newcomers through "quests" of
open-source tasks. Participants answer in issue comments. The bot routes each comment, answers
administrator `/commands`, runs grading scripts, and decides with one handler per (quest, task)
pair whether a task is complete.

The model covers:

- **The handlers of `src/taskMapping.js` and their registry** (`TaskMapping`).
  - Pure decisions are functions.
  - The participant's progress record is a `UserRecord` class, updated in place. Q0T1, Q2T2 and Q3T3 write its fields themselves, and every handler that completes its task passes it to `completeTask`, whose effect on the record is an input.
  - The facts a handler fetches from GitHub (counts, assignee, label, title, whether an issue is closed or commented on), the quiz checker `validateAnswers` and the grading script are inputs, collected in `Signals`.
- **The grading-script search** (`FileSearch`). `findFilesRecursive` runs over a tree of directory entries kept in listing order, and the two `findTestFile` variants take the first file it finds.
- **JavaScript's string-to-number conversion** (`JsNumber`). Loose `==` between a comment and a count uses it, and so does `Number(...)` on an issue number.
- **The administrator-command grammar and its `switch`** (`Commands`). Database and GitHub effects become a list of recorded actions, and their outcomes are inputs.
- **Comment routing, title parsing, the test report and the test run** (`Routing`): the `issue_comment.created` routing, `extractQuestAndTask`, `formatTestResults` and `runTest`.
- **Helpers that stand in for JavaScript built-ins** (`Text`): `toLowerCase`, `trim`, `split`, `join`, the greedy runs of a regular expression, and decimal rendering. `Wrappers` holds `Option`.

## Model

| member | source | states |
|---|---|---|
| FileSearch.FindFilesRecursive | src/taskMapping.js:13-40 | the loop collects exactly the paths of the `.py` files whose names start with the text before `*`, in traversal order, skipping unreadable directories and every directory whose path ends in a name from `skipDirs` |
| FileSearch.FoundMatches | src/taskMapping.js:29-33 | every collected path has a base name that starts with the prefix and ends with `.py` |
| FileSearch.FoundIgnoresSkipped | src/taskMapping.js:16-21 | for an entry named by the last segment of its path, emptying every directory named in `skipDirs` changes nothing the search collects: it never looks inside them |
| FileSearch.FoundUnder | src/taskMapping.js:26-32 | every collected path lies under the directory the search started in |
| FileSearch.FirstNamed | src/taskMapping.js:47 | the entry found has the name asked for, and when none is found no entry has that name |
| FileSearch.FindQ3T1TestFile | src/taskMapping.js:45-60 | the Q3T1 script is the first `Q3T1-*.py` under `<cwd>/src/tests`, or none when that directory is missing or holds none |
| FileSearch.FirstFound | src/taskMapping.js:49-55 | there is a result exactly when the directory exists and the search finds something, and then it is the first path found |
| FileSearch.PrefixOfPattern | src/taskMapping.js:15 | for a pattern `<head>*<tail>` whose head has no `*`, the prefix is the head |
| FileSearch.FindTestFileFor | index.js:328-345 | the method's result is `TestFileFor` of the working directory, the quest and the task |
| FileSearch.TestFileFor | index.js:328-345 | a file exists exactly when the search from the working directory finds a `<quest><task>-*.py` file, and it is the first path found, unchanged by the `path.join` fallback |
| FileSearch.ResolveIgnoresListing | src/taskMapping.js:46 | following a path through a directory does not depend on whether that directory can be listed |
| FileSearch.FirstFoundIsUnderCwd | index.js:337 | the test file is the first collected path itself: the `path.join` branch is never taken |
| FileSearch.BasenameOfJoin | src/taskMapping.js:17 | the base name of `dir/name` is `name` |
| JsNumber.ToNumber | src/taskMapping.js:200-202 | `Number(...)`, also behind the loose `==` of line 135: a text that trims to decimal digits is always a number, and never a negative one; a negative number needs a leading `-` |
| JsNumber.NumeralEqualsCount | src/taskMapping.js:133-142 | a decimal numeral of a count, with leading zeros and surrounding white space, loosely equals the count |
| JsNumber.NumeralEqualsNoOtherCount | src/taskMapping.js:133-142 | the numeral of `m` loosely equals no count other than `m` |
| JsNumber.DecimalNumeral | src/taskMapping.js:200-206 | a text that trims to a digit string converts to that string's decimal value |
| TaskMapping.ChosenDisplayIgnoresCase | src/taskMapping.js:104-130 | the first of a/A, b/B, c/C, d/D in the comment picks `[score]`, `[map]`, `[score, map]` or `[]`, in that priority; none of them is no choice |
| TaskMapping.HandleQ0T1 | src/taskMapping.js:104-130 | the task completes exactly when a choice is made, and then the record with the chosen views is passed to `completeTask`; a failure answers the bare error text and leaves the preference empty and every other field as it was; when `completeTask` keeps the preference, the preference is the choice |
| TaskMapping.CountAnswer | src/taskMapping.js:133-153 | a completed count task answers with the success text; any other outcome is the error text followed by the link |
| TaskMapping.CountAnswerAcceptsExactlyTheCount | src/taskMapping.js:133-153 | with a fetched count `n`, the numeral of `n` completes (also padded and zero-prefixed), the numeral of any other number fails, and a missing count fails every answer |
| TaskMapping.HandleQ1T3 | src/taskMapping.js:155-164 | any answer but the lower-cased "c" fails with the error text and the link |
| TaskMapping.Q1T3AcceptsOnlyC | src/taskMapping.js:155-164 | Q1T3 completes exactly for the comment "c" or "C", with no white space forgiven |
| TaskMapping.QuizAnswer | src/taskMapping.js:166-183 | the quiz completes exactly when `validateAnswers` returns, whatever the score; the text is exactly the success template, the "You correctly answered <n> questions!" line and the joined feedback; when it throws, the answer is the error text and the link |
| TaskMapping.HandleQ2T1 | src/taskMapping.js:186-197 | any answer whose trimmed, lower-cased text is not the maintainer's name fails with the error text and the link |
| TaskMapping.Q2T1AcceptsNameInAnyCase | src/taskMapping.js:186-197 | Q2T1 completes exactly when the comment is the maintainer's name in any letter case with white space around it |
| TaskMapping.PaddedNameAccepted | src/taskMapping.js:187-191 | the maintainer's name in any case, padded with white space, completes Q2T1 |
| TaskMapping.IssueNumberReadsNumerals | src/taskMapping.js:200-207 | "12" and "#12" both name issue 12 |
| TaskMapping.HandleQ2T2 | src/taskMapping.js:199-215 | the task completes exactly when the number parses, the issue is open, the participant is its first assignee, it has the non-code label and the title check passes; then the record with that issue selected is passed to `completeTask`; otherwise the record is unchanged and the answer is the error text with the link |
| TaskMapping.HandleQ2T3 | src/taskMapping.js:217-240 | assignment is asked for exactly on "done" after a comment in the issue; the task completes exactly when that assignment succeeds; a failed assignment gives the error text with the assignment note and no link |
| TaskMapping.HandleQ3T1 | src/taskMapping.js:261-302 | the task completes, and the record is passed to `completeTask`, exactly on "done" with a script found that passes; otherwise the record is unchanged; a failing script's answer shows the Output and Errors blocks only for non-empty texts; a missing script and any other comment get their own notes |
| TaskMapping.FencedAppended | src/taskMapping.js:281-286 | appending a code block only for a non-empty text appends the optional block |
| TaskMapping.HandleQ3T2 | src/taskMapping.js:304-329 | the participant is assigned exactly when a pull request with a comment exists and an issue is selected; the task completes exactly when the pull request exists and the assignment, if any, succeeds |
| TaskMapping.HandleQ3T3 | src/taskMapping.js:331-341 | a closed issue completes the task: the record is first passed to `completeTask`, and then earns `streakCount * 100` points, with the streak as `completeTask` left it; otherwise the record is unchanged and the answer is the error text with the link |
| TaskMapping.StreakBonus | src/taskMapping.js:334-335 | the bonus adds exactly `streakCount * 100` points and changes no other field; with a streak that is not negative the points never drop |
| TaskMapping.UserRecord.CompleteTask | src/taskMapping.js:333 | the record becomes what `completeTask` makes of it for the given quest and task |
| TaskMapping.UserRecord.SelectIssue | src/taskMapping.js:207 | only the selected issue changes, to the issue given |
| TaskMapping.Lookup | src/taskMapping.js:391-418 | a handler found for a key is the handler written for that key |
| TaskMapping.RegistryShape | src/taskMapping.js:391-418 | the registry holds Q0 with T1 and Q1 to Q4 with T1 to T4, and nothing else |
| TaskMapping.RegistryKeysMatch | src/taskMapping.js:391-418 | every entry is the handler written for its own key |
| TaskMapping.LookupTotalOnQuestGraph | src/taskMapping.js:391-418 | lookup succeeds on exactly the seventeen keys, and an entry is a placeholder exactly when its quest is Q4 |
| TaskMapping.PureAnswer | src/taskMapping.js:362-388 | the Q4 placeholders always fail with the error text and the link; only the record-writing handlers and Q3T1 have no pure answer |
| TaskMapping.RunHandler | src/taskMapping.js:104-418 | dispatching a handler answers and changes the record as that handler does: a handler without writes of its own answers its pure answer and passes the record to `completeTask`, under its own key, exactly when it completes; Q0T1, Q2T2, Q3T1 and Q3T3 give their own outcomes |
| TaskMapping.FailuresCarryLink | src/taskMapping.js:133-329 | the failures of the count, Q1T3 and Q2T1 handlers, and the Q2T3 and Q3T2 failures other than a failed assignment, answer with the error text ending in the link; Q3T2 never completes without a pull request and comment |
| Commands.NameOf | index.js:118 | a word names a command exactly when it is one of the five names in the alternation |
| Commands.ParseCommandLine | index.js:118-122 | a parsed comment starts with `/` and the name of a command other than `new_hint`, and an argument, when there is one, is not empty |
| Commands.ParseSound | index.js:118-122 | every parsed command satisfies the grammar `^/(name)(\s+(.+))?$` |
| Commands.ParseComplete | index.js:118-122 | every comment the grammar accepts parses, with the same name and with an argument exactly when the grammar has one |
| Commands.ArgumentIsGreedy | index.js:118 | the argument never starts with white space, unless the text after the name is all white space and the argument is its last code point |
| Commands.SwitchAsWritten | index.js:130-197 | the `switch` throws exactly for `create_repos` without an argument, and then asks for nothing; otherwise it asks for one or two effects; `reset_repo` and `new_hint` both end by creating a hint and answer "Hint added" or "already exists" |
| Commands.NewHintUnreachable | index.js:172 | no comment parses as `new_hint` |
| Commands.ParseCommand | index.js:117-207 | the step-by-step `switch` with its mutable `response` gives the outcome of the grammar and the `switch` as written |
| Commands.NoEmptyReply | index.js:200-202 | a parsed command never posts an empty comment |
| Commands.InvalidCommandAnswered | index.js:204-206 | a comment outside the grammar is answered with `invalidCommand` and has no effect |
| Commands.NewUserOutcome | index.js:135-153 | a created user gets the welcome and the first quest; an existing user gets "already exists" and no quest |
| Commands.ParseCreateRepos | index.js:118-122 | `/create_repos <list>` parses with the list as its argument |
| Commands.CreateReposRoundTrip | index.js:131-133 | comma-joined trimmed user names after `/create_repos` create the repositories of exactly those users, in order |
| Commands.SplitTrimJoin | index.js:132 | splitting joined, trimmed parts on the separator and trimming each part gives the parts back |
| Commands.ResetAnswerOverwritten | index.js:163-193 | as written, `/reset_repo` also creates a hint and answers "Hint added" or "already exists", never the reset's own answer |
| Commands.IntendedResetAnswer | index.js:163-171 | with a `break`, `/reset_repo` resets, creates no hint and reports whether the reset succeeded; every other command is unchanged |
| Routing.RouteComment | index.js:46-103 | the tracked repository is ignored; a leading `/` (and only that) goes to the command path; a bot never reaches the test, validation or refusal paths; a test run needs the "test" command |
| Routing.OnlyBotsAreIgnored | index.js:54-86 | outside the tracked repository, a comment is dropped exactly when a bot wrote it and it is neither a command nor a hint request |
| Routing.TestCommandRoutes | index.js:73-76 | "test" in any case, padded with white space, starts a test run for a person |
| Routing.ValidationIsTheRest | index.js:84-86 | quest validation gets exactly a person's comments that are not a command, a hint request or "test" |
| Routing.MatchEndsComplete | index.js:269 | wherever the pattern matches, the greedy reading matches there with the same first number |
| Routing.MatchEndsSound | index.js:269 | the greedy reading is a match of the pattern, with its second number read to the end |
| Routing.ExtractQuestAndTask | index.js:267-280 | a result's quest starts with an upper-case `Q` and its task with an upper-case `T`, whatever the title's case |
| Routing.SearchFrom | index.js:270 | the position found is the first at which the pattern matches, and no position matches when none is found |
| Routing.ExtractIsLeftmostMatch | index.js:267-280 | a result is the two groups of a match, with upper-case prefixes, and no earlier position matches |
| Routing.ExtractFindsAnyMatch | index.js:267-280 | there is no result exactly when the pattern matches nowhere in the title |
| Routing.ExtractedPrefixesUpperCase | index.js:272-275 | the quest is "Q" and the task "T", each followed by digits, whatever the title's case |
| Routing.ExtractFromQuestTitle | index.js:267-280 | "Q<n> T<m>" followed by a non-digit gives back "Q<n>" and "T<m>" |
| Routing.FormatTestResults | index.js:399-421 | the appended `result` is the report: header, verdict line, then the Output and Error blocks of the trimmed texts when they are not empty |
| Routing.ReportOpensWithVerdict | index.js:400-406 | every report opens with the header naming quest and task, followed by the line for the verdict |
| Routing.PassAndFailDiffer | index.js:402-406 | a passing and a failing report never coincide |
| Routing.ReportIgnoresSurroundingSpace | index.js:408-418 | white space around the output and error texts does not change the report |
| Routing.BlankOutputIsNoOutput | index.js:408-412 | output that is only white space is reported like no output |
| Routing.RunTestFlow | index.js:427-482 | the comments posted: one note for a missing title, no quest in the title, or no test file; otherwise the running note followed by the report of the script's result |

## Left out

- Network, database and process I/O are inputs or are left out. This covers Octokit calls, mongoose, `spawn` with its streams, `readline` and `.env` writing in `checkOSSRepo`, and `process.exit`. The read-modify-write of the progress record across concurrent requests is not modelled.
- `runPythonScript` is not modelled. Its result (`success`, `output`, `error`, exit code) is an input, so the mapping from exit code to success is not part of the model.
- The `utils.*` queries, `gameFunction.*` and the database calls are opaque, and their answers are inputs. This covers `completeTask`, `giveHint`, `validateTask`, `createRepos`, `deleteRepo`, `resetReadme`, `closeIssues`, `createUser`, `wipeUser` and `createHint`.
- Only the throws the source catches are inputs: `validateAnswers` (it grades or throws), the `addAssignees` step of Q2T3 and Q3T2, `resetReadme`/`closeIssues` under `/reset_repo`, and the owner lookup of `isAdmin`.
- A throw from any other call is not modelled. That covers `getIssueCount`, `getPRCount`, `openIssues`, `isFirstAssignee`, `hasNonCodeContributionLabel`, `getIssueTitle`, `userCommentedInIssue`, `userPRAndComment`, `issueClosed`, `createRepos`, `deleteRepo`, `createUser`, `wipeUser` and `createHint`. In the source, a throw inside `parseCommand` gives no reply at all, since the command path (index.js:53-59) has no `try`; a throw inside a quest handler rejects `validateTask`, whose `catch` (index.js:93-100) most likely posts the misleading "commented but does not yet exist in database" reply. The model always answers with the handler's verdict instead.
- `completeTask` (src/gamification.js) is not part of this model. Its effect on the record is the input `Signals.completeTask`: any function of the record and the (quest, task) key. What it awards is therefore not stated.
- TaskMapping.HandleQ0T1 and TaskMapping.HandleQ2T2: the chosen preference and the selected issue survive only when `completeTask` keeps them (`ScoresOnly`). Without that, the model states only the record passed to `completeTask`.
- A throw inside `completeTask` is not modelled. In the quiz handlers the `catch` would then answer a failure after a partial award.
- The `issues.opened` handler (index.js:26-44) is not part of this model.
- Database failures on the help and validation paths are not modelled, nor is the "does not yet exist in database" reply. `RouteComment` only chooses the path.
- JsNumber.ToNumber: reads only the integral forms of `Number(...)` (optional sign, decimal digits, or a `0x`/`0o`/`0b` numeral). Fractions, exponents and `Infinity` become `None`, so a comment like "5.0" or "5e0" counts as unequal to a count of 5. Numerals are read exactly, as unbounded integers, while `Number` rounds beyond 2^53, so two long numerals that `Number` would round to the same double stay distinct. This affects TaskMapping.CountAnswer and TaskMapping.IssueNumber.
- Text.ToLower: lower-cases only ASCII letters, which decides no outcome differently from `toLowerCase`. The one non-ASCII code point that lowers to a single ASCII letter is U+212A KELVIN SIGN, which becomes `k`, and no lowered comment is compared with any text containing `k` (the letters a to d, "c", "done", "test", the maintainer's name, or a numeral). U+0130 lowers to `i` followed by U+0307. The only compared text containing `i` is the maintainer's name, and the extra code point already makes that equality fail, as it fails in the model. The other case mappings give non-ASCII results, which no compared text contains.
- TaskMapping.HandleQ2T2: the title check `issueTitle == user` is taken as string equality. The external `getIssueTitle` answer is an input.
- TaskMapping.HandleQ3T3: `streakCount` is an integer. An undefined or non-numeric streak, which would make the points `NaN`, is not modelled.
- FileSearch.Resolve: a `Special` entry, such as a symbolic link, on the way to `src/tests` ends the lookup. Directories on the way are passed through whether or not they can be listed, since only `src/tests` itself is listed. `readdirSync` would follow a link to a directory there. Links inside a listing are skipped, as in the source, because `isDirectory()` is false for them.
- FileSearch.FindTestFileFor: `path.join` normalisation is left out. Paths are joined with `/`, which makes the `startsWith(cwd)` test always true (FileSearch.FirstFoundIsUnderCwd).
- The `default` case of the command `switch` is not modelled. The grammar admits only the five names, so it cannot run.
- In `runTest`, the title is the one in the payload or the one fetched. Both are one input, and a failure of either fetch is not modelled.
- Routing.RunTestFlow: the catch-all "Error running test" reply is not modelled. Nothing it calls in the model throws.

## Findings

| source | as written | input that shows it | evidently intended | confidence | as-written member | corrected member |
|---|---|---|---|---|---|---|
| index.js:163-193 | the `reset_repo` case has no `break`, so it runs on into `new_hint`: it creates a hint from the repository name and replaces the reset's answer with "Hint added" or "Failed to create new user, user already exists" | the comment "/reset_repo demo" | `reset_repo` resets the repository and answers "repo reset successful" or "repo reset failed", with no hint created | high (not executed) | Commands.ResetAnswerOverwritten | Commands.IntendedResetAnswer |
