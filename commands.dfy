/** The administrator commands: the grammar `parseCommand` accepts, and what each command does
    and answers. The database and GitHub effects are recorded as actions; their outcomes
    (whether a user or hint was created, whether the reset threw, the texts that repository
    creation and deletion answer) are inputs. */
module Commands {
  import opened Wrappers
  import opened Text

  /** The command names of the `switch`; `NewHint` has a case but no way in through the grammar. */
  datatype CommandName = CreateRepos | NewUser | DelUser | DelRepo | ResetRepo | NewHint {
    function Text(): string {
      match this
      case CreateRepos => "create_repos"
      case NewUser => "new_user"
      case DelUser => "del_user"
      case DelRepo => "del_repo"
      case ResetRepo => "reset_repo"
      case NewHint => "new_hint"
    }
  }

  /** A recognised command: the name and, when present, the argument (`match[2]`, `match[4]`). */
  datatype Command = Command(name: CommandName, argument: Option<string>)

  predicate NoLineTerminator(s: string) {
    forall i :: 0 <= i < |s| ==> !IsLineTerminator(s[i])
  }

  // ---------------------------------------------------------------- grammar

  /** The grammar `^(\/(new_user|del_user|del_repo|reset_repo|create_repos))(\s+(.+))?$`, stated
      as the regular expression reads it: the comment is `/`, a name, and either nothing or at
      least one white-space code point followed by a non-empty argument without line terminators;
      `$` without the multiline flag only matches at the very end. */
  ghost predicate GrammarAccepts(comment: string, name: CommandName, argument: Option<string>) {
    name != NewHint
    && exists tail :: (comment == "/" + name.Text() + tail && ArgumentAccepts(tail, argument))
  }

  /** `(\s+(.+))?$` over the text after the name, for the given fourth group. */
  ghost predicate ArgumentAccepts(tail: string, argument: Option<string>) {
    match argument
    case None => tail == ""
    case Some(a) => exists w :: (tail == w + a && |w| >= 1 && AllSpace(w) && a != [] && NoLineTerminator(a))
  }

  /** A code point a command name can hold. */
  predicate IsNameChar(c: char) {
    !IsSpace(c)
  }

  lemma NameTextIsPlain(n: CommandName)
    ensures forall k :: 0 <= k < |n.Text()| ==> IsNameChar(n.Text()[k])
  {
  }

  /** The alternation `new_user|del_user|del_repo|reset_repo|create_repos`, as a whole word. */
  function NameOf(word: string): (r: Option<CommandName>)
    ensures r.Some? ==> r.value != NewHint && r.value.Text() == word
    ensures forall n :: n != NewHint && n.Text() == word ==> r == Some(n)
  {
    if word == "new_user" then Some(NewUser)
    else if word == "del_user" then Some(DelUser)
    else if word == "del_repo" then Some(DelRepo)
    else if word == "reset_repo" then Some(ResetRepo)
    else if word == "create_repos" then Some(CreateRepos)
    else None
  }

  /** The argument group of `(\s+(.+))?$` over the text after the name, with the greedy `\s+`
      giving back code points until `.+` can reach the end: `Some(None)` when the optional group
      is skipped, `None` when nothing matches at all. */
  function ArgumentOf(tail: string): Option<Option<string>> {
    if tail == [] then Some(None)
    else
      var m := Span(tail, 0, IsSpace);
      if m == 0 then None
      else if m < |tail| then
        if NoLineTerminator(tail[m..]) then Some(Some(tail[m..])) else None
      else if m >= 2 && !IsLineTerminator(tail[m - 1]) then Some(Some(tail[m - 1..]))
      else None
  }

  /** `comment.match(regex)` reduced to the two groups the handler reads. No name holds white
      space and each must be followed by white space or the end, so the name is the whole word
      after the slash. */
  function ParseCommandLine(comment: string): (r: Option<Command>)
    ensures r.Some? ==> r.value.name != NewHint && StartsWith(comment, "/" + r.value.name.Text())
    ensures r.Some? && r.value.argument.Some? ==> r.value.argument.value != []
  {
    if comment == [] || comment[0] != '/' then None
    else
      var k := Span(comment, 1, IsNameChar);
      match NameOf(comment[1..1 + k])
      case None => None
      case Some(name) =>
        match ArgumentOf(comment[1 + k..])
        case None => None
        case Some(argument) =>
          assert comment[..1 + k] == "/" + comment[1..1 + k];
          Some(Command(name, argument))
  }

  /** The argument found satisfies `(\s+(.+))?$`. */
  lemma ArgumentSound(tail: string)
    requires ArgumentOf(tail).Some?
    ensures ArgumentAccepts(tail, ArgumentOf(tail).value)
  {
    if tail != [] {
      var m := Span(tail, 0, IsSpace);
      SpanStops(tail, 0, IsSpace);
      var k := if m < |tail| then m else m - 1;
      var w, a := tail[..k], tail[k..];
      assert tail == w + a;
      assert AllSpace(w) by {
        forall i | 0 <= i < |w| ensures IsSpace(w[i]) {
          assert w[i] == tail[i];
        }
      }
      assert ArgumentOf(tail).value == Some(a);
      if m == |tail| {
        assert a == [tail[m - 1]];
      }
      assert NoLineTerminator(a);
    }
  }

  /** The parse only accepts what the grammar accepts. */
  lemma ParseSound(comment: string)
    requires ParseCommandLine(comment).Some?
    ensures GrammarAccepts(comment, ParseCommandLine(comment).value.name, ParseCommandLine(comment).value.argument)
  {
    var cmd := ParseCommandLine(comment).value;
    var tail := ParsedParts(comment);
    ArgumentSound(tail);
    GrammarFromParts(comment, cmd.name, tail, cmd.argument);
  }

  /** A parsed comment is `/`, the name, and the text its argument was read from. */
  lemma ParsedParts(comment: string) returns (tail: string)
    requires ParseCommandLine(comment).Some?
    ensures comment == "/" + ParseCommandLine(comment).value.name.Text() + tail
    ensures ArgumentOf(tail).Some? && ParseCommandLine(comment).value.argument == ArgumentOf(tail).value
  {
    var k := Span(comment, 1, IsNameChar);
    tail := comment[1 + k..];
    assert comment[..1] == "/";
    assert comment == comment[..1] + comment[1..1 + k] + comment[1 + k..];
  }

  lemma GrammarFromParts(comment: string, name: CommandName, tail: string, argument: Option<string>)
    requires name != NewHint && comment == "/" + name.Text() + tail && ArgumentAccepts(tail, argument)
    ensures GrammarAccepts(comment, name, argument)
  {
  }

  /** Whatever the grammar accepts, the parse accepts, with the same name and with an argument
      exactly when the grammar has one. */
  lemma ParseComplete(comment: string, name: CommandName, argument: Option<string>)
    requires GrammarAccepts(comment, name, argument)
    ensures ParseCommandLine(comment).Some?
    ensures ParseCommandLine(comment).value.name == name
    ensures ParseCommandLine(comment).value.argument.Some? == argument.Some?
  {
    var tail :| comment == "/" + name.Text() + tail && ArgumentAccepts(tail, argument);
    if argument.Some? {
      var a := argument.value;
      var w :| tail == w + a && |w| >= 1 && AllSpace(w) && a != [] && NoLineTerminator(a);
      assert tail[0] == w[0];
      WordAfterSlash(comment, name, tail);
      ArgumentFound(tail, w, a);
    } else {
      WordAfterSlash(comment, name, tail);
    }
  }

  /** After the slash, the name is the whole word when white space or the end follows it. */
  lemma WordAfterSlash(comment: string, name: CommandName, tail: string)
    requires name != NewHint
    requires comment == "/" + name.Text() + tail
    requires tail == [] || IsSpace(tail[0])
    ensures comment != [] && comment[0] == '/'
    ensures Span(comment, 1, IsNameChar) == |name.Text()|
    ensures comment[1..1 + |name.Text()|] == name.Text()
    ensures comment[1 + |name.Text()|..] == tail
    ensures NameOf(name.Text()) == Some(name)
  {
    var text := name.Text();
    var n := |text|;
    NameTextIsPlain(name);
    assert forall k :: 1 <= k < 1 + n ==> comment[k] == text[k - 1];
    assert 1 + n == |comment| || comment[1 + n] == tail[0];
    SpanIs(comment, 1, IsNameChar, n);
    assert comment[1..1 + n] == text;
    assert comment[1 + n..] == tail;
  }

  /** A tail that is white space followed by an argument without line terminators yields an
      argument. */
  lemma ArgumentFound(tail: string, w: string, a: string)
    requires tail == w + a && |w| >= 1 && AllSpace(w) && a != [] && NoLineTerminator(a)
    ensures ArgumentOf(tail).Some? && ArgumentOf(tail).value.Some?
  {
    var m := Span(tail, 0, IsSpace);
    SpanStops(tail, 0, IsSpace);
    assert forall i :: 0 <= i < |w| ==> IsSpace(tail[i]);
    if m < |tail| {
      assert tail[m..] == a[m - |w|..];
      assert forall i :: 0 <= i < |tail[m..]| ==> tail[m..][i] == a[m - |w| + i];
    } else {
      assert tail[m - 1] == a[|a| - 1];
    }
  }

  /** The greedy `\s+` leaves no white space at the head of the argument, unless the text after
      the name is all white space and the argument is its last code point. */
  lemma ArgumentIsGreedy(tail: string)
    requires ArgumentOf(tail).Some? && ArgumentOf(tail).value.Some?
    ensures var a := ArgumentOf(tail).value.value;
      a != [] && (!IsSpace(a[0]) || (|a| == 1 && AllSpace(tail) && a == tail[|tail| - 1..]))
  {
    SpanStops(tail, 0, IsSpace);
  }

  /** `new_hint` is in the `switch` but never parsed, so it cannot run on its own. */
  lemma NewHintUnreachable(comment: string)
    ensures ParseCommandLine(comment).Some? ==> ParseCommandLine(comment).value.name != NewHint
  {
  }

  // ---------------------------------------------------------------- effects

  /** An effect the command asks of the database or of GitHub. */
  datatype Action =
    | CreateUserRecord(user: Option<string>)       // db.createUser
    | AcceptFirstQuest(user: Option<string>)       // acceptQuest "Q0", README update, save
    | WipeUser(user: Option<string>)               // db.wipeUser
    | DeleteRepository(repo: Option<string>)       // gameFunction.deleteRepo
    | ResetRepository(repo: Option<string>)        // resetReadme then closeIssues
    | CreateRepositories(users: seq<string>)       // gameFunction.createRepos
    | CreateHint(hint: Option<string>)             // db.createHint

  /** The answers of the effects, for this command. */
  datatype Effects = Effects(
    createReposReply: string,   // what gameFunction.createRepos returns
    userCreated: bool,          // what db.createUser returns
    deleteRepoReply: string,    // what gameFunction.deleteRepo returns
    resetSucceeds: bool,        // resetReadme and closeIssues both return
    hintCreated: bool)          // what db.createHint returns

  /** The configured texts `responses.newUserResponse` and `responses.invalidCommand`. */
  datatype BotTexts = BotTexts(newUserResponse: string, invalidCommand: string)

  /** What a command comment leads to: the comment posted back, if any, and the effects asked for. */
  datatype CommandOutcome = CommandOutcome(reply: Option<string>, actions: seq<Action>)

  const UserExists: string := "Failed to create new user, user already exists"
  const WipeDone: string := "user wipe complete"
  const ResetDone: string := "repo reset successful"
  const ResetFailed: string := "repo reset failed"
  const HintAdded: string := "Hint added"

  /** The state the `switch` leaves: `response`, the effects, and whether it threw. */
  datatype SwitchState = SwitchState(response: string, actions: seq<Action>, threw: bool)

  /** The `new_hint` case, entered with `response` and the effects so far. */
  function HintCase(argument: Option<string>, fx: Effects, actions: seq<Action>): SwitchState {
    SwitchState(if fx.hintCreated then HintAdded else UserExists, actions + [CreateHint(argument)], false)
  }

  /** The `switch` as written: `reset_repo` has no `break` and runs on into `new_hint`, and
      `create_repos` without an argument throws on `argument.split`. */
  function SwitchAsWritten(cmd: Command, fx: Effects, texts: BotTexts): (st: SwitchState)
    ensures st.threw <==> cmd.name == CreateRepos && cmd.argument.None?
    ensures st.threw ==> st.actions == []
    ensures !st.threw ==> st.actions != [] && |st.actions| <= 2
    ensures cmd.name == ResetRepo || cmd.name == NewHint ==>
      (st.response == HintAdded || st.response == UserExists)
      && st.actions[|st.actions| - 1] == CreateHint(cmd.argument)
  {
    var arg := cmd.argument;
    match cmd.name
    case CreateRepos =>
      if arg.None? then SwitchState("", [], true)
      else
        var users := SplitTrim(arg.value, ',');
        SwitchState(fx.createReposReply, [CreateRepositories(users)], false)
    case NewUser =>
      if fx.userCreated then SwitchState(texts.newUserResponse, [CreateUserRecord(arg), AcceptFirstQuest(arg)], false)
      else SwitchState(UserExists, [CreateUserRecord(arg)], false)
    case DelUser => SwitchState(WipeDone, [WipeUser(arg)], false)
    case DelRepo => SwitchState(fx.deleteRepoReply, [DeleteRepository(arg)], false)
    case ResetRepo =>
      // the reset's own answer is set here and overwritten by the `new_hint` case below
      HintCase(arg, fx, [ResetRepository(arg)])
    case NewHint => HintCase(arg, fx, [])
  }

  /** The whole of `parseCommand` for one comment: a comment outside the grammar is answered with
      `invalidCommand`; otherwise the `switch` runs and its `response` is posted when non-empty
      (and nothing is posted when the `switch` threw). */
  function OutcomeOf(comment: string, fx: Effects, texts: BotTexts): CommandOutcome {
    OutcomeFor(ParseCommandLine(comment), fx, texts)
  }

  /** The outcome for a parse result. */
  function OutcomeFor(parsed: Option<Command>, fx: Effects, texts: BotTexts): CommandOutcome {
    match parsed
    case None => CommandOutcome(Some(texts.invalidCommand), [])
    case Some(cmd) =>
      var st := SwitchAsWritten(cmd, fx, texts);
      CommandOutcome(if st.threw || st.response == "" then None else Some(st.response), st.actions)
  }

  /** `parseCommand`, step by step over its mutable `response`, with the `switch` fall-through
      from `reset_repo` into `new_hint` kept as a flag. */
  method ParseCommand(comment: string, fx: Effects, texts: BotTexts) returns (out: CommandOutcome)
    ensures out == OutcomeOf(comment, fx, texts)
  {
    var parsed := ParseCommandLine(comment);
    if parsed.Some? {
      var command := parsed.value.name;
      var argument := parsed.value.argument;
      var response := "";
      var status := false;
      var actions: seq<Action> := [];
      var fallsIntoHint := false;
      match command {
      case CreateRepos =>
        if argument.None? {
          // `argument.split` on undefined throws before anything is posted
          return CommandOutcome(None, []);
        }
        var users := SplitTrim(argument.value, ',');
        actions := actions + [CreateRepositories(users)];
        response := fx.createReposReply;
      case NewUser =>
        status := fx.userCreated;
        actions := actions + [CreateUserRecord(argument)];
        if status {
          response := texts.newUserResponse;
          actions := actions + [AcceptFirstQuest(argument)];
        } else {
          response := UserExists;
        }
      case DelUser =>
        actions := actions + [WipeUser(argument)];
        response := WipeDone;
      case DelRepo =>
        actions := actions + [DeleteRepository(argument)];
        response := fx.deleteRepoReply;
      case ResetRepo =>
        actions := actions + [ResetRepository(argument)];
        if fx.resetSucceeds {
          response := ResetDone;
        } else {
          response := ResetFailed;
        }
        fallsIntoHint := true;
      case NewHint =>
        fallsIntoHint := true;
      }
      if fallsIntoHint {
        status := fx.hintCreated;
        actions := actions + [CreateHint(argument)];
        if status {
          response := HintAdded;
        } else {
          response := UserExists;
        }
      }
      if response != "" {
        return CommandOutcome(Some(response), actions);
      }
      return CommandOutcome(None, actions);
    }
    return CommandOutcome(Some(texts.invalidCommand), []);
  }

  /** A command comment that parses never leads to an empty comment being posted. */
  lemma NoEmptyReply(comment: string, fx: Effects, texts: BotTexts)
    requires ParseCommandLine(comment).Some?
    ensures OutcomeOf(comment, fx, texts).reply != Some("")
  {
  }

  /** A comment outside the grammar is answered with `invalidCommand` and changes nothing. */
  lemma InvalidCommandAnswered(comment: string, fx: Effects, texts: BotTexts)
    requires forall name, argument :: !GrammarAccepts(comment, name, argument)
    ensures OutcomeOf(comment, fx, texts) == CommandOutcome(Some(texts.invalidCommand), [])
  {
    if ParseCommandLine(comment).Some? {
      ParseSound(comment);
    }
  }

  /** `new_user`: a created user gets the configured welcome and the first quest; an existing
      one gets the "already exists" answer and no quest. */
  lemma NewUserOutcome(comment: string, fx: Effects, texts: BotTexts)
    requires ParseCommandLine(comment).Some? && ParseCommandLine(comment).value.name == NewUser
    ensures var arg := ParseCommandLine(comment).value.argument;
      var out := OutcomeOf(comment, fx, texts);
      if fx.userCreated then
        out.actions == [CreateUserRecord(arg), AcceptFirstQuest(arg)]
        && out.reply == (if texts.newUserResponse == "" then None else Some(texts.newUserResponse))
      else
        out.actions == [CreateUserRecord(arg)] && out.reply == Some(UserExists)
  {
  }

  // ---------------------------------------------------------------- create_repos

  lemma {:induction false} JoinNoLineTerminator(parts: seq<string>, sep: char)
    requires !IsLineTerminator(sep)
    requires forall i :: 0 <= i < |parts| ==> NoLineTerminator(parts[i])
    ensures NoLineTerminator(Join(parts, sep))
  {
    if |parts| > 1 {
      JoinNoLineTerminator(parts[1..], sep);
    }
  }

  /** `/create_repos ` followed by a text without line terminators that starts with a
      non-space code point parses with that text as the argument. */
  lemma ParseCreateRepos(list: string)
    requires list != [] && !IsSpace(list[0]) && NoLineTerminator(list)
    ensures ParseCommandLine("/create_repos " + list) == Some(Command(CreateRepos, Some(list)))
  {
    var comment := "/create_repos " + list;
    var tail := " " + list;
    assert comment == "/" + CreateRepos.Text() + tail;
    WordAfterSlash(comment, CreateRepos, tail);
    SpanIs(tail, 0, IsSpace, 1);
    assert tail[1..] == list;
  }

  /** Trimmed user names without commas or line terminators, joined by commas, make the
      argument of `/create_repos `. */
  lemma {:induction false} ParseUserList(users: seq<string>)
    requires |users| >= 1 && users[0] != []
    requires forall i :: 0 <= i < |users| ==> ',' !in users[i] && NoLineTerminator(users[i]) && Trim(users[i]) == users[i]
    ensures ParseCommandLine("/create_repos " + Join(users, ',')) == Some(Command(CreateRepos, Some(Join(users, ','))))
  {
    JoinHead(users, ',');
    assert !IsSpace(users[0][0]) by {
      assert Trim(users[0]) == users[0];
    }
    JoinNoLineTerminator(users, ',');
    ParseCreateRepos(Join(users, ','));
  }

  /** Listing user names separated by commas after `/create_repos ` asks for the repositories of
      exactly those users, in that order. */
  lemma {:induction false} CreateReposRoundTrip(users: seq<string>, fx: Effects, texts: BotTexts)
    requires |users| >= 1 && users[0] != []
    requires forall i :: 0 <= i < |users| ==> ',' !in users[i] && NoLineTerminator(users[i]) && Trim(users[i]) == users[i]
    ensures OutcomeOf("/create_repos " + Join(users, ','), fx, texts).actions == [CreateRepositories(users)]
  {
    ParseUserList(users);
    ListActions(Join(users, ','), fx, texts);
    SplitTrimJoin(users, ',');
  }

  /** A parsed `/create_repos` list asks for the repositories of its trimmed comma-separated
      parts. */
  lemma ListActions(list: string, fx: Effects, texts: BotTexts)
    requires ParseCommandLine("/create_repos " + list) == Some(Command(CreateRepos, Some(list)))
    ensures OutcomeOf("/create_repos " + list, fx, texts).actions == [CreateRepositories(SplitTrim(list, ','))]
  {
  }

  /** Splitting joined, already trimmed parts and trimming each gives the parts back. */
  lemma {:induction false} SplitTrimJoin(parts: seq<string>, sep: char)
    requires |parts| >= 1
    requires forall i :: 0 <= i < |parts| ==> sep !in parts[i] && Trim(parts[i]) == parts[i]
    ensures SplitTrim(Join(parts, sep), sep) == parts
  {
    SplitJoin(parts, sep);
  }

  lemma {:induction false} JoinHead(parts: seq<string>, sep: char)
    requires |parts| >= 1 && parts[0] != []
    ensures Join(parts, sep) != [] && Join(parts, sep)[0] == parts[0][0]
  {
    if |parts| > 1 {
      assert Join(parts, sep) == parts[0] + [sep] + Join(parts[1..], sep);
    }
  }

  // ---------------------------------------------------------------- reset_repo

  /** As written, the reset's own answer never reaches the administrator: `/reset_repo <repo>`
      also runs the `new_hint` case, asks the database for a hint, and answers "Hint added" or
      the "user already exists" text instead. */
  lemma ResetAnswerOverwritten(comment: string, fx: Effects, texts: BotTexts)
    requires ParseCommandLine(comment).Some? && ParseCommandLine(comment).value.name == ResetRepo
    ensures var arg := ParseCommandLine(comment).value.argument;
      var out := OutcomeOf(comment, fx, texts);
      out.reply != Some(ResetDone) && out.reply != Some(ResetFailed)
      && out.reply == Some(if fx.hintCreated then HintAdded else UserExists)
      && out.actions == [ResetRepository(arg), CreateHint(arg)]
  {
  }

  /** The `switch` with a `break` closing the `reset_repo` case. */
  function SwitchIntended(cmd: Command, fx: Effects, texts: BotTexts): SwitchState {
    if cmd.name == ResetRepo then
      SwitchState(if fx.resetSucceeds then ResetDone else ResetFailed, [ResetRepository(cmd.argument)], false)
    else SwitchAsWritten(cmd, fx, texts)
  }

  /** `parseCommand` with the `reset_repo` case closed by a `break`. */
  function IntendedOutcomeOf(comment: string, fx: Effects, texts: BotTexts): CommandOutcome {
    match ParseCommandLine(comment)
    case None => CommandOutcome(Some(texts.invalidCommand), [])
    case Some(cmd) =>
      var st := SwitchIntended(cmd, fx, texts);
      CommandOutcome(if st.threw || st.response == "" then None else Some(st.response), st.actions)
  }

  /** With the `break`, `/reset_repo <repo>` resets the repository, creates no hint, and reports
      whether the reset succeeded; every other command behaves as written. */
  lemma IntendedResetAnswer(comment: string, fx: Effects, texts: BotTexts)
    ensures ParseCommandLine(comment).Some? && ParseCommandLine(comment).value.name == ResetRepo ==>
      var arg := ParseCommandLine(comment).value.argument;
      IntendedOutcomeOf(comment, fx, texts)
        == CommandOutcome(Some(if fx.resetSucceeds then ResetDone else ResetFailed), [ResetRepository(arg)])
    ensures ParseCommandLine(comment).None? || ParseCommandLine(comment).value.name != ResetRepo ==>
      IntendedOutcomeOf(comment, fx, texts) == OutcomeOf(comment, fx, texts)
  {
  }
}
