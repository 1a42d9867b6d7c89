/** The stock `help` command: with no argument it lists every command with a
    usable/unusable marker and its required level, with one argument it
    shows the details of the named global command, and otherwise it fails.
    The reply is returned instead of being sent. */
module Help {
  import opened Wrappers
  import opened Decimal
  import opened Strings
  import opened Commands
  import Permissions

  /** `CommandException(this, message)` raised by the help command. */
  datatype CommandException = CommandException(command: string, message: string)

  const HelpName: string := "help"

  /** `Syntax`: the command's name followed by its optional argument. */
  function Syntax(): (s: string)
    ensures s == "help [commandName]"
  {
    HelpName + " [commandName]"
  }

  /** `RequiredPermissionLevel`: ordinary users may ask for help. */
  const RequiredPermissionLevel: Byte := Permissions.PermissionLevelStandardUser

  /** The help command itself as a command value; its description text is a parameter. */
  function HelpCommand(description: string): (c: Command)
    ensures c.name == "help" && c.syntax == "help [commandName]" && c.requiredPermissionLevel == 2
  {
    Command(HelpName, description, Syntax(), RequiredPermissionLevel)
  }

  const ListingIntro: string :=
    "Commands in yellow with a `+` before them are commands you can use. Commands in red with a `-` before them are commands you cannot use. "
    + "\nSay **`>> help command_name_here`** to get more documentation on a specific command. Say **`>> help help`** to get information on how commands work."
    + "```diff\n"

  const ContextSectionHeader: string := "\nCommands specific to this server:\n\n"

  const ListingEnd: string := "```\n"

  /** The column at which the requirement text starts after a two-character prefix. */
  const NameColumnWidth: int := 34

  const InvalidArgCountMessage: string :=
    "Invalid argument count. Expected no arguments, or one argument which is the name of the command you wish to get details on."

  function NotFoundMessage(name: string): string {
    "Command `" + name + "` does not exist."
  }

  /** The marker before a command name; `nullPrefix` is used when there is no member. */
  function UsagePrefix(cmd: Command, member: Option<XanBotMember>, nullPrefix: string): string {
    match member
    case None => nullPrefix
    case Some(m) => if CanUseCommand(cmd, m) then "+ " else "- "
  }

  /** The number of spaces after a name: the column width less the name and a
      two-character prefix, and none when that is negative. */
  function PaddingWidth(name: string): nat {
    if NameColumnWidth - (|name| + 2) > 0 then NameColumnWidth - (|name| + 2) else 0
  }

  function RequirementText(level: Byte): string {
    "Requires Permission Level " + NatToString(level) + " (or higher)."
  }

  /** One listing line. */
  function CommandLine(cmd: Command, member: Option<XanBotMember>, nullPrefix: string): string {
    UsagePrefix(cmd, member, nullPrefix) + cmd.name + Spaces(PaddingWidth(cmd.name))
      + RequirementText(cmd.requiredPermissionLevel) + "\n"
  }

  /** The strings of `parts` joined in order. */
  function Concat(parts: seq<string>): string
    decreases |parts|
  {
    if parts == [] then "" else Concat(parts[..|parts| - 1]) + parts[|parts| - 1]
  }

  /** The line of each command, position by position. */
  function CommandLineList(cmds: seq<Command>, member: Option<XanBotMember>, nullPrefix: string): seq<string> {
    seq(|cmds|, i requires 0 <= i < |cmds| => CommandLine(cmds[i], member, nullPrefix))
  }

  /** The listing lines of `cmds`, in list order. */
  function CommandLines(cmds: seq<Command>, member: Option<XanBotMember>, nullPrefix: string): string {
    Concat(CommandLineList(cmds, member, nullPrefix))
  }

  /** The reply to `help` with no argument. */
  function Listing(globalCmds: seq<Command>, contextCmds: seq<Command>, member: Option<XanBotMember>): (text: string)
    ensures |ListingIntro| + |ListingEnd| <= |text|
    ensures text[..|ListingIntro|] == ListingIntro
    ensures text[|text| - |ListingEnd|..] == ListingEnd
  {
    var lines := CommandLines(globalCmds, member, "+ ");
    var section := if |contextCmds| > 0 then ContextSectionHeader + CommandLines(contextCmds, member, "+") else "";
    Framed(ListingIntro, lines, section, ListingEnd);
    ListingIntro + lines + section + ListingEnd
  }

  /** The name comparison of the lookup: equal after folding case. */
  predicate NameMatches(cmd: Command, name: string) {
    ToLower(cmd.name) == ToLower(name)
  }

  /** The first index at or after `from` whose command matches `name`. */
  function FindCommandFrom(cmds: seq<Command>, name: string, from: nat): (r: Option<nat>)
    requires from <= |cmds|
    ensures r.Some? ==>
      (from <= r.value < |cmds| && NameMatches(cmds[r.value], name)
       && forall j | from <= j < r.value :: !NameMatches(cmds[j], name))
    ensures r.None? ==> forall j | from <= j < |cmds| :: !NameMatches(cmds[j], name)
    decreases |cmds| - from
  {
    if from == |cmds| then None
    else if NameMatches(cmds[from], name) then Some(from)
    else FindCommandFrom(cmds, name, from + 1)
  }

  /** The lookup of `help <name>`: the first command whose name matches. */
  function FindCommand(cmds: seq<Command>, name: string): Option<nat> {
    FindCommandFrom(cmds, name, 0)
  }

  /** The backtick-delimited usage: the closing backtick is left out when the
      syntax already holds an odd number of them. */
  function UsageSegment(syntax: string): string {
    "`" + syntax + (if CountChar(syntax, '`') % 2 != 0 then "" else "`")
  }

  /** The reply to `help <name>` for the command found. */
  function Details(cmd: Command): (text: string)
    ensures var head := "**Command:** `" + cmd.name + "` \n";
      |head| + |UsageSegment(cmd.syntax)| <= |text| && text[..|head|] == head
    ensures text[|text| - |UsageSegment(cmd.syntax)|..] == UsageSegment(cmd.syntax)
  {
    Framed("**Command:** `" + cmd.name + "` \n", cmd.description, "\n\n**Usage:** ", UsageSegment(cmd.syntax));
    DetailsHead(cmd) + "\n\n**Usage:** " + UsageSegment(cmd.syntax)
  }

  function DetailsHead(cmd: Command): string {
    "**Command:** `" + cmd.name + "` \n" + cmd.description
  }

  /** What the help command replies with, or the exception it raises. */
  function HelpResponse(globalCmds: seq<Command>, contextCmds: seq<Command>, member: Option<XanBotMember>, args: seq<string>)
    : (r: Result<string, CommandException>)
    ensures |args| == 0 ==> r.Success?
    ensures |args| == 1 ==> (r.Failure? <==> FindCommand(globalCmds, args[0]).None?)
    ensures |args| == 1 && r.Success? ==> r.value == Details(globalCmds[FindCommand(globalCmds, args[0]).value])
    ensures r.Failure? ==> r.error.command == HelpName && |args| >= 1
  {
    if |args| == 0 then Success(Listing(globalCmds, contextCmds, member))
    else if |args| == 1 then
      match FindCommand(globalCmds, args[0])
      case Some(i) => Success(Details(globalCmds[i]))
      case None => Failure(CommandException(HelpName, NotFoundMessage(args[0])))
    else Failure(CommandException(HelpName, InvalidArgCountMessage))
  }

  /** `ExecuteCommand` of the help command, given `CommandMarshaller.Commands`
      and the context's specific commands; returns the reply text. */
  method ExecuteCommand(commands: seq<Command>, contextSpecificCommands: seq<Command>,
                        executingMember: Option<XanBotMember>, args: seq<string>)
    returns (response: Result<string, CommandException>)
    ensures response == HelpResponse(commands, contextSpecificCommands, executingMember, args)
  {
    if |args| == 0 {
      var text := "Commands in yellow with a `+` before them are commands you can use. Commands in red with a `-` before them are commands you cannot use. ";
      text := text + "\nSay **`>> help command_name_here`** to get more documentation on a specific command. Say **`>> help help`** to get information on how commands work.";
      text := text + "```diff\n";
      text := AppendCommandLines(text, commands, executingMember, "+ ");
      ghost var head := text;
      if |contextSpecificCommands| > 0 {
        text := text + "\nCommands specific to this server:\n\n";
        text := AppendCommandLines(text, contextSpecificCommands, executingMember, "+");
        Assoc(head, ContextSectionHeader, CommandLines(contextSpecificCommands, executingMember, "+"));
      } else {
        assert head + "" == head;
      }
      text := text + "```\n";
      return Success(text);
    } else if |args| == 1 {
      var command := args[0];
      for k := 0 to |commands|
        invariant FindCommand(commands, command) == FindCommandFrom(commands, command, k)
      {
        var cmd := commands[k];
        if ToLower(cmd.name) == ToLower(command) {
          var locatedGraves := 0;
          var chars := cmd.syntax;
          for i := 0 to |chars|
            invariant locatedGraves == CountChar(chars[..i], '`')
          {
            assert chars[..i + 1][..i] == chars[..i];
            if chars[i] == '`' {
              locatedGraves := locatedGraves + 1;
            }
          }
          assert chars[..|chars|] == chars;
          var text;
          UsageJoin(DetailsHead(cmd), cmd.syntax, if locatedGraves % 2 != 0 then "" else "`");
          if locatedGraves % 2 != 0 {
            text := "**Command:** `" + cmd.name + "` \n" + cmd.description + "\n\n**Usage:** `" + cmd.syntax;
          } else {
            text := "**Command:** `" + cmd.name + "` \n" + cmd.description + "\n\n**Usage:** `" + cmd.syntax + "`";
          }
          return Success(text);
        }
      }
      return Failure(CommandException(HelpName, "Command `" + command + "` does not exist."));
    } else {
      return Failure(CommandException(HelpName, InvalidArgCountMessage));
    }
  }

  lemma UsageJoin(head: string, syntax: string, closing: string)
    ensures head + "\n\n**Usage:** `" + syntax + closing == head + "\n\n**Usage:** " + ("`" + syntax + closing)
    ensures head + "\n\n**Usage:** `" + syntax == head + "\n\n**Usage:** " + ("`" + syntax + "")
  {
    assert "\n\n**Usage:** `" == "\n\n**Usage:** " + "`";
  }

  /** One `foreach` over a command list of the listing: appends each
      command's line to `text0`. */
  method AppendCommandLines(text0: string, cmds: seq<Command>, member: Option<XanBotMember>, nullPrefix: string)
    returns (text: string)
    ensures text == text0 + CommandLines(cmds, member, nullPrefix)
  {
    text := text0;
    for k := 0 to |cmds|
      invariant text == text0 + CommandLines(cmds[..k], member, nullPrefix)
    {
      text := AppendCommandLine(text, cmds[k], member, nullPrefix);
      CommandLinesSnoc(cmds, k, member, nullPrefix);
      Assoc(text0, CommandLines(cmds[..k], member, nullPrefix), CommandLine(cmds[k], member, nullPrefix));
    }
    assert cmds[..|cmds|] == cmds;
  }

  /** The body of that `foreach`: appends the marker and name, pads with
      spaces up to the requirement column, and appends the requirement. */
  method AppendCommandLine(start: string, cmd: Command, member: Option<XanBotMember>, nullPrefix: string)
    returns (text: string)
    ensures text == start + CommandLine(cmd, member, nullPrefix)
  {
    var spaces := NameColumnWidth;
    var usagePrefix := nullPrefix;
    if member.Some? {
      usagePrefix := if CanUseCommand(cmd, member.value) then "+ " else "- ";
    }
    text := start + (usagePrefix + cmd.name);
    spaces := spaces - (|cmd.name| + 2);
    var i := 0;
    while i < spaces
      invariant 0 <= i <= PaddingWidth(cmd.name)
      invariant text == start + (usagePrefix + cmd.name) + Spaces(i)
    {
      Assoc(start + (usagePrefix + cmd.name), Spaces(i), " ");
      text := text + " ";
      i := i + 1;
    }
    var requirement := "Requires Permission Level " + NatToString(cmd.requiredPermissionLevel) + " (or higher).";
    text := text + requirement;
    text := text + "\n";
    assert usagePrefix == UsagePrefix(cmd, member, nullPrefix);
    assert i == PaddingWidth(cmd.name);
    assert requirement == RequirementText(cmd.requiredPermissionLevel);
    LineAssoc(start, usagePrefix + cmd.name, Spaces(i), requirement, "\n");
  }

  lemma Assoc(a: string, b: string, c: string)
    ensures a + b + c == a + (b + c)
  {
  }

  lemma LineAssoc(s: string, a: string, b: string, c: string, d: string)
    ensures s + a + b + c + d == s + (a + b + c + d)
  {
  }

  /** Joining two lists of parts joins their results. */
  lemma {:induction false} ConcatAppend(a: seq<string>, b: seq<string>)
    ensures Concat(a + b) == Concat(a) + Concat(b)
    decreases |b|
  {
    if b == [] {
      assert a + b == a;
    } else {
      var b' := b[..|b| - 1];
      assert (a + b)[..|a + b| - 1] == a + b';
      assert (a + b)[|a + b| - 1] == b[|b| - 1];
      ConcatAppend(a, b');
      Assoc(Concat(a), Concat(b'), b[|b| - 1]);
    }
  }

  /** The lines of a prefix one command longer end with that command's line. */
  lemma CommandLinesSnoc(cmds: seq<Command>, k: nat, member: Option<XanBotMember>, nullPrefix: string)
    requires k < |cmds|
    ensures CommandLines(cmds[..k + 1], member, nullPrefix)
      == CommandLines(cmds[..k], member, nullPrefix) + CommandLine(cmds[k], member, nullPrefix)
  {
    var lines := CommandLineList(cmds[..k + 1], member, nullPrefix);
    assert lines[..k] == CommandLineList(cmds[..k], member, nullPrefix);
  }

  /** With a two-character prefix, a name of at most 32 characters is padded
      so the requirement text starts at column 34; a longer name gets no
      padding. The context section's one-character default shifts it to 33. */
  lemma PaddedNameWidth(cmd: Command, member: Option<XanBotMember>)
    ensures |cmd.name| <= 32 ==> |UsagePrefix(cmd, member, "+ ") + cmd.name + Spaces(PaddingWidth(cmd.name))| == 34
    ensures |cmd.name| <= 32 && member.None? ==> |UsagePrefix(cmd, member, "+") + cmd.name + Spaces(PaddingWidth(cmd.name))| == 33
    ensures |cmd.name| >= 32 ==> PaddingWidth(cmd.name) == 0
  {
  }

  /** In the global section the marker is "+ " for no member or a member who
      can use the command, and "- " otherwise; in the context section no
      member gets "+". */
  lemma UsagePrefixChoice(cmd: Command, member: Option<XanBotMember>)
    ensures UsagePrefix(cmd, member, "+ ") == (if member.None? || CanUseCommand(cmd, member.value) then "+ " else "- ")
    ensures member.None? ==> UsagePrefix(cmd, member, "+") == "+"
  {
  }

  /** The lines of two lists are the lines of each, in order. */
  lemma CommandLinesAppend(a: seq<Command>, b: seq<Command>, member: Option<XanBotMember>, nullPrefix: string)
    ensures CommandLines(a + b, member, nullPrefix) == CommandLines(a, member, nullPrefix) + CommandLines(b, member, nullPrefix)
  {
    assert CommandLineList(a + b, member, nullPrefix)
      == CommandLineList(a, member, nullPrefix) + CommandLineList(b, member, nullPrefix);
    ConcatAppend(CommandLineList(a, member, nullPrefix), CommandLineList(b, member, nullPrefix));
  }

  /** Command `i`'s line stands between the lines of the commands before it
      and those after it, and ends with its required level. */
  lemma CommandLinesAt(cmds: seq<Command>, i: nat, member: Option<XanBotMember>, nullPrefix: string)
    requires i < |cmds|
    ensures CommandLines(cmds, member, nullPrefix)
      == CommandLines(cmds[..i], member, nullPrefix) + CommandLine(cmds[i], member, nullPrefix) + CommandLines(cmds[i + 1..], member, nullPrefix)
    ensures var line := CommandLine(cmds[i], member, nullPrefix);
      var tail := RequirementText(cmds[i].requiredPermissionLevel) + "\n";
      |tail| <= |line| && line[|line| - |tail|..] == tail
  {
    assert cmds == cmds[..i + 1] + cmds[i + 1..];
    CommandLinesAppend(cmds[..i + 1], cmds[i + 1..], member, nullPrefix);
    CommandLinesSnoc(cmds, i, member, nullPrefix);
    var cmd := cmds[i];
    var head := UsagePrefix(cmd, member, nullPrefix) + cmd.name + Spaces(PaddingWidth(cmd.name));
    var tail := RequirementText(cmd.requiredPermissionLevel) + "\n";
    Assoc(head, RequirementText(cmd.requiredPermissionLevel), "\n");
    SuffixOf(head, tail);
  }

  lemma SuffixOf(a: string, b: string)
    ensures (a + b)[|a + b| - |b|..] == b
  {
  }

  /** No name contains a line break. */
  predicate SingleLineNames(cmds: seq<Command>) {
    forall i | 0 <= i < |cmds| :: '\n' !in cmds[i].name
  }

  /** Decimal text holds no line break. */
  lemma DigitsHaveNoNewline(s: string)
    requires AllDigits(s)
    ensures '\n' !in s
  {
  }

  /** Each listing line is exactly one line of text. */
  lemma CommandLineHasOneNewline(cmd: Command, member: Option<XanBotMember>, nullPrefix: string)
    requires '\n' !in cmd.name && '\n' !in nullPrefix
    ensures CountChar(CommandLine(cmd, member, nullPrefix), '\n') == 1
  {
    var prefix := UsagePrefix(cmd, member, nullPrefix);
    var pad := Spaces(PaddingWidth(cmd.name));
    var level := NatToString(cmd.requiredPermissionLevel);
    var req := RequirementText(cmd.requiredPermissionLevel);
    assert '\n' !in prefix;
    assert '\n' !in pad;
    DigitsHaveNoNewline(level);
    assert '\n' !in req by {
      assert req == "Requires Permission Level " + level + " (or higher).";
    }
    CountCharAbsent(prefix + cmd.name + pad + req, '\n');
    CountCharConcat(prefix + cmd.name + pad + req, "\n", '\n');
    assert CountChar("\n", '\n') == 1 by {
      assert "\n"[..0] == "";
    }
  }

  /** The listing of `cmds` holds one line per command. */
  lemma {:induction false} CommandLinesLineCount(cmds: seq<Command>, member: Option<XanBotMember>, nullPrefix: string)
    requires SingleLineNames(cmds) && '\n' !in nullPrefix
    ensures CountChar(CommandLines(cmds, member, nullPrefix), '\n') == |cmds|
    decreases |cmds|
  {
    if cmds == [] {
      assert CommandLineList(cmds, member, nullPrefix) == [];
    } else {
      var k := |cmds| - 1;
      var init := cmds[..k];
      assert SingleLineNames(init) by {
        forall i | 0 <= i < |init|
          ensures '\n' !in init[i].name
        {
          assert init[i] == cmds[i];
        }
      }
      CommandLinesLineCount(init, member, nullPrefix);
      CommandLineHasOneNewline(cmds[k], member, nullPrefix);
      CommandLinesSnoc(cmds, k, member, nullPrefix);
      assert cmds[..k + 1] == cmds;
      CountCharConcat(CommandLines(init, member, nullPrefix), CommandLine(cmds[k], member, nullPrefix), '\n');
    }
  }

  /** The listing starts with the fixed introduction and ends with the code
      fence; the section of context-specific commands is present exactly when
      there is at least one such command. */
  lemma ListingShape(globalCmds: seq<Command>, contextCmds: seq<Command>, member: Option<XanBotMember>)
    ensures var text := Listing(globalCmds, contextCmds, member);
      && |ListingIntro| + |ListingEnd| <= |text|
      && text[..|ListingIntro|] == ListingIntro
      && text[|text| - |ListingEnd|..] == ListingEnd
    ensures |contextCmds| == 0 ==>
      Listing(globalCmds, contextCmds, member) == ListingIntro + CommandLines(globalCmds, member, "+ ") + ListingEnd
    ensures |contextCmds| > 0 ==>
      var text := Listing(globalCmds, contextCmds, member);
      var at := |ListingIntro + CommandLines(globalCmds, member, "+ ")|;
      at + |ContextSectionHeader| <= |text| && text[at..at + |ContextSectionHeader|] == ContextSectionHeader
  {
    var lines := CommandLines(globalCmds, member, "+ ");
    var section := if |contextCmds| > 0 then ContextSectionHeader + CommandLines(contextCmds, member, "+") else "";
    Framed(ListingIntro, lines, section, ListingEnd);
    if |contextCmds| > 0 {
      Middle(ListingIntro + lines, ContextSectionHeader, CommandLines(contextCmds, member, "+"), ListingEnd);
    } else {
      assert ListingIntro + lines + section == ListingIntro + lines;
    }
  }

  lemma Framed(a: string, b: string, c: string, e: string)
    ensures var t := a + b + c + e;
      |a| + |e| <= |t| && t[..|a|] == a && t[|t| - |e|..] == e
  {
    var t := a + b + c + e;
    assert t == a + (b + c + e);
    assert t == (a + b + c) + e;
  }

  lemma Middle(h: string, x: string, y: string, e: string)
    ensures var t := h + (x + y) + e;
      |h| + |x| <= |t| && t[|h|..|h| + |x|] == x
  {
    var t := h + (x + y) + e;
    assert t == h + (x + (y + e));
  }

  /** The lookup ignores case: names that fold alike find the same command. */
  lemma {:induction false} FindCommandFromCaseInsensitive(cmds: seq<Command>, a: string, b: string, from: nat)
    requires from <= |cmds|
    requires ToLower(a) == ToLower(b)
    ensures FindCommandFrom(cmds, a, from) == FindCommandFrom(cmds, b, from)
    decreases |cmds| - from
  {
    if from < |cmds| {
      FindCommandFromCaseInsensitive(cmds, a, b, from + 1);
    }
  }

  /** With one argument the reply depends only on the global commands and
      the argument's folded name when a command is found; the context's own
      commands are never looked up. */
  lemma DetailsLookup(globalCmds: seq<Command>, contextCmds: seq<Command>, other: seq<Command>,
                      member: Option<XanBotMember>, a: string, b: string)
    requires ToLower(a) == ToLower(b)
    ensures HelpResponse(globalCmds, contextCmds, member, [a]) == HelpResponse(globalCmds, other, None, [a])
    ensures HelpResponse(globalCmds, contextCmds, member, [a]).Success? ==>
      HelpResponse(globalCmds, contextCmds, member, [a]) == HelpResponse(globalCmds, contextCmds, member, [b])
    ensures HelpResponse(globalCmds, contextCmds, member, [a]).Failure? <==>
      forall j | 0 <= j < |globalCmds| :: !NameMatches(globalCmds[j], a)
  {
    FindCommandFromCaseInsensitive(globalCmds, a, b, 0);
  }

  /** The usage segment always holds an even number of backticks, and it
      lacks the closing one exactly when the syntax holds an odd number. */
  lemma UsageBackticksBalanced(syntax: string)
    ensures CountChar(UsageSegment(syntax), '`') % 2 == 0
    ensures UsageSegment(syntax) == "`" + syntax <==> CountChar(syntax, '`') % 2 == 1
  {
    var closing := if CountChar(syntax, '`') % 2 != 0 then "" else "`";
    CountCharConcat("`" + syntax, closing, '`');
    CountCharConcat("`", syntax, '`');
    assert CountChar("`", '`') == 1 by {
      assert "`"[..0] == "";
    }
    assert CountChar("", '`') == 0;
    if closing == "`" {
      assert CountChar("`", '`') == 1 by {
        assert "`"[..0] == "";
      }
      assert |UsageSegment(syntax)| != |"`" + syntax|;
    } else {
      assert UsageSegment(syntax) == "`" + syntax + "";
    }
  }

  /** The error outcomes: two or more arguments raise the argument-count
      exception, and an unknown name raises "does not exist" naming it. */
  lemma HelpErrors(globalCmds: seq<Command>, contextCmds: seq<Command>, member: Option<XanBotMember>, args: seq<string>)
    ensures |args| >= 2 ==>
      HelpResponse(globalCmds, contextCmds, member, args) == Failure(CommandException("help", InvalidArgCountMessage))
    ensures |args| == 1 && (forall j | 0 <= j < |globalCmds| :: !NameMatches(globalCmds[j], args[0])) ==>
      HelpResponse(globalCmds, contextCmds, member, args)
        == Failure(CommandException("help", "Command `" + args[0] + "` does not exist."))
  {
  }
}
