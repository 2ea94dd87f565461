/**
 * The `help` chat command (`commands/utility/help.js`): the reply it builds
 * from the command list of `bot-commands.json` and the user's arguments.
 */
module Help {
  import opened Wrappers
  import opened JsText

  /** An entry of the command list. */
  datatype CommandInfo = CommandInfo(name: string, description: string)

  function Names(commands: seq<CommandInfo>): (names: seq<string>)
    ensures |names| == |commands|
    ensures forall k :: 0 <= k < |commands| ==> names[k] == commands[k].name
  {
    seq(|commands|, k requires 0 <= k < |commands| => commands[k].name)
  }

  /** The line describing one command. */
  function Line(c: CommandInfo): string {
    "**" + c.name + "** - " + c.description
  }

  function Lines(commands: seq<CommandInfo>): (lines: seq<string>)
    ensures |lines| == |commands|
    ensures forall k :: 0 <= k < |commands| ==> lines[k] == Line(commands[k])
  {
    seq(|commands|, k requires 0 <= k < |commands| => Line(commands[k]))
  }

  /** `commands.find(cmd => cmd.name === name)`: the first entry with that exact name. */
  function Find(commands: seq<CommandInfo>, name: string): (k: nat)
    requires name in Names(commands)
    ensures k < |commands| && commands[k].name == name
    ensures forall j :: 0 <= j < k ==> commands[j].name != name
  {
    if commands[0].name == name then 0
    else
      assert Names(commands[1..]) == Names(commands)[1..];
      1 + Find(commands[1..], name)
  }

  /**
   * `execute`'s reply: the entry named exactly by the first argument, or
   * else the whole list, one line per command. An entry whose name is the
   * empty string is falsy, so it would be printed as "[object Object]".
   */
  function HelpReply(commands: seq<CommandInfo>, args: seq<string>): (reply: string)
    ensures StartsWith(reply, "\n")
    ensures args != [] && args[0] in Names(commands) && args[0] != "" ==>
      reply == "\n" + Line(commands[Find(commands, args[0])])
    ensures args != [] && args[0] == "" && "" in Names(commands) ==> reply == "\n[object Object]"
    ensures args == [] || args[0] !in Names(commands) ==>
      reply == "\n" + Join(Lines(commands), "\n")
  {
    var body :=
      if args != [] && args[0] in Names(commands) then
        var c := commands[Find(commands, args[0])];
        if c.name != "" then Line(c) else "[object Object]"
      else Join(Lines(commands), "\n");
    "\n" + body
  }

  /** Only the first argument matters; the others are ignored. */
  lemma ExtraArgumentsIgnored(commands: seq<CommandInfo>, first: string, rest: seq<string>)
    ensures HelpReply(commands, [first] + rest) == HelpReply(commands, [first])
  {
    assert ([first] + rest)[0] == first;
  }

  /**
   * The name is matched exactly (so case-sensitively): a first argument
   * that differs from every name, even only in case, gets the full list.
   */
  lemma UnknownNameListsAll(commands: seq<CommandInfo>, args: seq<string>)
    requires args != [] && forall k :: 0 <= k < |commands| ==> commands[k].name != args[0]
    ensures HelpReply(commands, args) == "\n" + Join(Lines(commands), "\n")
  {
    assert args[0] !in Names(commands);
  }

  /**
   * The full list can be read back line by line: when no name or
   * description holds a line break, the lines after the leading "\n" are
   * the command lines, in list order.
   */
  lemma ListingLines(commands: seq<CommandInfo>)
    requires commands != []
    requires forall k :: 0 <= k < |commands| ==> '\n' !in commands[k].name && '\n' !in commands[k].description
    ensures var reply := HelpReply(commands, []);
      Split(reply[1..], '\n') == Lines(commands)
  {
    var lines := Lines(commands);
    forall k | 0 <= k < |lines| ensures '\n' !in lines[k] {
      assert lines[k] == "**" + commands[k].name + "** - " + commands[k].description;
    }
    JoinThenSplit(lines, '\n');
    assert HelpReply(commands, [])[1..] == Join(lines, "\n");
  }
}
