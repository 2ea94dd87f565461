/**
 * The chat side of `bot.js`: the command registry filled from the command
 * folders, the message handler (prefix, tokenising, lookup, and the
 * per-command, per-user cooldown map, driven by an explicit clock), the
 * internal `/discord/twitch` route, and the "stream is live" announcement
 * fanned out to every channel that subscribed to the broadcaster.
 */
module Bot {
  import opened Wrappers
  import opened Seqs
  import opened JsText
  import opened Express
  import InternalAuth
  import TwitchService

  /** The parts of a command module the handler reads: its `name` and optional `cooldown` (seconds). */
  datatype Command = Command(name: string, cooldown: Option<int>)

  /** A file of a command folder, and the command it exports. */
  datatype CommandFile = CommandFile(fileName: string, command: Command)

  datatype Folder = Folder(name: string, files: seq<CommandFile>)

  datatype Author = Author(id: string, isBot: bool)

  datatype Message = Message(content: string, author: Author)

  // ---------------------------------------------------------------------
  // Registry
  // ---------------------------------------------------------------------

  /** The commands of the `.js` files of one folder, in directory order. */
  function JsFiles(files: seq<CommandFile>): (cmds: seq<Command>)
    ensures |cmds| <= |files|
  {
    if files == [] then []
    else
      var last := files[|files| - 1];
      JsFiles(files[..|files| - 1]) + (if EndsWith(last.fileName, ".js") then [last.command] else [])
  }

  /** The commands of every folder, folder after folder. */
  function JsCommands(folders: seq<Folder>): seq<Command> {
    if folders == [] then []
    else JsCommands(folders[..|folders| - 1]) + JsFiles(folders[|folders| - 1].files)
  }

  /** `client.commands.set(command.name, command)` for each command in turn. */
  function Register(registry: map<string, Command>, cmds: seq<Command>): map<string, Command> {
    if cmds == [] then registry
    else
      var last := cmds[|cmds| - 1];
      Register(registry, cmds[..|cmds| - 1])[last.name := last]
  }

  lemma {:induction false} RegisterAppend(registry: map<string, Command>, a: seq<Command>, b: seq<Command>)
    ensures Register(registry, a + b) == Register(Register(registry, a), b)
    decreases |b|
  {
    if b != [] {
      assert (a + b)[..|a + b| - 1] == a + b[..|b| - 1];
      RegisterAppend(registry, a, b[..|b| - 1]);
    } else {
      assert a + b == a;
    }
  }

  /** A name is registered exactly when it was before or some command carries it. */
  lemma {:induction false} RegisterKeys(registry: map<string, Command>, cmds: seq<Command>, name: string)
    ensures name in Register(registry, cmds) <==>
      name in registry || exists k :: 0 <= k < |cmds| && cmds[k].name == name
    decreases |cmds|
  {
    if cmds != [] {
      var init := cmds[..|cmds| - 1];
      RegisterKeys(registry, init, name);
      if exists k :: 0 <= k < |cmds| && cmds[k].name == name {
        var k :| 0 <= k < |cmds| && cmds[k].name == name;
        if k < |cmds| - 1 {
          assert init[k].name == name;
        }
      }
    }
  }

  /**
   * Later files win: a name is bound to the last command that carries it,
   * and a name no command carries keeps its earlier binding.
   */
  lemma {:induction false} RegisterLastWins(registry: map<string, Command>, cmds: seq<Command>, k: nat)
    requires k < |cmds|
    requires forall j :: k < j < |cmds| ==> cmds[j].name != cmds[k].name
    ensures cmds[k].name in Register(registry, cmds)
    ensures Register(registry, cmds)[cmds[k].name] == cmds[k]
    decreases |cmds|
  {
    if k < |cmds| - 1 {
      var init := cmds[..|cmds| - 1];
      RegisterLastWins(registry, init, k);
    }
  }

  lemma {:induction false} RegisterKeepsOthers(registry: map<string, Command>, cmds: seq<Command>, name: string)
    requires name in registry
    requires forall j :: 0 <= j < |cmds| ==> cmds[j].name != name
    ensures name in Register(registry, cmds) && Register(registry, cmds)[name] == registry[name]
    decreases |cmds|
  {
    if cmds != [] {
      RegisterKeepsOthers(registry, cmds[..|cmds| - 1], name);
    }
  }

  /** Every name the registry binds is the name of the command bound to it. */
  predicate Keyed(registry: map<string, Command>) {
    forall name :: name in registry ==> registry[name].name == name
  }

  lemma {:induction false} RegisterKeyed(registry: map<string, Command>, cmds: seq<Command>)
    requires Keyed(registry)
    ensures Keyed(Register(registry, cmds))
    decreases |cmds|
  {
    if cmds != [] {
      RegisterKeyed(registry, cmds[..|cmds| - 1]);
    }
  }

  /** Reading one more file of a folder adds its command when it is a `.js` file. */
  lemma JsFilesSnoc(files: seq<CommandFile>, j: nat)
    requires j < |files|
    ensures JsFiles(files[..j + 1]) ==
      JsFiles(files[..j]) + (if EndsWith(files[j].fileName, ".js") then [files[j].command] else [])
  {
    assert files[..j + 1][..j] == files[..j];
  }

  /** The inner loop of the loader: `set` for each `.js` file of one folder, in order. */
  method RegisterFiles(registry: map<string, Command>, files: seq<CommandFile>) returns (r: map<string, Command>)
    ensures r == Register(registry, JsFiles(files))
  {
    r := registry;
    var j := 0;
    while j < |files|
      invariant 0 <= j <= |files|
      invariant r == Register(registry, JsFiles(files[..j]))
    {
      JsFilesSnoc(files, j);
      if EndsWith(files[j].fileName, ".js") {
        var command := files[j].command;
        RegisterAppend(registry, JsFiles(files[..j]), [command]);
        assert Register(r, [command]) == r[command.name := command] by {
          assert [command][..0] == [];
        }
        r := r[command.name := command];
      } else {
        assert JsFiles(files[..j]) + [] == JsFiles(files[..j]);
      }
      j := j + 1;
    }
    assert files[..j] == files;
  }

  // ---------------------------------------------------------------------
  // Tokenising
  // ---------------------------------------------------------------------

  /**
   * `content.slice(prefix.length).trim().split(/ +/)`: the words after the
   * prefix; none holds a space, and none is empty unless nothing but white
   * space follows the prefix.
   */
  function Tokens(prefix: string, content: string): (tokens: seq<string>)
    requires StartsWith(content, prefix)
    ensures |tokens| >= 1
    ensures forall k :: 0 <= k < |tokens| ==> ' ' !in tokens[k]
    ensures Trim(content[|prefix|..]) != [] ==> forall k :: 0 <= k < |tokens| ==> tokens[k] != []
  {
    var body := Trim(content[|prefix|..]);
    SpaceRunFieldsFree(body);
    if body == [] then SplitOnSpaceRuns(body)
    else
      SpaceRunFieldsNonEmpty(body);
      SplitOnSpaceRuns(body)
  }

  /** Where the words are separated by single spaces, they join back into the trimmed text. */
  lemma TokensRejoin(prefix: string, content: string)
    requires StartsWith(content, prefix)
    requires SingleSpaced(Trim(content[|prefix|..]))
    ensures Join(Tokens(prefix, content), " ") == Trim(content[|prefix|..])
  {
    SpaceRunsThenJoin(Trim(content[|prefix|..]));
  }

  /** A resolved command and the arguments it is executed with. */
  datatype Invocation = Invocation(command: Command, args: seq<string>)

  /**
   * The checks before any state is touched: the prefix, a human author, and
   * a registered name (the first word, lower-cased, shifted off the
   * arguments).
   */
  function Resolve(prefix: string, registry: map<string, Command>, msg: Message): (inv: Option<Invocation>)
    ensures inv.Some? ==> StartsWith(msg.content, prefix) && !msg.author.isBot
    ensures !StartsWith(msg.content, prefix) || msg.author.isBot ==> inv.None?
    ensures inv.Some? ==>
      var tokens := Tokens(prefix, msg.content);
      ToLower(tokens[0]) in registry && inv.value.command == registry[ToLower(tokens[0])] && inv.value.args == tokens[1..]
  {
    if !StartsWith(msg.content, prefix) || msg.author.isBot then None
    else
      var tokens := Tokens(prefix, msg.content);
      var name := ToLower(tokens[0]);
      if name !in registry then None else Some(Invocation(registry[name], tokens[1..]))
  }

  // ---------------------------------------------------------------------
  // Cooldowns
  // ---------------------------------------------------------------------

  /** command name -> user id -> time (ms) of the user's last execution */
  type Cooldowns = map<string, map<string, int>>

  /** `(command.cooldown || 3) * 1000`: a missing or zero cooldown means three seconds. */
  function CooldownMs(c: Command): (ms: int)
    ensures c.cooldown.None? || c.cooldown == Some(0) ==> ms == 3000
    ensures c.cooldown.Some? && c.cooldown.value != 0 ==> ms == c.cooldown.value * 1000
  {
    match c.cooldown
    case None => 3000
    case Some(s) => (if s == 0 then 3 else s) * 1000
  }

  /** The user ran the command less than its cooldown ago. */
  predicate OnCooldown(cds: Cooldowns, c: Command, userId: string, now: int) {
    c.name in cds && userId in cds[c.name] && now < cds[c.name][userId] + CooldownMs(c)
  }

  datatype Outcome =
    | Ignored
    | WaitReply(commandName: string, remainingMs: int)   // "please wait … before reusing …"
    | Executed(command: Command, args: seq<string>)

  datatype Step = Step(outcome: Outcome, cooldowns: Cooldowns)

  /**
   * The message handler at time `now`: ignored messages change nothing; a
   * user on cooldown gets the wait reply and nothing changes; otherwise the
   * user's timestamp for that command becomes `now` and the command runs
   * once (`ExecutionFrame` says that nothing else changes).
   */
  function Handle(prefix: string, registry: map<string, Command>, cds: Cooldowns, msg: Message, now: int): (r: Step)
    ensures r.outcome.Ignored? <==> Resolve(prefix, registry, msg).None?
    ensures r.outcome.Ignored? || r.outcome.WaitReply? ==> r.cooldowns == cds
    ensures r.outcome.WaitReply? ==>
      var c := Resolve(prefix, registry, msg).value.command;
      OnCooldown(cds, c, msg.author.id, now) && r.outcome.remainingMs > 0
    ensures r.outcome.Executed? ==>
      var inv := Resolve(prefix, registry, msg).value;
      var name := inv.command.name;
      && r.outcome == Executed(inv.command, inv.args)
      && !OnCooldown(cds, inv.command, msg.author.id, now)
      && name in r.cooldowns && msg.author.id in r.cooldowns[name] && r.cooldowns[name][msg.author.id] == now
  {
    match Resolve(prefix, registry, msg)
    case None => Step(Ignored, cds)
    case Some(inv) =>
      var c := inv.command;
      var id := msg.author.id;
      if OnCooldown(cds, c, id, now) then
        Step(WaitReply(c.name, cds[c.name][id] + CooldownMs(c) - now), cds)
      else
        var timestamps := if c.name in cds then cds[c.name] else map[];
        Step(Executed(c, inv.args), cds[c.name := timestamps[id := now]])
  }

  /** The timer `setTimeout` arms: it deletes the user's timestamp for the command. */
  function Expire(cds: Cooldowns, name: string, userId: string): (r: Cooldowns)
    ensures name in cds ==> name in r && userId !in r[name]
    ensures forall n :: n in r <==> n in cds
    ensures forall n :: n in cds && n != name ==> r[n] == cds[n]
  {
    if name in cds then cds[name := cds[name] - {userId}] else cds
  }

  /**
   * The rate limit: once a user has run a command at `t1`, the same user
   * asking for the same command before `t1` plus its cooldown gets the wait
   * reply, and from then on runs it again.
   */
  lemma RateLimit(prefix: string, registry: map<string, Command>, cds: Cooldowns, first: Message, t1: int, second: Message, t2: int)
    requires Handle(prefix, registry, cds, first, t1).outcome.Executed?
    requires Resolve(prefix, registry, second).Some?
    requires Resolve(prefix, registry, second).value.command == Resolve(prefix, registry, first).value.command
    requires second.author.id == first.author.id
    ensures var c := Resolve(prefix, registry, first).value.command;
      var after := Handle(prefix, registry, cds, first, t1).cooldowns;
      && (t2 < t1 + CooldownMs(c) ==> Handle(prefix, registry, after, second, t2).outcome.WaitReply?)
      && (t2 >= t1 + CooldownMs(c) ==> Handle(prefix, registry, after, second, t2).outcome.Executed?)
  {
  }

  /** Two cooldown maps hold the same timestamp, or none, for a user and a command. */
  predicate SameEntry(cds1: Cooldowns, cds2: Cooldowns, name: string, userId: string) {
    && ((name in cds1 && userId in cds1[name]) <==> (name in cds2 && userId in cds2[name]))
    && (name in cds1 && userId in cds1[name] ==> cds1[name][userId] == cds2[name][userId])
  }

  /** A message's outcome reads the cooldown map only at its author's entry for its command. */
  lemma OutcomeReadsOneEntry(prefix: string, registry: map<string, Command>, cds1: Cooldowns, cds2: Cooldowns, msg: Message, now: int)
    requires Resolve(prefix, registry, msg).Some? ==>
      SameEntry(cds1, cds2, Resolve(prefix, registry, msg).value.command.name, msg.author.id)
    ensures Handle(prefix, registry, cds1, msg, now).outcome == Handle(prefix, registry, cds2, msg, now).outcome
  {
    if Resolve(prefix, registry, msg).Some? {
      var c := Resolve(prefix, registry, msg).value.command;
      assert OnCooldown(cds1, c, msg.author.id, now) == OnCooldown(cds2, c, msg.author.id, now);
    }
  }

  /**
   * An execution changes the cooldown map only at its author's entry for
   * its command: every other command keeps its timestamps, and every other
   * user keeps theirs.
   */
  lemma ExecutionFrame(prefix: string, registry: map<string, Command>, cds: Cooldowns, msg: Message, now: int, n: string, u: string)
    requires Handle(prefix, registry, cds, msg, now).outcome.Executed?
    ensures var after := Handle(prefix, registry, cds, msg, now).cooldowns;
      var name := Resolve(prefix, registry, msg).value.command.name;
      && (n != name ==> (n in after <==> n in cds) && (n in cds ==> after[n] == cds[n]))
      && (n != name || u != msg.author.id ==> SameEntry(after, cds, n, u))
  {
    var after := Handle(prefix, registry, cds, msg, now).cooldowns;
    var name := Resolve(prefix, registry, msg).value.command.name;
    var timestamps := if name in cds then cds[name] else map[];
    assert after == cds[name := timestamps[msg.author.id := now]];
    if n == name {
      assert after[n] == timestamps[msg.author.id := now];
    } else {
      assert n in after <==> n in cds;
    }
  }

  /** One user's execution leaves every other user's next outcome as it was. */
  lemma OtherUsersUnaffected(prefix: string, registry: map<string, Command>, cds: Cooldowns, first: Message, t1: int, other: Message, t2: int)
    requires Handle(prefix, registry, cds, first, t1).outcome.Executed?
    requires other.author.id != first.author.id
    ensures var after := Handle(prefix, registry, cds, first, t1).cooldowns;
      Handle(prefix, registry, after, other, t2).outcome == Handle(prefix, registry, cds, other, t2).outcome
  {
    var after := Handle(prefix, registry, cds, first, t1).cooldowns;
    if Resolve(prefix, registry, other).Some? {
      var c := Resolve(prefix, registry, other).value.command;
      ExecutionFrame(prefix, registry, cds, first, t1, c.name, other.author.id);
    }
    OutcomeReadsOneEntry(prefix, registry, after, cds, other, t2);
  }

  /** Once the timer has fired, the user runs the command again whatever the time. */
  lemma ExpiredCooldownRuns(prefix: string, registry: map<string, Command>, cds: Cooldowns, msg: Message, now: int)
    requires Resolve(prefix, registry, msg).Some?
    ensures var c := Resolve(prefix, registry, msg).value.command;
      Handle(prefix, registry, Expire(cds, c.name, msg.author.id), msg, now).outcome.Executed?
  {
  }

  // ---------------------------------------------------------------------
  // The client
  // ---------------------------------------------------------------------

  /** The Discord client's `commands` and `cooldowns` collections. */
  class Client {
    const prefix: string
    var commands: map<string, Command>
    var cooldowns: Cooldowns

    constructor (prefix: string)
      ensures this.prefix == prefix && commands == map[] && cooldowns == map[]
    {
      this.prefix := prefix;
      commands := map[];
      cooldowns := map[];
    }

    /** Fills the registry: every `.js` file of every folder, in order, with `set`. */
    method LoadCommands(folders: seq<Folder>)
      modifies this
      ensures commands == Register(old(commands), JsCommands(folders))
      ensures cooldowns == old(cooldowns)
    {
      var i := 0;
      while i < |folders|
        invariant 0 <= i <= |folders|
        invariant commands == Register(old(commands), JsCommands(folders[..i]))
        invariant cooldowns == old(cooldowns)
      {
        assert folders[..i + 1][..i] == folders[..i];
        RegisterAppend(old(commands), JsCommands(folders[..i]), JsFiles(folders[i].files));
        commands := RegisterFiles(commands, folders[i].files);
        i := i + 1;
      }
      assert folders[..i] == folders;
    }

    /** The `message` listener. */
    method OnMessage(msg: Message, now: int) returns (outcome: Outcome)
      modifies this
      ensures Step(outcome, cooldowns) == Handle(prefix, commands, old(cooldowns), msg, now)
      ensures commands == old(commands)
    {
      if !StartsWith(msg.content, prefix) || msg.author.isBot {
        return Ignored;
      }
      var args := Tokens(prefix, msg.content);
      var commandName := ToLower(args[0]);
      args := args[1..];
      if commandName !in commands {
        return Ignored;
      }
      var command := commands[commandName];
      ghost var id := msg.author.id;
      assert Resolve(prefix, commands, msg) == Some(Invocation(command, args));
      if command.name !in cooldowns {
        cooldowns := cooldowns[command.name := map[]];
      }
      var timestamps := cooldowns[command.name];
      assert timestamps == if command.name in old(cooldowns) then old(cooldowns)[command.name] else map[];
      var cooldownAmount := CooldownMs(command);
      if msg.author.id in timestamps {
        var expirationTime := timestamps[msg.author.id] + cooldownAmount;
        if now < expirationTime {
          assert OnCooldown(old(cooldowns), command, id, now);
          assert cooldowns == old(cooldowns);
          outcome := WaitReply(command.name, expirationTime - now);
          assert Handle(prefix, commands, old(cooldowns), msg, now) == Step(outcome, cooldowns);
          return;
        }
      }
      assert !OnCooldown(old(cooldowns), command, id, now);
      cooldowns := cooldowns[command.name := timestamps[msg.author.id := now]];
      assert cooldowns == old(cooldowns)[command.name := timestamps[id := now]];
      outcome := Executed(command, args);
      assert Handle(prefix, commands, old(cooldowns), msg, now) == Step(outcome, cooldowns);
    }

    /** The cooldown timer firing for one user and command. */
    method ExpireCooldown(name: string, userId: string)
      modifies this
      ensures cooldowns == Expire(old(cooldowns), name, userId)
      ensures commands == old(commands)
    {
      if name in cooldowns {
        cooldowns := cooldowns[name := cooldowns[name] - {userId}];
      }
    }
  }

  // ---------------------------------------------------------------------
  // Live announcements
  // ---------------------------------------------------------------------

  /**
   * `POST /discord/twitch`: the handler answers 202 and then hands the event
   * to `twitchLive`, but it runs only when `verifyInternalToken` let the
   * request through: its first `next(err)` skips the handler and the error
   * handler answers with that error.
   */
  function DiscordTwitchRoute(authorization: Option<string>, internalToken: Option<string>, event: Option<StreamEvent>): (actions: seq<Action>)
    ensures var token := InternalAuth.BearerToken(authorization);
      token.Some? && token == internalToken ==> actions == [Next, SendStatus(202), TwitchLive(event)]
    ensures InternalAuth.BearerToken(authorization).None? ==> actions == [NextError(InternalAuth.MissingTokenError)]
    ensures var token := InternalAuth.BearerToken(authorization);
      token.Some? && token != internalToken ==> actions == [NextError(InternalAuth.InvalidTokenError)]
    ensures TwitchLive(event) in actions <==>
      InternalAuth.BearerToken(authorization).Some? && InternalAuth.BearerToken(authorization) == internalToken
  {
    var auth := InternalAuth.VerifyInternalToken(authorization, internalToken);
    var handler := [SendStatus(202), TwitchLive(event)];
    EffectiveAppend(auth, handler);
    assert auth[0].NextError? ==> Rejects(auth);
    Effective(auth + handler)
  }

  const TitleSuffix := " is live NOW on Twitch!"
  const ChannelBase := "https://www.twitch.tv/"

  /** The embed title; the broadcaster's display name can be read back from it. */
  function StreamTitle(userName: string): (title: string)
    ensures EndsWith(title, TitleSuffix)
    ensures title[..|title| - |TitleSuffix|] == userName
  {
    var title := userName + TitleSuffix;
    assert title[|title| - |TitleSuffix|..] == TitleSuffix;
    title
  }

  /** The embed link to the channel; the login can be read back from it. */
  function StreamUrl(userLogin: string): (url: string)
    ensures StartsWith(url, ChannelBase)
    ensures url[|ChannelBase|..] == userLogin
  {
    ChannelBase + userLogin
  }

  /** The parts of the embed that depend on the event (the date and time fields are not modelled). */
  datatype Embed = Embed(title: string, url: string)

  function EmbedFor(event: StreamEvent): (e: Embed)
    ensures e.title == StreamTitle(event.broadcasterUserName) && e.url == StreamUrl(event.broadcasterUserLogin)
  {
    Embed(StreamTitle(event.broadcasterUserName), StreamUrl(event.broadcasterUserLogin))
  }

  /** One `channel.send("@everyone", embed)` attempt. */
  datatype Delivery = Delivery(channelId: string, mention: string, embed: Embed)

  /** What the bot's own API answers to the channel lookup: the `channel_id` of each row, or a failure. */
  datatype ChannelsReply = ChannelRows(channelIds: seq<Option<string>>) | LookupFailed

  /** The internal URL of the channel lookup for a broadcaster. */
  function ChannelLookupUrl(baseUrl: Option<string>, broadcasterId: string): (url: string)
    ensures StartsWith(url, Interpolate(baseUrl) + "twitch/announcements?broadcaster_id=")
  {
    Interpolate(baseUrl) + "twitch/announcements?broadcaster_id=" + broadcasterId
  }

  /** The channels the `forEach` addresses: `${channel_id}` of each row. */
  function Targets(channelIds: seq<Option<string>>): (targets: seq<string>)
    ensures |targets| == |channelIds|
    ensures forall k :: 0 <= k < |channelIds| ==> targets[k] == Interpolate(channelIds[k])
  {
    seq(|channelIds|, k requires 0 <= k < |channelIds| => Interpolate(channelIds[k]))
  }

  function NotIn(failing: set<string>): string -> bool {
    (channel: string) => channel !in failing
  }

  /** Outbound traffic of `twitchLive`: lookups of the internal API and Discord sends. */
  class Announcer {
    var lookups: seq<string>
    var attempts: seq<Delivery>

    constructor ()
      ensures lookups == [] && attempts == []
    {
      lookups, attempts := [], [];
    }

    /**
     * `twitchLive(event)`: one lookup of the subscribed channels, then one
     * send attempt per returned row, in order. Each attempt's failure is
     * caught on its own, so the channels in `failing` miss the announcement
     * and every other channel gets it. An undefined event throws at the
     * destructuring and nothing is sent.
     */
    method TwitchLive(baseUrl: Option<string>, event: Option<StreamEvent>, reply: ChannelsReply, failing: set<string>)
      returns (delivered: seq<string>)
      modifies this
      ensures event.None? ==> lookups == old(lookups) && attempts == old(attempts) && delivered == []
      ensures event.Some? ==> lookups == old(lookups) + [ChannelLookupUrl(baseUrl, event.value.broadcasterUserId)]
      ensures event.Some? && reply.LookupFailed? ==> attempts == old(attempts) && delivered == []
      ensures event.Some? && reply.ChannelRows? ==>
        var targets := Targets(reply.channelIds);
        && |attempts| == |old(attempts)| + |targets|
        && attempts[..|old(attempts)|] == old(attempts)
        && (forall k :: 0 <= k < |targets| ==>
              attempts[|old(attempts)| + k] == Delivery(targets[k], "@everyone", EmbedFor(event.value)))
        && delivered == Keep(targets, NotIn(failing))
    {
      delivered := [];
      if event.None? {
        return;
      }
      var embed := EmbedFor(event.value);
      lookups := lookups + [ChannelLookupUrl(baseUrl, event.value.broadcasterUserId)];
      if reply.LookupFailed? {
        return;
      }
      var sent;
      sent, delivered := SendAll(Targets(reply.channelIds), embed, failing);
      attempts := attempts + sent;
    }
  }

  /**
   * The `forEach` over the returned rows: one send attempt per channel, in
   * order, whatever became of the earlier ones; the channels in `failing`
   * are the attempts that fail, and only they miss the announcement.
   */
  method SendAll(targets: seq<string>, embed: Embed, failing: set<string>) returns (sent: seq<Delivery>, delivered: seq<string>)
    ensures |sent| == |targets|
    ensures forall k :: 0 <= k < |targets| ==> sent[k] == Delivery(targets[k], "@everyone", embed)
    ensures delivered == Keep(targets, NotIn(failing))
  {
    sent, delivered := [], [];
    var i := 0;
    while i < |targets|
      invariant 0 <= i <= |targets|
      invariant |sent| == i
      invariant forall k :: 0 <= k < i ==> sent[k] == Delivery(targets[k], "@everyone", embed)
      invariant delivered == Keep(targets[..i], NotIn(failing))
    {
      sent := sent + [Delivery(targets[i], "@everyone", embed)];
      KeepSnoc(targets[..i], targets[i], NotIn(failing));
      assert targets[..i + 1] == targets[..i] + [targets[i]];
      if targets[i] !in failing {
        delivered := delivered + [targets[i]];
      }
      i := i + 1;
    }
    assert targets[..i] == targets;
  }

  /** Two returned rows address their two channels. */
  lemma TwoTargets(first: string, second: string)
    ensures Targets([Some(first), Some(second)]) == [first, second]
  {
  }

  /** A failure on the first of two channels leaves only the second delivered. */
  lemma FirstFails(first: string, second: string)
    requires first != second
    ensures Keep([first, second], NotIn({first})) == [second]
  {
    assert [first, second][1..] == [second];
    assert [second][1..] == [];
  }

  /**
   * The seed data: broadcaster 68047106 is announced in both seeded guilds,
   * so a live event for it is sent to both channels, and a failure on the
   * first channel does not keep the second from getting it.
   */
  method SeedAnnouncement(baseUrl: Option<string>, event: StreamEvent) returns (attempted: seq<string>, delivered: seq<string>)
    requires event.broadcasterUserId == "68047106"
    ensures attempted == ["824006992368238662", "301608497387274240"]
    ensures delivered == ["301608497387274240"]
  {
    var channels := TwitchService.ListChannelsForGivenSubscription(TwitchService.SeedAnnouncements, TwitchService.SeedSubscriptions, event.broadcasterUserId);
    assert channels == ["824006992368238662", "301608497387274240"] by {
      TwitchService.SeedJoin();
    }
    var first, second := channels[0], channels[1];
    var rows := [Some(first), Some(second)];
    TwoTargets(first, second);
    FirstFails(first, second);
    var announcer := new Announcer();
    ghost var before := announcer.attempts;
    assert |before| == 0;
    delivered := announcer.TwitchLive(baseUrl, Some(event), ChannelRows(rows), {first});
    var sent := announcer.attempts;
    assert sent[|before| + 0] == Delivery(Targets(rows)[0], "@everyone", EmbedFor(event));
    assert sent[|before| + 1] == Delivery(Targets(rows)[1], "@everyone", EmbedFor(event));
    attempted := [sent[0].channelId, sent[1].channelId];
    assert attempted == [first, second];
  }
}
