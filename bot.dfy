/** The command logic of the Discord bot that the admin panel generates
    (bot.config.js, the code inside `generateBotCode`): the command table
    and auto-responses of `CommandHandler`, message dispatch, response
    templates, the premium-role rule of `RoleManager`, and the command list
    `generateDeployScript` writes into the bot's README.

    The bot's `config` is the panel's `BotConfig`. Discord itself (fetching
    roles and channels, sending replies) is outside the model: a reply is
    returned, and whether a role was found and added is a parameter. */
module BotCommands {
  import opened Common
  import opened Text
  import opened Admin

  datatype Author = Author(id: string, username: string, tag: string, bot: bool)

  datatype Guild = Guild(name: string, memberCount: nat)

  /** A received message; `guild` is absent for a direct message. */
  datatype Message = Message(author: Author, content: string, guild: Option<Guild>)

  const ErrorReply := "An error occurred while executing this command."

  // ---------------------------------------------------------------------
  // Templates
  // ---------------------------------------------------------------------

  predicate HasNoResponseTokens(text: string)
  {
    !Contains(text, "{user}") && !Contains(text, "{userId}")
    && !Contains(text, "{server}") && !Contains(text, "{prefix}")
  }

  /** The chained `replace` of `executeCommand`: `{user}`, `{userId}`,
      `{server}`, `{prefix}`, in that order. A response with none of the
      four tokens is sent as written. */
  function RenderResponse(text: string, user: string, userId: string, server: string, prefix: string): (r: string)
    ensures HasNoResponseTokens(text) ==> r == text
  {
    var r := ReplaceAll(ReplaceAll(ReplaceAll(ReplaceAll(text, "{user}", user), "{userId}", userId), "{server}", server), "{prefix}", prefix);
    if HasNoResponseTokens(text) then
      ReplaceAllAbsent(text, "{user}", user);
      ReplaceAllAbsent(text, "{userId}", userId);
      ReplaceAllAbsent(text, "{server}", server);
      ReplaceAllAbsent(text, "{prefix}", prefix);
      r
    else r
  }

  /** The replacements run in order, so a token inside an earlier value is
      itself replaced: a user named `{server}` is shown as the server. */
  lemma RenderOrderMatters()
    ensures RenderResponse("{user}", "{server}", "1", "S", "!") == "S"
  {
    ReplaceAllLeading("{user}", "", "{server}");
    assert "{user}" + "" == "{user}";
    assert ReplaceAll("{user}", "{user}", "{server}") == "{server}";
    assert !OccursAt("{server}", "{userId}", 0);
    ReplaceAllAbsent("{server}", "{userId}", "1");
    ReplaceAllLeading("{server}", "", "S");
    assert "{server}" + "" == "{server}";
    assert ReplaceAll("{server}", "{server}", "S") == "S";
  }

  /** The welcome text of `guildMemberAdd`: `{user}`, `{server}`,
      `{memberCount}`, in that order. A text with none of the three tokens
      is sent as written. */
  function WelcomeMessage(text: string, tag: string, server: string, memberCount: nat): (r: string)
    ensures !Contains(text, "{user}") && !Contains(text, "{server}") && !Contains(text, "{memberCount}")
            ==> r == text
  {
    var r := ReplaceAll(ReplaceAll(ReplaceAll(text, "{user}", tag), "{server}", server), "{memberCount}", Digits(memberCount, 10));
    if !Contains(text, "{user}") && !Contains(text, "{server}") && !Contains(text, "{memberCount}") then
      ReplaceAllAbsent(text, "{user}", tag);
      ReplaceAllAbsent(text, "{server}", server);
      ReplaceAllAbsent(text, "{memberCount}", Digits(memberCount, 10));
      r
    else r
  }

  // ---------------------------------------------------------------------
  // The command table
  // ---------------------------------------------------------------------

  /** The map `loadCommands` builds on top of `m`: every enabled command
      under its lower-cased name, a later one replacing an earlier one. */
  function Registered(m: map<string, Command>, cmds: seq<Command>): (r: map<string, Command>)
    ensures m.Keys <= r.Keys
    decreases |cmds|
  {
    if cmds == [] then m
    else
      var init := cmds[..|cmds| - 1];
      var r := Registered(m, init);
      var c := cmds[|cmds| - 1];
      if c.enabled then r[Lower(c.name) := c] else r
  }

  predicate RegistersUnder(c: Command, k: string)
  {
    c.enabled && Lower(c.name) == k
  }

  /** A key is in the table exactly when an enabled command has that
      lower-cased name: disabled commands are never registered. */
  lemma {:induction false} RegisteredKeys(cmds: seq<Command>, k: string)
    ensures k in Registered(map[], cmds) <==> exists i :: 0 <= i < |cmds| && RegistersUnder(cmds[i], k)
    decreases |cmds|
  {
    if cmds != [] {
      var init := cmds[..|cmds| - 1];
      RegisteredKeys(init, k);
      if exists i :: 0 <= i < |cmds| && RegistersUnder(cmds[i], k) {
        var i :| 0 <= i < |cmds| && RegistersUnder(cmds[i], k);
        if i < |init| {
          assert init[i] == cmds[i];
        }
      }
      if exists i :: 0 <= i < |init| && RegistersUnder(init[i], k) {
        var i :| 0 <= i < |init| && RegistersUnder(init[i], k);
        assert cmds[i] == init[i];
      }
    }
  }

  /** Of the enabled commands sharing a lower-cased name the last one
      wins. */
  lemma {:induction false} RegisteredLastWins(cmds: seq<Command>, i: nat)
    requires i < |cmds| && cmds[i].enabled
    requires forall j :: i < j < |cmds| ==> !RegistersUnder(cmds[j], Lower(cmds[i].name))
    ensures Lower(cmds[i].name) in Registered(map[], cmds)
    ensures Registered(map[], cmds)[Lower(cmds[i].name)] == cmds[i]
    decreases |cmds|
  {
    if i < |cmds| - 1 {
      var init := cmds[..|cmds| - 1];
      assert init[i] == cmds[i];
      RegisteredLastWins(init, i);
    }
  }

  /** `addAutoResponse` on the auto-response map: `Map.set` overwrites an
      existing key in place and appends a new one. */
  function SetEntry(entries: seq<(string, string)>, key: string, value: string): (r: seq<(string, string)>)
    ensures |r| == |entries| || |r| == |entries| + 1
    decreases |entries|
  {
    if entries == [] then [(key, value)]
    else if entries[0].0 == key then [(key, value)] + entries[1..]
    else [entries[0]] + SetEntry(entries[1..], key, value)
  }

  predicate DistinctKeys(entries: seq<(string, string)>)
  {
    forall i, j :: 0 <= i < j < |entries| ==> entries[i].0 != entries[j].0
  }

  predicate HasKey(entries: seq<(string, string)>, key: string)
  {
    exists i :: 0 <= i < |entries| && entries[i].0 == key
  }

  /** After a set the key is present with the new value, the map grows
      only for a new key, and every entry under another key is kept. */
  lemma {:induction false} SetEntryContents(entries: seq<(string, string)>, key: string, value: string)
    ensures |SetEntry(entries, key, value)| == if HasKey(entries, key) then |entries| else |entries| + 1
    ensures (key, value) in SetEntry(entries, key, value)
    ensures forall e :: e in entries && e.0 != key ==> e in SetEntry(entries, key, value)
    ensures forall e :: e in SetEntry(entries, key, value) ==> e == (key, value) || e in entries
    decreases |entries|
  {
    if entries != [] && entries[0].0 != key {
      var rest := entries[1..];
      SetEntryContents(rest, key, value);
      assert SetEntry(entries, key, value) == [entries[0]] + SetEntry(rest, key, value);
      assert entries == [entries[0]] + rest;
      assert HasKey(entries, key) <==> HasKey(rest, key) by {
        if HasKey(entries, key) {
          var i :| 0 <= i < |entries| && entries[i].0 == key;
          assert rest[i - 1].0 == key;
        }
        if HasKey(rest, key) {
          var i :| 0 <= i < |rest| && rest[i].0 == key;
          assert entries[i + 1].0 == key;
        }
      }
    } else if entries != [] {
      assert HasKey(entries, key) by { assert entries[0].0 == key; }
      var r := SetEntry(entries, key, value);
      forall e | e in entries && e.0 != key
        ensures e in r
      {
        var j :| 0 <= j < |entries| && entries[j] == e;
        assert j > 0 && r[j] == e;
      }
    }
  }

  /** A set keeps the keys distinct: the key is present with the new
      value exactly once. */
  lemma {:induction false} SetEntryProperties(entries: seq<(string, string)>, key: string, value: string)
    requires DistinctKeys(entries)
    ensures DistinctKeys(SetEntry(entries, key, value))
    ensures (key, value) in SetEntry(entries, key, value)
    decreases |entries|
  {
    SetEntryContents(entries, key, value);
    if entries != [] && entries[0].0 != key {
      var rest := entries[1..];
      SetEntryProperties(rest, key, value);
      SetEntryContents(rest, key, value);
      assert SetEntry(entries, key, value) == [entries[0]] + SetEntry(rest, key, value);
      forall e | e in SetEntry(rest, key, value)
        ensures e.0 != entries[0].0
      {
        if e != (key, value) {
          var j :| 0 <= j < |rest| && rest[j] == e;
          assert entries[j + 1] == e;
        }
      }
    } else if entries != [] {
      var r := SetEntry(entries, key, value);
      forall i, j | 0 <= i < j < |r|
        ensures r[i].0 != r[j].0
      {
        assert r[j] == entries[j];
        if i > 0 {
          assert r[i] == entries[i];
        }
      }
    }
  }

  /** Every entry with another key stays at its index, and a new key is
      appended after all the others. */
  lemma {:induction false} SetEntryKeepsPlaces(entries: seq<(string, string)>, key: string, value: string)
    ensures forall i :: 0 <= i < |entries| && entries[i].0 != key ==> SetEntry(entries, key, value)[i] == entries[i]
    ensures !HasKey(entries, key) ==> SetEntry(entries, key, value) == entries + [(key, value)]
    decreases |entries|
  {
    if entries != [] && entries[0].0 != key {
      var rest := entries[1..];
      SetEntryKeepsPlaces(rest, key, value);
      assert entries == [entries[0]] + rest;
      forall i | 0 <= i < |entries| && entries[i].0 != key
        ensures SetEntry(entries, key, value)[i] == entries[i]
      {
        if i > 0 {
          assert entries[i] == rest[i - 1];
        }
      }
    } else if entries != [] {
      assert HasKey(entries, key) by { assert entries[0].0 == key; }
    }
  }

  /** The first auto-response whose trigger occurs in `content`. */
  function FirstTrigger(entries: seq<(string, string)>, content: string): (r: Option<nat>)
    ensures r.None? <==> forall j :: 0 <= j < |entries| ==> !Contains(content, entries[j].0)
    ensures r.Some? ==> r.value < |entries| && Contains(content, entries[r.value].0)
    ensures r.Some? ==> forall j :: 0 <= j < r.value ==> !Contains(content, entries[j].0)
    decreases |entries|
  {
    if entries == [] then None
    else if Contains(content, entries[0].0) then Some(0)
    else match FirstTrigger(entries[1..], content)
      case None => None
      case Some(i) => Some(i + 1)
  }

  /** The command key of a message that starts with the prefix: the
      prefix and the first word after it, lower-cased. `rest` is the
      original text after the prefix. */
  function CommandKey(prefix: string, rest: string): (r: string)
    ensures StartsWith(r, prefix)
    ensures |r| <= |prefix| + |rest|
  {
    prefix + Lower(FirstWord(Trim(rest)))
  }

  /** `executeCommand`: the rendered response, or the error reply when
      rendering throws because the message has no server. */
  function ExecuteCommand(msg: Message, c: Command, prefix: string): (r: string)
    ensures msg.guild.None? ==> r == ErrorReply
    ensures msg.guild.Some? && HasNoResponseTokens(c.response) ==> r == c.response
  {
    match msg.guild
    case None => ErrorReply
    case Some(g) => RenderResponse(c.response, msg.author.username, msg.author.id, g.name, prefix)
  }

  /** The reply `handleMessage` sends, as written: none to a bot; the
      response of the first auto-response whose trigger occurs in the
      lower-cased text; otherwise, when the lower-cased text starts with
      the prefix, the command under the key, if there is one. */
  function Respond(commands: map<string, Command>, autoResponses: seq<(string, string)>,
                   prefix: string, msg: Message): Option<string>
  {
    if msg.author.bot then None
    else
      var content := Lower(msg.content);
      match FirstTrigger(autoResponses, content)
      case Some(i) => Some(autoResponses[i].1)
      case None =>
        if StartsWith(content, prefix) then
          var key := CommandKey(prefix, msg.content[|prefix|..]);
          if key in commands then Some(ExecuteCommand(msg, commands[key], prefix)) else None
        else None
  }

  /** What the dispatch answers: nothing to a bot; the first auto-response
      whose trigger occurs in the lower-cased text; otherwise, when that
      text starts with the prefix, the command under the key if there is
      one, else nothing; and nothing when neither applies. */
  lemma RespondCases(commands: map<string, Command>, autoResponses: seq<(string, string)>,
                     prefix: string, msg: Message)
    ensures msg.author.bot ==> Respond(commands, autoResponses, prefix, msg).None?
    ensures var content := Lower(msg.content);
      !msg.author.bot && (exists j :: 0 <= j < |autoResponses| && Contains(content, autoResponses[j].0)) ==>
      exists j :: 0 <= j < |autoResponses| && Respond(commands, autoResponses, prefix, msg) == Some(autoResponses[j].1)
        && Contains(content, autoResponses[j].0)
        && forall k :: 0 <= k < j ==> !Contains(content, autoResponses[k].0)
    ensures var content := Lower(msg.content);
      !StartsWith(content, prefix) && (forall j :: 0 <= j < |autoResponses| ==> !Contains(content, autoResponses[j].0))
      ==> Respond(commands, autoResponses, prefix, msg).None?
    ensures var content := Lower(msg.content);
      (!msg.author.bot && StartsWith(content, prefix)
       && (forall j :: 0 <= j < |autoResponses| ==> !Contains(content, autoResponses[j].0))) ==>
      var key := CommandKey(prefix, msg.content[|prefix|..]);
      Respond(commands, autoResponses, prefix, msg)
        == if key in commands then Some(ExecuteCommand(msg, commands[key], prefix)) else None
  {
  }

  /** The generated `CommandHandler`. */
  class CommandHandler {
    var commands: map<string, Command>
    /** The `autoResponses` Map, in insertion order. */
    var autoResponses: seq<(string, string)>
    const prefix: string

    /** `new CommandHandler()`: an empty auto-response map and the
        commands of the configuration loaded. */
    constructor(config: BotConfig)
      ensures prefix == config.prefix
      ensures commands == Registered(map[], config.commands)
      ensures autoResponses == []
    {
      prefix := config.prefix;
      commands := map[];
      autoResponses := [];
      new;
      LoadCommands(config.commands);
    }

    /** `loadCommands`: registers every enabled command under its
        lower-cased name. */
    method LoadCommands(cmds: seq<Command>)
      modifies this
      ensures commands == Registered(old(commands), cmds)
      ensures autoResponses == old(autoResponses)
    {
      for i := 0 to |cmds|
        invariant commands == Registered(old(commands), cmds[..i])
        invariant autoResponses == old(autoResponses)
      {
        assert cmds[..i + 1][..i] == cmds[..i];
        var c := cmds[i];
        if c.enabled {
          commands := commands[Lower(c.name) := c];
        }
      }
      assert cmds[..|cmds|] == cmds;
    }

    /** `addAutoResponse(trigger, response, caseSensitive)`: the trigger
        is stored lower-cased unless case-sensitive; an existing trigger
        gets the new response. */
    method AddAutoResponse(trigger: string, response: string, caseSensitive: bool)
      modifies this
      ensures autoResponses == SetEntry(old(autoResponses), if caseSensitive then trigger else Lower(trigger), response)
      ensures commands == old(commands)
    {
      var key := if caseSensitive then trigger else Lower(trigger);
      autoResponses := SetEntry(autoResponses, key, response);
    }

    /** `handleMessage`: the auto-responses are tried in order with an
        early return, then the prefix and the command table. */
    method HandleMessage(msg: Message) returns (reply: Option<string>)
      ensures reply == Respond(commands, autoResponses, prefix, msg)
    {
      if msg.author.bot {
        return None;
      }
      var content := Lower(msg.content);
      var i := 0;
      while i < |autoResponses|
        invariant 0 <= i <= |autoResponses|
        invariant forall j :: 0 <= j < i ==> !Contains(content, autoResponses[j].0)
      {
        if Contains(content, autoResponses[i].0) {
          return Some(autoResponses[i].1);
        }
        i := i + 1;
      }
      reply := None;
      if StartsWith(content, prefix) {
        var key := CommandKey(prefix, msg.content[|prefix|..]);
        if key in commands {
          reply := Some(ExecuteCommand(msg, commands[key], prefix));
        }
      }
    }
  }

  // ---------------------------------------------------------------------
  // A prefix with an upper-case letter
  // ---------------------------------------------------------------------

  /** With the prefix `E!` and the command `E!help`, the message `E!help`
      gets no reply: the text is lower-cased before it is compared with
      the prefix, which is not. */
  lemma UppercasePrefixBlocksCommands()
    ensures var cmds := [Command("E!help", true, "Help", "E!help", "Hi")];
            var msg := Message(Author("1", "u", "u#1", false), "E!help", Some(Guild("S", 1)));
            "e!help" in Registered(map[], cmds)
            && Respond(Registered(map[], cmds), [], "E!", msg).None?
  {
    var cmds := [Command("E!help", true, "Help", "E!help", "Hi")];
    assert cmds[..0] == [];
    assert Lower("E!help") == "e!help";
    assert Lower("E!help")[0] != "E!"[0];
  }

  /** The text is lower-cased before the triggers are looked for, so an
      auto-response added as case-sensitive with an upper-case letter in
      its trigger never fires. */
  lemma CaseSensitiveUpperTriggerNeverFires(trigger: string, content: string, i: nat)
    requires i < |trigger| && 'A' <= trigger[i] <= 'Z'
    ensures !Contains(Lower(content), trigger)
  {
  }

  /** The dispatch with the prefix lower-cased as well, so that it is
      compared with, and keyed like, the lower-cased text. */
  function RespondCaseInsensitive(commands: map<string, Command>, autoResponses: seq<(string, string)>,
                                  prefix: string, msg: Message): (r: Option<string>)
    ensures msg.author.bot ==> r.None?
    ensures Lower(prefix) == prefix ==> r == Respond(commands, autoResponses, prefix, msg)
  {
    if msg.author.bot then None
    else
      var content := Lower(msg.content);
      var p := Lower(prefix);
      match FirstTrigger(autoResponses, content)
      case Some(i) => Some(autoResponses[i].1)
      case None =>
        if StartsWith(content, p) then
          var key := CommandKey(p, msg.content[|p|..]);
          if key in commands then Some(ExecuteCommand(msg, commands[key], prefix)) else None
        else None
  }

  predicate NoSpace(w: string)
  {
    forall i :: 0 <= i < |w| ==> !IsSpace(w[i])
  }

  lemma {:induction false} FirstWordOfWord(w: string)
    requires NoSpace(w)
    ensures FirstWord(w) == w
    decreases |w|
  {
    if w != [] {
      FirstWordOfWord(w[1..]);
    }
  }

  lemma TrimWord(w: string)
    requires NoSpace(w)
    ensures Trim(w) == w
  {
    if w != [] {
      assert !IsSpace(w[0]) && !IsSpace(w[|w| - 1]);
    }
  }

  /** With the corrected dispatch every enabled command the panel can
      create is reachable: a message that is exactly the command's name
      gets the command's response, whatever the letter case of the prefix,
      provided no auto-response fires and no later command shares the name. */
  lemma RegisteredCommandAnswers(cmds: seq<Command>, i: nat, prefix: string, word: string, msg: Message)
    requires i < |cmds| && cmds[i].enabled
    requires forall j :: i < j < |cmds| ==> !RegistersUnder(cmds[j], Lower(cmds[i].name))
    requires cmds[i].name == prefix + word && NoSpace(word)
    requires !msg.author.bot && msg.content == cmds[i].name
    ensures RespondCaseInsensitive(Registered(map[], cmds), [], prefix, msg)
         == Some(ExecuteCommand(msg, cmds[i], prefix))
  {
    RegisteredLastWins(cmds, i);
    NameKey(prefix, word);
    var content := Lower(msg.content);
    var p := Lower(prefix);
    assert StartsWith(content, p) by {
      LowerAppend(prefix, word);
      assert content[..|p|] == p;
    }
  }

  /** A name made of the prefix and one word is looked up under its own
      lower-cased text. */
  lemma NameKey(prefix: string, word: string)
    requires NoSpace(word)
    ensures CommandKey(Lower(prefix), (prefix + word)[|prefix|..]) == Lower(prefix + word)
  {
    assert (prefix + word)[|prefix|..] == word;
    TrimWord(word);
    FirstWordOfWord(word);
    LowerAppend(prefix, word);
  }

  /** As written, the same holds when the prefix has no upper-case
      letter: the defect is confined to such prefixes. */
  lemma RegisteredCommandAnswersLowerPrefix(cmds: seq<Command>, i: nat, prefix: string, word: string, msg: Message)
    requires i < |cmds| && cmds[i].enabled
    requires forall j :: i < j < |cmds| ==> !RegistersUnder(cmds[j], Lower(cmds[i].name))
    requires cmds[i].name == prefix + word && NoSpace(word) && Lower(prefix) == prefix
    requires !msg.author.bot && msg.content == cmds[i].name
    ensures Respond(Registered(map[], cmds), [], prefix, msg) == Some(ExecuteCommand(msg, cmds[i], prefix))
  {
    RegisteredCommandAnswers(cmds, i, prefix, word, msg);
  }

  // ---------------------------------------------------------------------
  // Roles
  // ---------------------------------------------------------------------

  /** A purchase as `updateUserRoles` reads it. */
  datatype BotPurchase = BotPurchase(kind: string, price: real)

  predicate IsPremium(p: BotPurchase)
  {
    p.kind == "lifetime" || p.price >= 10.0
  }

  /** `purchases.some(p => p.type === 'lifetime' || p.price >= 10)` */
  function HasPremium(ps: seq<BotPurchase>): (r: bool)
    ensures r <==> exists i :: 0 <= i < |ps| && IsPremium(ps[i])
    decreases |ps|
  {
    if ps == [] then false
    else IsPremium(ps[0]) || HasPremium(ps[1..])
  }

  /** `config.roles[roleType]`; an unknown type reads as no role. */
  function RoleId(roles: Roles, roleType: string): (r: string)
    ensures roleType != "customer" && roleType != "premium" && roleType != "admin" && roleType != "mod" ==> r == ""
  {
    if roleType == "customer" then roles.customer
    else if roleType == "premium" then roles.premium
    else if roleType == "admin" then roles.admin
    else if roleType == "mod" then roles.mod
    else ""
  }

  /** `assignRole`: false without a configured role id, before any
      Discord call; otherwise whether the role was found and added. */
  function AssignRole(roles: Roles, roleType: string, added: bool): (r: bool)
    ensures RoleId(roles, roleType) == "" ==> !r
    ensures r <==> RoleId(roles, roleType) != "" && added
  {
    if RoleId(roles, roleType) == "" then false else added
  }

  /** The role types `updateUserRoles` asks for, in order. */
  function RolesToAssign(autoAssignRoles: bool, ps: seq<BotPurchase>): (r: seq<string>)
    ensures "customer" in r <==> autoAssignRoles
    ensures "premium" in r <==> exists i :: 0 <= i < |ps| && IsPremium(ps[i])
    ensures |r| <= 2
  {
    (if autoAssignRoles then ["customer"] else []) + (if HasPremium(ps) then ["premium"] else [])
  }

  // ---------------------------------------------------------------------
  // The README command list
  // ---------------------------------------------------------------------

  predicate IsEnabled(c: Command)
  {
    c.enabled
  }

  function CommandLine(c: Command): string
  {
    "- " + c.name + ": " + c.description
  }

  function CommandLines(cmds: seq<Command>): (r: seq<string>)
    ensures |r| == |cmds|
    ensures forall i :: 0 <= i < |cmds| ==> r[i] == CommandLine(cmds[i])
  {
    seq(|cmds|, i requires 0 <= i < |cmds| => CommandLine(cmds[i]))
  }

  /** The `## Commands` section of the generated README. */
  function CommandList(cmds: seq<Command>): (r: string)
    ensures Filter(cmds, IsEnabled) == [] ==> r == ""
    ensures Filter(cmds, IsEnabled) != [] ==> StartsWith(r, "- " + Filter(cmds, IsEnabled)[0].name + ": ")
  {
    Join(CommandLines(Filter(cmds, IsEnabled)), '\n')
  }

  lemma CommandLineSingle(c: Command)
    requires '\n' !in c.name && '\n' !in c.description
    ensures '\n' !in CommandLine(c)
  {
  }

  /** When names and descriptions are single lines and some command is
      enabled, the list has exactly one line per enabled command, in the
      configuration's order. */
  lemma CommandListLines(cmds: seq<Command>)
    requires exists i :: 0 <= i < |cmds| && cmds[i].enabled
    requires forall i :: 0 <= i < |cmds| ==> '\n' !in cmds[i].name && '\n' !in cmds[i].description
    ensures Split(CommandList(cmds), '\n') == CommandLines(Filter(cmds, IsEnabled))
  {
    var en := Filter(cmds, IsEnabled);
    var i :| 0 <= i < |cmds| && cmds[i].enabled;
    FilterMembers(cmds, IsEnabled, cmds[i]);
    assert |en| > 0;
    var lines := CommandLines(en);
    forall j | 0 <= j < |lines|
      ensures '\n' !in lines[j]
    {
      assert en[j] in en;
      var k :| 0 <= k < |cmds| && cmds[k] == en[j];
      CommandLineSingle(cmds[k]);
    }
    SplitJoin(lines, '\n');
  }

  /** With no enabled command the section is empty. */
  lemma CommandListEmpty(cmds: seq<Command>)
    requires forall i :: 0 <= i < |cmds| ==> !cmds[i].enabled
    ensures CommandList(cmds) == ""
  {
    FilterNone(cmds, IsEnabled);
  }
}
