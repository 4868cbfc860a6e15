/** The admin panel of the store (admin.js): the bot configuration the
    form handlers edit, its copy in browser storage, the activity log, the
    secrets kept in the session, and the dashboard counters.

    Times shown in the log are the `toLocaleString` text of the moment the
    entry was made (a parameter, `stamp`); reading such a text back as a
    time is the parameter `parseTime`. */
module Admin {
  import opened Common
  import opened Text
  import Ledger
  import DiscordAuth

  datatype Permissions = Permissions(
    manageRoles: bool, manageMessages: bool, kickMembers: bool, banMembers: bool,
    readMessages: bool, sendMessages: bool, embedLinks: bool, attachFiles: bool)

  datatype Channels = Channels(log: string, announce: string, welcome: string, support: string)

  datatype Roles = Roles(customer: string, premium: string, admin: string, mod: string)

  datatype Command = Command(name: string, enabled: bool, description: string, usage: string, response: string)

  datatype Automation = Automation(
    autoAssignRoles: bool, autoWelcome: bool, autoLogPurchases: bool, autoUpdateStatus: bool,
    welcomeMessage: string, purchaseMessage: string)

  datatype Webhooks = Webhooks(purchase: string, error: string, log: string)

  /** One log line; `kind` is `info`, `success`, `warning` or `error`. */
  datatype LogEntry = LogEntry(message: string, kind: string, timestamp: string)

  /** `botConfig` */
  datatype BotConfig = BotConfig(
    token: string,
    clientId: string,
    prefix: string,
    status: string,
    activity: string,
    permissions: Permissions,
    channels: Channels,
    roles: Roles,
    commands: seq<Command>,
    automation: Automation,
    webhooks: Webhooks,
    logs: seq<LogEntry>)

  const DefaultConfig := BotConfig(
    "", "", "!", "Managing ENM Store", "LISTENING",
    Permissions(true, true, false, false, true, true, true, true),
    Channels("", "", "", ""),
    Roles("", "", "", ""),
    [Command("!help", true, "Shows all available commands", "!help", "Here are the available commands..."),
     Command("!key", true, "Shows your active keys", "!key", "Your active keys..."),
     Command("!purchase", true, "Shows your purchase history", "!purchase", "Your purchase history..."),
     Command("!support", true, "Opens a support ticket", "!support [message]", "Support ticket created...")],
    Automation(true, true, true, true,
      "Welcome {user} to ENM Store! \U{1F389}\n\nCheck out our store: https://enm-store.netlify.app\nUse !help for commands",
      "\U{1F389} New purchase from {user}!\n\n**Item:** {item}\n**Amount:** {amount}\n**Transaction ID:** {transactionId}\n\nThank you for your support! \U{2764}\U{FE0F}"),
    Webhooks("", "", ""),
    [])

  // ---------------------------------------------------------------------
  // The stored copy and the two ways it is merged back
  // ---------------------------------------------------------------------

  /** A parsed JSON object read as a configuration: each top-level field
      may be present or not. Object spread copies the present ones. */
  datatype ConfigPatch = ConfigPatch(
    token: Option<string>,
    clientId: Option<string>,
    prefix: Option<string>,
    status: Option<string>,
    activity: Option<string>,
    permissions: Option<Permissions>,
    channels: Option<Channels>,
    roles: Option<Roles>,
    commands: Option<seq<Command>>,
    automation: Option<Automation>,
    webhooks: Option<Webhooks>,
    logs: Option<seq<LogEntry>>)

  /** What `enmBotConfig` holds: nothing, text that does not parse, or a
      parsed object. */
  datatype Saved = NothingSaved | Unreadable | SavedObject(patch: ConfigPatch)

  /** `JSON.parse(JSON.stringify(c))`: every field present. */
  function PatchOf(c: BotConfig): ConfigPatch
  {
    ConfigPatch(Some(c.token), Some(c.clientId), Some(c.prefix), Some(c.status), Some(c.activity),
      Some(c.permissions), Some(c.channels), Some(c.roles), Some(c.commands), Some(c.automation),
      Some(c.webhooks), Some(c.logs))
  }

  function Pick<T>(o: Option<T>, d: T): T
  {
    if o.Some? then o.value else d
  }

  /** `{ ...c, ...p }`: a shallow override, field by field. */
  function Override(c: BotConfig, p: ConfigPatch): (r: BotConfig)
    ensures p.token.Some? ==> r.token == p.token.value
    ensures p.token.None? ==> r.token == c.token
    ensures p.clientId.Some? ==> r.clientId == p.clientId.value
    ensures p.clientId.None? ==> r.clientId == c.clientId
    ensures p.prefix.Some? ==> r.prefix == p.prefix.value
    ensures p.prefix.None? ==> r.prefix == c.prefix
    ensures p.status.Some? ==> r.status == p.status.value
    ensures p.status.None? ==> r.status == c.status
    ensures p.activity.Some? ==> r.activity == p.activity.value
    ensures p.activity.None? ==> r.activity == c.activity
    ensures p.permissions.Some? ==> r.permissions == p.permissions.value
    ensures p.permissions.None? ==> r.permissions == c.permissions
    ensures p.channels.Some? ==> r.channels == p.channels.value
    ensures p.channels.None? ==> r.channels == c.channels
    ensures p.roles.Some? ==> r.roles == p.roles.value
    ensures p.roles.None? ==> r.roles == c.roles
    ensures p.commands.Some? ==> r.commands == p.commands.value
    ensures p.commands.None? ==> r.commands == c.commands
    ensures p.automation.Some? ==> r.automation == p.automation.value
    ensures p.automation.None? ==> r.automation == c.automation
    ensures p.webhooks.Some? ==> r.webhooks == p.webhooks.value
    ensures p.webhooks.None? ==> r.webhooks == c.webhooks
    ensures p.logs.Some? ==> r.logs == p.logs.value
    ensures p.logs.None? ==> r.logs == c.logs
  {
    BotConfig(Pick(p.token, c.token), Pick(p.clientId, c.clientId), Pick(p.prefix, c.prefix),
      Pick(p.status, c.status), Pick(p.activity, c.activity), Pick(p.permissions, c.permissions),
      Pick(p.channels, c.channels), Pick(p.roles, c.roles), Pick(p.commands, c.commands),
      Pick(p.automation, c.automation), Pick(p.webhooks, c.webhooks), Pick(p.logs, c.logs))
  }

  /** The copy `saveConfig` writes: everything but the two secrets. */
  function Stripped(c: BotConfig): (r: BotConfig)
    ensures r.token == "" && r.clientId == ""
  {
    c.(token := "", clientId := "")
  }

  /** `a || b || ''` for a present string and an optional stored one. */
  function FirstTruthy(a: string, b: Option<string>): (r: string)
    ensures a != "" ==> r == a
    ensures a == "" ==> r == Pick(b, "")
  {
    if a != "" then a else if b.Some? then b.value else ""
  }

  /** The merge of `loadConfig`: stored fields override the current ones,
      except that a non-empty secret already in memory is kept. */
  function MergeStored(c: BotConfig, p: ConfigPatch): (r: BotConfig)
    ensures c.token != "" ==> r.token == c.token
    ensures c.clientId != "" ==> r.clientId == c.clientId
    ensures c.token == "" ==> r.token == Pick(p.token, "")
    ensures c.clientId == "" ==> r.clientId == Pick(p.clientId, "")
    ensures Stripped(r) == Stripped(Override(c, p))
  {
    Override(c, p).(token := FirstTruthy(c.token, p.token), clientId := FirstTruthy(c.clientId, p.clientId))
  }

  /** Loading what was saved gives the saved configuration back, with the
      secrets that are in memory. */
  lemma SavedConfigLoadsBack(saved: BotConfig, current: BotConfig)
    ensures MergeStored(current, PatchOf(Stripped(saved)))
         == saved.(token := current.token, clientId := current.clientId)
  {
  }

  /** Saving and at once loading again changes nothing. */
  lemma ReloadAfterSave(c: BotConfig)
    ensures MergeStored(c, PatchOf(Stripped(c))) == c
  {
    SavedConfigLoadsBack(c, c);
  }

  /** A backup file (`JSON.stringify(botConfig)`, secrets included)
      imported over any configuration restores it entirely: unlike the
      stored copy, the backup carries the token. */
  lemma BackupImportRestores(current: BotConfig, backup: BotConfig)
    ensures Override(current, PatchOf(backup)) == backup
  {
  }

  // ---------------------------------------------------------------------
  // Logs
  // ---------------------------------------------------------------------

  const MaxLogs := 1000
  const WeekMs := 7 * 24 * 60 * 60 * 1000

  /** The list `addLog` leaves: the new entry first, then the earlier ones
      in order, cut to the first 1000. */
  function PushLog(logs: seq<LogEntry>, e: LogEntry): (r: seq<LogEntry>)
    ensures |r| == if |logs| < MaxLogs then |logs| + 1 else MaxLogs
    ensures r[0] == e
    ensures forall i :: 1 <= i < |r| ==> r[i] == logs[i - 1]
  {
    var all := [e] + logs;
    if |all| > MaxLogs then all[..MaxLogs] else all
  }

  /** The purge keeps an entry whose time text reads as a time later than
      a week before `now`; a text that does not read as a time (an invalid
      date) compares false and is dropped. */
  predicate IsRecent(parseTime: string -> Option<int>, now: int, e: LogEntry)
  {
    var t := parseTime(e.timestamp);
    t.Some? && t.value > now - WeekMs
  }

  function RecentLogs(logs: seq<LogEntry>, parseTime: string -> Option<int>, now: int): (r: seq<LogEntry>)
    ensures |r| <= |logs|
  {
    Filter(logs, e => IsRecent(parseTime, now, e))
  }

  /** The purge keeps exactly the recent entries. */
  lemma RecentLogsMembers(logs: seq<LogEntry>, parseTime: string -> Option<int>, now: int, e: LogEntry)
    ensures e in RecentLogs(logs, parseTime, now) <==> e in logs && IsRecent(parseTime, now, e)
  {
    FilterMembers(logs, e => IsRecent(parseTime, now, e), e);
  }

  /** The purge keeps the kept entries in their order: purging a list made
      of two parts purges each part. */
  lemma RecentLogsAppend(a: seq<LogEntry>, b: seq<LogEntry>, parseTime: string -> Option<int>, now: int)
    ensures RecentLogs(a + b, parseTime, now) == RecentLogs(a, parseTime, now) + RecentLogs(b, parseTime, now)
  {
    FilterAppend(a, b, e => IsRecent(parseTime, now, e));
  }

  /** Purging a purged list removes nothing more. */
  lemma RecentLogsIdempotent(logs: seq<LogEntry>, parseTime: string -> Option<int>, now: int)
    ensures RecentLogs(RecentLogs(logs, parseTime, now), parseTime, now) == RecentLogs(logs, parseTime, now)
  {
    var p := e => IsRecent(parseTime, now, e);
    var r := Filter(logs, p);
    forall i | 0 <= i < |r|
      ensures p(r[i])
    {
      assert r[i] in r;
    }
    FilterAll(r, p);
  }

  // ---------------------------------------------------------------------
  // Form checks
  // ---------------------------------------------------------------------

  /** The name a new command is stored under: unchanged when it already
      starts with the prefix, else prefixed. */
  function PrefixedName(prefix: string, name: string): (r: string)
    ensures StartsWith(r, prefix)
    ensures StartsWith(name, prefix) ==> r == name
    ensures !StartsWith(name, prefix) ==> r == prefix + name
  {
    if StartsWith(name, prefix) then name
    else
      assert (prefix + name)[..|prefix|] == prefix;
      prefix + name
  }

  /** Prefixing twice is prefixing once. */
  lemma PrefixedNameIdempotent(prefix: string, name: string)
    ensures PrefixedName(prefix, PrefixedName(prefix, name)) == PrefixedName(prefix, name)
  {
  }

  predicate IsHexDigit(c: char)
  {
    DigitValue(c) < 16
  }

  /** `/^#[0-9A-F]{6}$/i` */
  predicate IsHexColour(s: string)
  {
    |s| == 7 && s[0] == '#' && forall i | 1 <= i < 7 :: IsHexDigit(s[i])
  }

  /** The colour field's value after typing `typed`: taken when it is a
      hex colour, otherwise the picker keeps its colour. */
  function TypedColour(current: string, typed: string): (r: string)
    ensures IsHexColour(typed) ==> r == typed
    ensures !IsHexColour(typed) ==> r == current
  {
    if IsHexColour(typed) then typed else current
  }

  /** The check ignores letter case. */
  lemma HexColourIgnoresCase(s: string)
    ensures IsHexColour(Upper(s)) <==> IsHexColour(s)
  {
    UpperKeepsDigitValues(s);
    if |s| > 0 {
      assert Upper(s)[0] == '#' <==> s[0] == '#';
    }
  }

  /** `w` lower-case hex digits of `n`, zero-padded. */
  function HexDigits(n: nat, w: nat): (r: string)
    ensures |r| == w
    ensures forall i :: 0 <= i < w ==> IsHexDigit(r[i])
  {
    if w == 0 then []
    else
      DigitCharValue(n % 16);
      HexDigits(n / 16, w - 1) + [DigitChar(n % 16)]
  }

  /** The value a colour picker reports for a 24-bit colour. */
  function FormatHexColour(rgb: nat): (r: string)
    requires rgb < 0x100_0000
    ensures IsHexColour(r)
  {
    "#" + HexDigits(rgb, 6)
  }

  /** A colour chosen with the picker, copied into the text field, is
      accepted back by the text field's check: the two inputs of the role
      form agree on every colour the picker can report. */
  lemma PickerColourAcceptedBack(current: string, rgb: nat)
    requires rgb < 0x100_0000
    ensures TypedColour(current, FormatHexColour(rgb)) == FormatHexColour(rgb)
    ensures IsHexColour(Upper(FormatHexColour(rgb)))
  {
    HexColourIgnoresCase(FormatHexColour(rgb));
  }

  datatype SetupOutcome = MissingField | PasswordMismatch | SetupAccepted

  /** The initial-setup dialog's checks, in their order. */
  function ValidateSetup(token: string, clientId: string, password: string, confirm: string): (r: SetupOutcome)
    ensures r == SetupAccepted <==> token != "" && clientId != "" && password != "" && password == confirm
    ensures r == MissingField <==> token == "" || clientId == "" || password == ""
  {
    if token == "" || clientId == "" || password == "" then MissingField
    else if password != confirm then PasswordMismatch
    else SetupAccepted
  }

  /** `botConfig.webhooks[type]`; an unknown type reads as nothing. */
  function WebhookUrl(w: Webhooks, kind: string): (r: string)
    ensures kind != "purchase" && kind != "error" && kind != "log" ==> r == ""
  {
    if kind == "purchase" then w.purchase
    else if kind == "error" then w.error
    else if kind == "log" then w.log
    else ""
  }

  // ---------------------------------------------------------------------
  // Dashboard counters
  // ---------------------------------------------------------------------

  predicate IsCompleted(t: Ledger.Transaction)
  {
    t.status == Ledger.Completed
  }

  /** The `expiry` property `updateStats` reads from a stored purchase.
      `recordPurchase` never writes one: it is always absent. */
  function PurchaseExpiry(p: DiscordAuth.Purchase): Option<DiscordAuth.Moment>
  {
    None
  }

  /** The filter of `updateStats`: no expiry, or an expiry still ahead. */
  predicate CountsAsActive(now: DiscordAuth.Moment, p: DiscordAuth.Purchase)
  {
    PurchaseExpiry(p).None? || DiscordAuth.Before(now, PurchaseExpiry(p).value)
  }

  function ActiveCount(s: seq<DiscordAuth.Purchase>, now: DiscordAuth.Moment): (r: nat)
    ensures r <= |s|
    decreases |s|
  {
    if s == [] then 0
    else (if CountsAsActive(now, s[0]) then 1 else 0) + ActiveCount(s[1..], now)
  }

  /** Every stored purchase counts as an active key, expired or not. */
  lemma {:induction false} EveryPurchaseCountsAsActive(s: seq<DiscordAuth.Purchase>, now: DiscordAuth.Moment)
    ensures ActiveCount(s, now) == |s|
    decreases |s|
  {
    if s != [] {
      EveryPurchaseCountsAsActive(s[1..], now);
    }
  }

  /** All purchases stored under `purchases_…` keys, in key order. */
  function AllPurchases(keys: seq<string>, stored: map<string, seq<DiscordAuth.Purchase>>): (r: seq<DiscordAuth.Purchase>)
    ensures forall x :: x in r ==>
      exists i :: 0 <= i < |keys| && StartsWith(keys[i], "purchases_") && x in Stored(stored, keys[i])
    ensures forall i :: 0 <= i < |keys| && StartsWith(keys[i], "purchases_") ==>
      forall x :: x in Stored(stored, keys[i]) ==> x in r
    decreases |keys|
  {
    if keys == [] then []
    else
      var last := keys[|keys| - 1];
      var init := keys[..|keys| - 1];
      var r := AllPurchases(init, stored)
        + (if StartsWith(last, "purchases_") then Stored(stored, last) else []);
      assert forall i :: 0 <= i < |init| ==> init[i] == keys[i];
      r
  }

  predicate IsTokenKey(k: string)
  {
    StartsWith(k, "discord_access_token")
  }

  /** The dashboard numbers `updateStats` shows (revenue aside). */
  datatype Stats = Stats(totalUsers: nat, totalPurchases: nat, activeKeys: nat)

  /** `updateStats`: `keys` are the storage keys in storage order and
      `stored` the purchase lists under them. */
  method UpdateStats(transactions: seq<Ledger.Transaction>, keys: seq<string>,
                     stored: map<string, seq<DiscordAuth.Purchase>>, now: DiscordAuth.Moment)
    returns (stats: Stats)
    ensures stats.totalPurchases == |Filter(transactions, IsCompleted)|
    ensures stats.activeKeys == ActiveCount(AllPurchases(keys, stored), now)
    ensures stats.activeKeys == |AllPurchases(keys, stored)|
    ensures stats.totalUsers == |Filter(keys, IsTokenKey)|
  {
    var completed := Filter(transactions, IsCompleted);
    var all: seq<DiscordAuth.Purchase> := [];
    var i := 0;
    while i < |keys|
      invariant 0 <= i <= |keys|
      invariant all == AllPurchases(keys[..i], stored)
    {
      assert keys[..i + 1][..i] == keys[..i];
      if StartsWith(keys[i], "purchases_") {
        all := all + Stored(stored, keys[i]);
      }
      i := i + 1;
    }
    assert keys[..i] == keys;
    EveryPurchaseCountsAsActive(all, now);
    stats := Stats(|Filter(keys, IsTokenKey)|, |completed|, ActiveCount(all, now));
  }

  // ---------------------------------------------------------------------
  // The panel
  // ---------------------------------------------------------------------

  /** The session-storage secrets: `discord_token`, `discord_client_id`,
      `admin_password`. */
  datatype Secrets = Secrets(token: Option<string>, clientId: Option<string>, password: Option<string>)

  predicate Complete(s: Secrets)
  {
    DiscordAuth.Truthy(s.token) && DiscordAuth.Truthy(s.clientId) && DiscordAuth.Truthy(s.password)
  }

  /** The secrets `loadSecrets` settles on: complete session secrets win,
      then complete secrets from the URL query; otherwise the session's
      stay as they were. */
  function ChosenSecrets(session: Secrets, fromUrl: Secrets): (r: Secrets)
    ensures Complete(r) <==> Complete(session) || Complete(fromUrl)
    ensures Complete(session) ==> r == session
    ensures !Complete(session) && Complete(fromUrl) ==> r == fromUrl
    ensures !Complete(r) ==> r == session
  {
    if Complete(session) then session else if Complete(fromUrl) then fromUrl else session
  }

  /** The configuration after `loadConfig`, from the one in memory and the
      stored copy. */
  function LoadedConfig(c: BotConfig, saved: Saved, stamp: string): BotConfig
  {
    match saved
    case NothingSaved => c
    case Unreadable => c.(logs := PushLog(c.logs, LogEntry("Failed to load configuration", "error", stamp)))
    case SavedObject(p) =>
      var m := MergeStored(c, p);
      m.(logs := PushLog(m.logs, LogEntry("Configuration loaded from storage", "success", stamp)))
  }

  /** The configuration after `loadSecrets` settled on `s`: complete
      secrets are copied in and logged, otherwise nothing changes. */
  function WithSecrets(c: BotConfig, s: Secrets, stamp: string): BotConfig
  {
    if Complete(s)
    then c.(token := s.token.value, clientId := s.clientId.value,
            logs := PushLog(c.logs, LogEntry("Secrets loaded from secure storage", "success", stamp)))
    else c
  }

  /** The page's state: `botConfig`, `ADMIN_PASSWORD`, the stored
      `enmBotConfig`, the session secrets and `adminLoggedIn`. */
  class AdminPanel {
    var config: BotConfig
    var adminPassword: string
    var saved: Saved
    var secrets: Secrets
    var loggedIn: bool

    /** The stored copy is the configuration without its secrets. */
    predicate Persisted()
      reads this
    {
      saved == SavedObject(PatchOf(Stripped(config)))
    }

    /** The page before its start-up handlers run: the default
        configuration and an empty admin password. */
    constructor(stored: Saved, session: Secrets, wasLoggedIn: bool)
      ensures config == DefaultConfig && adminPassword == ""
      ensures saved == stored && secrets == session && loggedIn == wasLoggedIn
    {
      config := DefaultConfig;
      adminPassword := "";
      saved := stored;
      secrets := session;
      loggedIn := wasLoggedIn;
    }

    /** The start-up sequence of the page: load the stored configuration,
        then the secrets; reopen the dashboard (logging the login) when the
        login flag is stored; log the start. Returns whether the setup
        dialog is shown. */
    method Start(fromUrl: Secrets, stamp: string) returns (promptSetup: bool)
      modifies this
      ensures secrets == ChosenSecrets(old(secrets), fromUrl)
      ensures Complete(secrets) ==> adminPassword == secrets.password.value
      ensures !Complete(secrets) ==> adminPassword == old(adminPassword)
      ensures var loaded := LoadedConfig(old(config), old(saved), stamp);
        promptSetup == (!Complete(secrets) && (loaded.token == "" || loaded.clientId == ""))
      ensures var withSecrets := WithSecrets(LoadedConfig(old(config), old(saved), stamp), secrets, stamp);
        var reopened := if old(loggedIn)
          then withSecrets.(logs := PushLog(withSecrets.logs, LogEntry("Admin logged in", "success", stamp)))
          else withSecrets;
        config == reopened.(logs := PushLog(reopened.logs, LogEntry("Admin panel initialized", "info", stamp)))
      ensures Complete(secrets) ==> config.token == secrets.token.value && config.clientId == secrets.clientId.value
      ensures |config.logs| > 0 && config.logs[0] == LogEntry("Admin panel initialized", "info", stamp)
      ensures Persisted()
      ensures loggedIn == old(loggedIn)
    {
      LoadConfig(stamp);
      promptSetup := LoadSecrets(fromUrl, stamp);
      if loggedIn {
        AddLog("Admin logged in", "success", stamp);
      }
      AddLog("Admin panel initialized", "info", stamp);
    }

    /** `saveConfig` */
    method SaveConfig()
      modifies this
      ensures Persisted()
      ensures config == old(config) && adminPassword == old(adminPassword)
      ensures secrets == old(secrets) && loggedIn == old(loggedIn)
    {
      saved := SavedObject(PatchOf(Stripped(config)));
    }

    /** `addLog(message, type)` */
    method AddLog(message: string, kind: string, stamp: string)
      modifies this
      ensures config == old(config).(logs := PushLog(old(config).logs, LogEntry(message, kind, stamp)))
      ensures Persisted()
      ensures adminPassword == old(adminPassword) && secrets == old(secrets) && loggedIn == old(loggedIn)
    {
      var logs := [LogEntry(message, kind, stamp)] + config.logs;
      if |logs| > MaxLogs {
        logs := logs[..MaxLogs];
      }
      config := config.(logs := logs);
      SaveConfig();
    }

    /** `loadConfig`: a parsed copy is merged in; a copy that does not
        parse is logged as a failure (and the log write replaces it). */
    method LoadConfig(stamp: string)
      modifies this
      ensures saved.NothingSaved? ==> config == old(config) && saved == old(saved)
      ensures old(saved).Unreadable? ==>
        config == old(config).(logs := PushLog(old(config).logs, LogEntry("Failed to load configuration", "error", stamp)))
      ensures old(saved).SavedObject? ==>
        var m := MergeStored(old(config), old(saved).patch);
        config == m.(logs := PushLog(m.logs, LogEntry("Configuration loaded from storage", "success", stamp)))
      ensures !old(saved).NothingSaved? ==> Persisted()
      ensures old(Persisted()) ==> Persisted()
      ensures config == LoadedConfig(old(config), old(saved), stamp)
      ensures adminPassword == old(adminPassword) && secrets == old(secrets) && loggedIn == old(loggedIn)
    {
      match saved
      case NothingSaved =>
      case Unreadable =>
        AddLog("Failed to load configuration", "error", stamp);
      case SavedObject(p) =>
        config := MergeStored(config, p);
        AddLog("Configuration loaded from storage", "success", stamp);
    }

    /** The backup upload: after confirmation, a file that parses is laid
        over the configuration, saved and loaded again; one that does not
        parse is logged. */
    method ImportConfig(confirmed: bool, parsed: Option<ConfigPatch>, stamp: string)
      modifies this
      ensures !confirmed ==> config == old(config) && saved == old(saved)
      ensures confirmed && parsed.None? ==>
        config == old(config).(logs := PushLog(old(config).logs, LogEntry("Failed to import configuration: Invalid file", "error", stamp)))
      ensures confirmed && parsed.Some? ==>
        var o := Override(old(config), parsed.value);
        config == o.(logs := PushLog(PushLog(o.logs,
          LogEntry("Configuration loaded from storage", "success", stamp)),
          LogEntry("Configuration imported successfully", "success", stamp)))
      ensures confirmed ==> Persisted()
      ensures adminPassword == old(adminPassword) && secrets == old(secrets) && loggedIn == old(loggedIn)
    {
      if confirmed {
        match parsed
        case None =>
          AddLog("Failed to import configuration: Invalid file", "error", stamp);
        case Some(p) =>
          config := Override(config, p);
          ReloadAfterSave(config);
          SaveConfig();
          LoadConfig(stamp);
          AddLog("Configuration imported successfully", "success", stamp);
      }
    }

    /** The add-command dialog: rejected, with nothing changed, when the
        name, description or response is empty; otherwise one command is
        appended under its prefixed name. */
    method AddCommand(name: string, description: string, usage: string, response: string,
                      enabled: bool, stamp: string)
      returns (accepted: bool)
      modifies this
      ensures accepted <==> name != "" && description != "" && response != ""
      ensures !accepted ==> config == old(config) && saved == old(saved)
      ensures accepted ==>
        config == old(config).(
          commands := old(config).commands
            + [Command(PrefixedName(old(config).prefix, name), enabled, description, usage, response)],
          logs := PushLog(old(config).logs, LogEntry("Added new command: " + name, "success", stamp)))
      ensures accepted ==> Persisted()
      ensures adminPassword == old(adminPassword) && secrets == old(secrets) && loggedIn == old(loggedIn)
    {
      if name == "" || description == "" || response == "" {
        return false;
      }
      var command := Command(PrefixedName(config.prefix, name), enabled, description, usage, response);
      config := config.(commands := config.commands + [command]);
      SaveConfig();
      AddLog("Added new command: " + name, "success", stamp);
      accepted := true;
    }

    /** The panel's auto-response form: rejected when the trigger or the
        message is empty; otherwise it is only logged (the configuration
        has no auto-response list). */
    method AddAutoResponse(trigger: string, message: string, stamp: string) returns (accepted: bool)
      modifies this
      ensures accepted <==> trigger != "" && message != ""
      ensures !accepted ==> config == old(config) && saved == old(saved)
      ensures accepted ==>
        config == old(config).(logs := PushLog(old(config).logs, LogEntry("Added auto-response for: " + trigger, "success", stamp)))
        && Persisted()
      ensures adminPassword == old(adminPassword) && secrets == old(secrets) && loggedIn == old(loggedIn)
    {
      if trigger == "" || message == "" {
        return false;
      }
      AddLog("Added auto-response for: " + trigger, "success", stamp);
      accepted := true;
    }

    /** The create-role button: refused, with nothing changed, without a
        role name or while no bot token is set; otherwise the (simulated)
        creation is only logged. The colour, permissions and flags on the
        form are read but not used. */
    method CreateRole(roleName: string, stamp: string) returns (created: bool)
      modifies this
      ensures created <==> roleName != "" && old(config).token != ""
      ensures !created ==> config == old(config) && saved == old(saved)
      ensures created ==>
        config == old(config).(logs := PushLog(old(config).logs, LogEntry("Created new role: " + roleName, "success", stamp)))
        && Persisted()
      ensures adminPassword == old(adminPassword) && secrets == old(secrets) && loggedIn == old(loggedIn)
    {
      if roleName == "" || config.token == "" {
        return false;
      }
      AddLog("Created new role: " + roleName, "success", stamp);
      created := true;
    }

    /** The backup download: the whole configuration, secrets included,
        as it was before the export is logged. */
    method ExportConfig(stamp: string) returns (backup: BotConfig)
      modifies this
      ensures backup == old(config)
      ensures backup.token == old(config).token && backup.clientId == old(config).clientId
      ensures config == old(config).(logs := PushLog(old(config).logs, LogEntry("Configuration exported", "success", stamp)))
      ensures Persisted()
      ensures adminPassword == old(adminPassword) && secrets == old(secrets) && loggedIn == old(loggedIn)
    {
      backup := config;
      AddLog("Configuration exported", "success", stamp);
    }

    /** The backup-schedule form only logs the chosen schedule. */
    method SaveBackupSchedule(schedule: string, stamp: string)
      modifies this
      ensures config == old(config).(logs := PushLog(old(config).logs, LogEntry("Backup schedule set to: " + schedule, "success", stamp)))
      ensures Persisted()
      ensures adminPassword == old(adminPassword) && secrets == old(secrets) && loggedIn == old(loggedIn)
    {
      AddLog("Backup schedule set to: " + schedule, "success", stamp);
    }

    /** The bot-settings form: token, client id, prefix, status, activity
        and permissions are taken, saved, and the secrets copied to the
        session. */
    method SaveBotSettings(token: string, clientId: string, prefix: string, status: string,
                           activity: string, permissions: Permissions, stamp: string)
      modifies this
      ensures config == old(config).(token := token, clientId := clientId, prefix := prefix,
        status := status, activity := activity, permissions := permissions,
        logs := PushLog(old(config).logs, LogEntry("Bot settings saved", "success", stamp)))
      ensures token != "" && clientId != "" ==>
        secrets == old(secrets).(token := Some(token), clientId := Some(clientId))
      ensures token == "" || clientId == "" ==> secrets == old(secrets)
      ensures Persisted()
      ensures adminPassword == old(adminPassword) && loggedIn == old(loggedIn)
    {
      config := config.(token := token, clientId := clientId, prefix := prefix,
        status := status, activity := activity, permissions := permissions);
      SaveConfig();
      SaveSecrets();
      AddLog("Bot settings saved", "success", stamp);
    }

    /** The channel form. */
    method SaveChannels(channels: Channels, stamp: string)
      modifies this
      ensures config == old(config).(channels := channels,
        logs := PushLog(old(config).logs, LogEntry("Channel settings saved", "success", stamp)))
      ensures Persisted()
      ensures adminPassword == old(adminPassword) && secrets == old(secrets) && loggedIn == old(loggedIn)
    {
      config := config.(channels := channels);
      SaveConfig();
      AddLog("Channel settings saved", "success", stamp);
    }

    /** The role form. */
    method SaveRoles(roles: Roles, stamp: string)
      modifies this
      ensures config == old(config).(roles := roles,
        logs := PushLog(old(config).logs, LogEntry("Role settings saved", "success", stamp)))
      ensures Persisted()
      ensures adminPassword == old(adminPassword) && secrets == old(secrets) && loggedIn == old(loggedIn)
    {
      config := config.(roles := roles);
      SaveConfig();
      AddLog("Role settings saved", "success", stamp);
    }

    /** The automation form. */
    method SaveAutomation(automation: Automation, stamp: string)
      modifies this
      ensures config == old(config).(automation := automation,
        logs := PushLog(old(config).logs, LogEntry("Automation settings saved", "success", stamp)))
      ensures Persisted()
      ensures adminPassword == old(adminPassword) && secrets == old(secrets) && loggedIn == old(loggedIn)
    {
      config := config.(automation := automation);
      SaveConfig();
      AddLog("Automation settings saved", "success", stamp);
    }

    /** The webhook form. */
    method SaveWebhooks(webhooks: Webhooks, stamp: string)
      modifies this
      ensures config == old(config).(webhooks := webhooks,
        logs := PushLog(old(config).logs, LogEntry("Webhook settings saved", "success", stamp)))
      ensures Persisted()
      ensures adminPassword == old(adminPassword) && secrets == old(secrets) && loggedIn == old(loggedIn)
    {
      config := config.(webhooks := webhooks);
      SaveConfig();
      AddLog("Webhook settings saved", "success", stamp);
    }

    /** "Clear logs older than 7 days": after confirmation only the recent
        entries stay, then the purge itself is logged. */
    method PurgeOldLogs(confirmed: bool, now: int, parseTime: string -> Option<int>, stamp: string)
      modifies this
      ensures !confirmed ==> config == old(config) && saved == old(saved)
      ensures confirmed ==>
        config == old(config).(logs := PushLog(RecentLogs(old(config).logs, parseTime, now),
                                               LogEntry("Cleared old logs", "success", stamp)))
      ensures confirmed ==> Persisted()
      ensures adminPassword == old(adminPassword) && secrets == old(secrets) && loggedIn == old(loggedIn)
    {
      if confirmed {
        config := config.(logs := RecentLogs(config.logs, parseTime, now));
        SaveConfig();
        AddLog("Cleared old logs", "success", stamp);
      }
    }

    /** "Clear all logs": only the entry recording the clearing is left. */
    method ClearAllLogs(confirmed: bool, stamp: string)
      modifies this
      ensures !confirmed ==> config == old(config) && saved == old(saved)
      ensures confirmed ==> config == old(config).(logs := [LogEntry("All logs cleared", "warning", stamp)])
      ensures confirmed ==> Persisted()
      ensures adminPassword == old(adminPassword) && secrets == old(secrets) && loggedIn == old(loggedIn)
    {
      if confirmed {
        config := config.(logs := []);
        SaveConfig();
        AddLog("All logs cleared", "warning", stamp);
      }
    }

    /** The login button: the input must equal the admin password. */
    method Login(input: string, stamp: string) returns (ok: bool)
      modifies this
      ensures ok <==> input == old(adminPassword)
      ensures ok ==> loggedIn && config == old(config).(logs := PushLog(old(config).logs, LogEntry("Admin logged in", "success", stamp)))
      ensures !ok ==> loggedIn == old(loggedIn) && config == old(config) && saved == old(saved)
      ensures adminPassword == old(adminPassword) && secrets == old(secrets)
    {
      ok := input == adminPassword;
      if ok {
        loggedIn := true;
        AddLog("Admin logged in", "success", stamp);
      }
    }

    /** The logout button. */
    method Logout()
      modifies this
      ensures !loggedIn
      ensures config == old(config) && saved == old(saved)
      ensures adminPassword == old(adminPassword) && secrets == old(secrets)
    {
      loggedIn := false;
    }

    /** `loadSecrets`: complete session secrets win; otherwise complete
        secrets from the URL query are copied into the session and used;
        otherwise nothing is loaded and the setup dialog is asked for when
        the token or the client id is empty. */
    method LoadSecrets(fromUrl: Secrets, stamp: string) returns (promptSetup: bool)
      modifies this
      ensures Complete(old(secrets)) ==> secrets == old(secrets)
      ensures !Complete(old(secrets)) && Complete(fromUrl) ==> secrets == fromUrl
      ensures !Complete(old(secrets)) && !Complete(fromUrl) ==> secrets == old(secrets)
      ensures Complete(secrets) ==>
        !promptSetup
        && adminPassword == secrets.password.value
        && config == old(config).(token := secrets.token.value, clientId := secrets.clientId.value,
             logs := PushLog(old(config).logs, LogEntry("Secrets loaded from secure storage", "success", stamp)))
      ensures !Complete(secrets) ==>
        config == old(config) && adminPassword == old(adminPassword) && saved == old(saved)
        && promptSetup == (old(config).token == "" || old(config).clientId == "")
      ensures secrets == ChosenSecrets(old(secrets), fromUrl)
      ensures config == WithSecrets(old(config), secrets, stamp)
      ensures loggedIn == old(loggedIn)
    {
      if !Complete(secrets) && Complete(fromUrl) {
        secrets := fromUrl;
      }
      if Complete(secrets) {
        config := config.(token := secrets.token.value, clientId := secrets.clientId.value);
        adminPassword := secrets.password.value;
        AddLog("Secrets loaded from secure storage", "success", stamp);
        promptSetup := false;
      } else {
        promptSetup := config.token == "" || config.clientId == "";
      }
    }

    /** The setup dialog's save button. */
    method CompleteSetup(token: string, clientId: string, password: string, confirm: string, stamp: string)
      returns (outcome: SetupOutcome)
      modifies this
      ensures outcome == ValidateSetup(token, clientId, password, confirm)
      ensures outcome != SetupAccepted ==>
        config == old(config) && saved == old(saved) && secrets == old(secrets) && adminPassword == old(adminPassword)
      ensures outcome == SetupAccepted ==>
        secrets == Secrets(Some(token), Some(clientId), Some(password))
        && adminPassword == password
        && config == old(config).(token := token, clientId := clientId,
             logs := PushLog(old(config).logs, LogEntry("Initial setup completed", "success", stamp)))
      ensures loggedIn == old(loggedIn)
    {
      outcome := ValidateSetup(token, clientId, password, confirm);
      if outcome == SetupAccepted {
        secrets := Secrets(Some(token), Some(clientId), Some(password));
        config := config.(token := token, clientId := clientId);
        adminPassword := password;
        AddLog("Initial setup completed", "success", stamp);
      }
    }

    /** `saveSecrets`: the token and client id go to the session only when
        both are non-empty; the password is left alone. */
    method SaveSecrets()
      modifies this
      ensures config.token != "" && config.clientId != "" ==>
        secrets == old(secrets).(token := Some(config.token), clientId := Some(config.clientId))
      ensures config.token == "" || config.clientId == "" ==> secrets == old(secrets)
      ensures config == old(config) && saved == old(saved)
      ensures adminPassword == old(adminPassword) && loggedIn == old(loggedIn)
    {
      if config.token != "" && config.clientId != "" {
        secrets := secrets.(token := Some(config.token), clientId := Some(config.clientId));
      }
    }

    /** The test-webhook dialog: nothing is sent, and nothing changes, when
        no URL is configured for the chosen type; otherwise the (simulated)
        send is logged. */
    method SendTestWebhook(kind: string, stamp: string) returns (sent: bool)
      modifies this
      ensures sent <==> WebhookUrl(old(config).webhooks, kind) != ""
      ensures !sent ==> config == old(config) && saved == old(saved)
      ensures sent ==> config == old(config).(logs := PushLog(old(config).logs,
        LogEntry("Test " + kind + " webhook sent", "success", stamp)))
      ensures adminPassword == old(adminPassword) && secrets == old(secrets) && loggedIn == old(loggedIn)
    {
      if WebhookUrl(config.webhooks, kind) == "" {
        return false;
      }
      AddLog("Test " + kind + " webhook sent", "success", stamp);
      sent := true;
    }
  }

  /** The admin password starts empty and only complete secrets replace
      it: after the start-up sequence the empty input opens the dashboard
      exactly when neither the session nor the URL held complete secrets. */
  method EmptyPasswordOpensAfterStart(stored: Saved, session: Secrets, fromUrl: Secrets,
                                      wasLoggedIn: bool, stamp: string)
    returns (ok: bool)
    ensures ok <==> !Complete(session) && !Complete(fromUrl)
  {
    var panel := new AdminPanel(stored, session, wasLoggedIn);
    var _ := panel.Start(fromUrl, stamp);
    ok := panel.Login("", stamp);
  }
}
