/** The `handlers` table of the older agent (payload.template.ts at the
    repository root). Its handlers validate nothing: a missing argument is
    passed on to Steam as undefined, and `msg.args` itself being undefined or
    null makes the handler throw. */
module LegacyHandlers {
  import opened Wire
  import opened Steam

  /** The own keys of the `handlers` object, one per command. */
  datatype Command =
    | AddShortcutCmd | RemoveShortcutCmd | InstallAppCmd | InstallAppsCmd | UninstallAppCmd
    | UninstallAppsCmd | RunAppCmd | TerminateAppCmd | GetInstalledAppsCmd | GetInstalledGamesCmd
    | EnterGamepadUICmd | ExitGamepadUICmd | IsGamepadUICmd

  /** The key under which the table holds a command. */
  function Name(c: Command): string {
    match c
    case AddShortcutCmd => "AddShortcut"
    case RemoveShortcutCmd => "RemoveShortcut"
    case InstallAppCmd => "InstallApp"
    case InstallAppsCmd => "InstallApps"
    case UninstallAppCmd => "UninstallApp"
    case UninstallAppsCmd => "UninstallApps"
    case RunAppCmd => "RunApp"
    case TerminateAppCmd => "TerminateApp"
    case GetInstalledAppsCmd => "GetInstalledApps"
    case GetInstalledGamesCmd => "GetInstalledGames"
    case EnterGamepadUICmd => "EnterGamepadUI"
    case ExitGamepadUICmd => "ExitGamepadUI"
    case IsGamepadUICmd => "IsGamepadUI"
  }

  /** `handlers[name]`, looking at the table's own keys only. */
  function CommandOf(name: string): (c: Option<Command>)
    ensures c.Some? ==> Name(c.value) == name
  {
    if name == "AddShortcut" then Some(AddShortcutCmd)
    else if name == "RemoveShortcut" then Some(RemoveShortcutCmd)
    else if name == "InstallApp" then Some(InstallAppCmd)
    else if name == "InstallApps" then Some(InstallAppsCmd)
    else if name == "UninstallApp" then Some(UninstallAppCmd)
    else if name == "UninstallApps" then Some(UninstallAppsCmd)
    else if name == "RunApp" then Some(RunAppCmd)
    else if name == "TerminateApp" then Some(TerminateAppCmd)
    else if name == "GetInstalledApps" then Some(GetInstalledAppsCmd)
    else if name == "GetInstalledGames" then Some(GetInstalledGamesCmd)
    else if name == "EnterGamepadUI" then Some(EnterGamepadUICmd)
    else if name == "ExitGamepadUI" then Some(ExitGamepadUICmd)
    else if name == "IsGamepadUI" then Some(IsGamepadUICmd)
    else None
  }

  /** Every command is found under its own key. */
  lemma CommandOfName(c: Command)
    ensures CommandOf(Name(c)) == Some(c)
  {
  }

  /** Every key of the table starts with a capital letter. */
  lemma NamesCapitalised(name: string)
    ensures CommandOf(name).Some? ==> |name| > 0 && 'A' <= name[0] <= 'Z'
  {
  }

  function Success(): map<string, Json> {
    map["success" := JBool(true)]
  }

  function NotInstalled(appId: Arg): string {
    "App with ID " + ArgString(appId) + " not installed"
  }

  function Arg(msg: Json, key: string): Arg
    requires !Nullish(Get(msg, "args"))
  {
    Get(Get(msg, "args").value, key)
  }

  /** `msg.args.launchOptions.join(" ")`: None (a TypeError) unless the
      value is an array. */
  function LaunchOptions(v: Arg): Option<string> {
    if v.Some? && v.value.JArr? then
      Some(Join(seq(|v.value.items|, i requires 0 <= i < |v.value.items| => JsElemString(v.value.items[i])), " "))
    else None
  }

  function LaunchOptionsError(v: Arg): string {
    if Nullish(v) then ReadOfNullish(v, "join") else NotAFunction("msg.args.launchOptions.join")
  }

  /** Adds the shortcut, then sets its name, icon and start directory
      unconditionally, with whatever values (possibly undefined) were sent. */
  function AddShortcut(host: Host, msg: Json): Run {
    var args := Get(msg, "args");
    if Nullish(args) then Fail(ReadOfNullish(args, "name"))
    else match LaunchOptions(Arg(msg, "launchOptions"))
      case None => Fail(LaunchOptionsError(Arg(msg, "launchOptions")))
      case Some(options) =>
        var id := JNum(host.nextShortcutId);
        Run(Resolved(map["success" := JBool(true), "appId" := id]),
            [AppsAddShortcut(Arg(msg, "name"), Arg(msg, "exe"), options, Arg(msg, "exe")),
             AppsSetShortcutName(id, Arg(msg, "name")),
             AppsSetShortcutIcon(id, Arg(msg, "icon")),
             AppsSetShortcutStartDir(id, Arg(msg, "startDir"))])
  }

  function RemoveShortcut(msg: Json): Run {
    var args := Get(msg, "args");
    if Nullish(args) then Fail(ReadOfNullish(args, "appId"))
    else Run(Resolved(Success()), [AppsRemoveShortcut(Arg(msg, "appId"))])
  }

  function InstallApp(msg: Json): Run {
    var args := Get(msg, "args");
    if Nullish(args) then Fail(ReadOfNullish(args, "appId"))
    else Run(Resolved(Success()), [InstallsOpenInstallWizard(ListOf(Arg(msg, "appId")))])
  }

  function InstallApps(msg: Json): Run {
    var args := Get(msg, "args");
    if Nullish(args) then Fail(ReadOfNullish(args, "appIds"))
    else Run(Resolved(Success()), [InstallsOpenInstallWizard(Arg(msg, "appIds"))])
  }

  function UninstallApp(msg: Json): Run {
    var args := Get(msg, "args");
    if Nullish(args) then Fail(ReadOfNullish(args, "appId"))
    else Run(Resolved(Success()),
             [InstallsOpenUninstallWizard(ListOf(Arg(msg, "appId")),
                                          Some(Coalesce(Arg(msg, "autoConfirm"), JBool(false))))])
  }

  function UninstallApps(msg: Json): Run {
    var args := Get(msg, "args");
    if Nullish(args) then Fail(ReadOfNullish(args, "appIds"))
    else Run(Resolved(Success()),
             [InstallsOpenUninstallWizard(Arg(msg, "appIds"),
                                          Some(Coalesce(Arg(msg, "autoConfirm"), JBool(false))))])
  }

  function RunApp(host: Host, msg: Json): Run {
    var args := Get(msg, "args");
    if Nullish(args) then Fail(ReadOfNullish(args, "appId"))
    else match Lookup(host.library, Arg(msg, "appId"))
      case None => Done(Failure(NotInstalled(Arg(msg, "appId"))))
      case Some(app) =>
        if !app.installed then Done(Failure(NotInstalled(Arg(msg, "appId"))))
        else Run(Resolved(Success()), [AppsRunGame(app.gameid)])
  }

  function TerminateApp(host: Host, msg: Json): Run {
    var args := Get(msg, "args");
    if Nullish(args) then Fail(ReadOfNullish(args, "appId"))
    else match Lookup(host.library, Arg(msg, "appId"))
      case None => Done(Failure(NotInstalled(Arg(msg, "appId"))))
      case Some(app) => Run(Resolved(Success()), [AppsTerminateApp(app.gameid)])
  }

  /** Whether an entry's key is collected: its app is installed and, when
      only games are wanted, is of type `AppType.Game`. */
  predicate Collected(e: Entry, gamesOnly: bool) {
    e.app.installed && (!gamesOnly || e.app.appType == GAME_TYPE)
  }

  /** The keys of the collected entries, in the Map's iteration order. */
  function InstalledIds(entries: seq<Entry>, gamesOnly: bool): seq<int> {
    if entries == [] then []
    else InstalledIds(entries[..|entries| - 1], gamesOnly)
         + (if Collected(entries[|entries| - 1], gamesOnly) then [entries[|entries| - 1].key] else [])
  }

  /** The `reduce` of GetInstalledApps and GetInstalledGames: walks the
      entries in order and pushes every collected key. */
  method CollectInstalledIds(entries: seq<Entry>, gamesOnly: bool) returns (ids: seq<int>)
    ensures ids == InstalledIds(entries, gamesOnly)
  {
    ids := [];
    for i := 0 to |entries|
      invariant ids == InstalledIds(entries[..i], gamesOnly)
    {
      assert entries[..i + 1][..i] == entries[..i];
      if Collected(entries[i], gamesOnly) {
        ids := ids + [entries[i].key];
      }
    }
    assert entries[..|entries|] == entries;
  }

  function IdArray(ids: seq<int>): Json {
    JArr(seq(|ids|, i requires 0 <= i < |ids| => JNum(ids[i])))
  }

  function GetInstalledApps(host: Host): Run {
    Done(map["success" := JBool(true), "appIds" := IdArray(InstalledIds(host.library, false))])
  }

  function GetInstalledGames(host: Host): Run {
    Done(map["success" := JBool(true), "appIds" := IdArray(InstalledIds(host.library, true))])
  }

  function EnterGamepadUI(): Run {
    Run(Resolved(Success()), [UISetUIMode(Some(JNum(GAMEPAD_MODE)))])
  }

  function ExitGamepadUI(): Run {
    Run(Resolved(Success()), [UISetUIMode(Some(JNum(DESKTOP_MODE)))])
  }

  /** Compares the mode `GetUIMode` returns with 4 directly; the older
      Steam declarations have that call return the mode itself. */
  function IsGamepadUI(host: Host): Run {
    Done(map["success" := JBool(true), "isGamepadUI" := JBool(host.uiMode == 4)])
  }

  function Handle(c: Command, host: Host, msg: Json): Run {
    match c
    case AddShortcutCmd => AddShortcut(host, msg)
    case RemoveShortcutCmd => RemoveShortcut(msg)
    case InstallAppCmd => InstallApp(msg)
    case InstallAppsCmd => InstallApps(msg)
    case UninstallAppCmd => UninstallApp(msg)
    case UninstallAppsCmd => UninstallApps(msg)
    case RunAppCmd => RunApp(host, msg)
    case TerminateAppCmd => TerminateApp(host, msg)
    case GetInstalledAppsCmd => GetInstalledApps(host)
    case GetInstalledGamesCmd => GetInstalledGames(host)
    case EnterGamepadUICmd => EnterGamepadUI()
    case ExitGamepadUICmd => ExitGamepadUI()
    case IsGamepadUICmd => IsGamepadUI(host)
  }

  // ---------------------------------------------------------------------
  // Properties

  /** No handler answers with a `messageId` of its own, so the request's
      `messageId` is the one the answer carries. */
  lemma ResultsHaveNoId(c: Command, host: Host, msg: Json)
    ensures Handle(c, host, msg).result.Resolved? ==> "messageId" !in Handle(c, host, msg).result.fields
  {
  }

  /** A key is collected exactly when some entry with that key is collected. */
  lemma {:induction false} InstalledIdsMembers(entries: seq<Entry>, gamesOnly: bool, x: int)
    ensures x in InstalledIds(entries, gamesOnly) <==>
            exists i :: 0 <= i < |entries| && entries[i].key == x && Collected(entries[i], gamesOnly)
  {
    if entries != [] {
      var init := entries[..|entries| - 1];
      InstalledIdsMembers(init, gamesOnly, x);
      if exists i :: 0 <= i < |entries| && entries[i].key == x && Collected(entries[i], gamesOnly) {
        var i :| 0 <= i < |entries| && entries[i].key == x && Collected(entries[i], gamesOnly);
        if i < |entries| - 1 {
          assert init[i] == entries[i];
        }
      }
      if exists j :: 0 <= j < |init| && init[j].key == x && Collected(init[j], gamesOnly) {
        var j :| 0 <= j < |init| && init[j].key == x && Collected(init[j], gamesOnly);
        assert entries[j] == init[j];
      }
    }
  }

  /** Collection follows the Map's iteration order: the keys collected from
      two runs of entries are those of the first run, then those of the
      second. */
  lemma {:induction false} InstalledIdsKeepsOrder(a: seq<Entry>, b: seq<Entry>, gamesOnly: bool)
    ensures InstalledIds(a + b, gamesOnly) == InstalledIds(a, gamesOnly) + InstalledIds(b, gamesOnly)
    decreases |b|
  {
    if b == [] {
      assert a + b == a;
    } else {
      var b' := b[..|b| - 1];
      assert (a + b)[..|a + b| - 1] == a + b';
      InstalledIdsKeepsOrder(a, b', gamesOnly);
    }
  }

  /** Every installed game is also an installed app. */
  lemma GamesAmongApps(entries: seq<Entry>, x: int)
    ensures x in InstalledIds(entries, true) ==> x in InstalledIds(entries, false)
  {
    InstalledIdsMembers(entries, true, x);
    InstalledIdsMembers(entries, false, x);
  }

  /** GetInstalledApps answers with exactly the installed keys and
      GetInstalledGames with exactly the installed keys of games. */
  lemma InstalledAnswers(host: Host)
    ensures GetInstalledApps(host) == Done(map["success" := JBool(true), "appIds" := IdArray(InstalledIds(host.library, false))])
    ensures GetInstalledGames(host).result.fields["appIds"].items ==
            seq(|InstalledIds(host.library, true)|, i requires 0 <= i < |InstalledIds(host.library, true)| =>
                JNum(InstalledIds(host.library, true)[i]))
    ensures forall x :: JNum(x) in GetInstalledGames(host).result.fields["appIds"].items <==>
            (exists i :: 0 <= i < |host.library| && host.library[i].key == x &&
                         host.library[i].app.installed && host.library[i].app.appType == GAME_TYPE)
  {
    var ids := InstalledIds(host.library, true);
    forall x
      ensures JNum(x) in GetInstalledGames(host).result.fields["appIds"].items <==>
              (exists i :: 0 <= i < |host.library| && host.library[i].key == x &&
                           host.library[i].app.installed && host.library[i].app.appType == GAME_TYPE)
    {
      InstalledIdsMembers(host.library, true, x);
      var items := GetInstalledGames(host).result.fields["appIds"].items;
      if JNum(x) in items {
        var k :| 0 <= k < |items| && items[k] == JNum(x);
        assert ids[k] == x;
      }
      if x in ids {
        var k :| 0 <= k < |ids| && ids[k] == x;
        assert items[k] == JNum(x);
      }
    }
  }

  /** IsGamepadUI reports true exactly when the UI mode is 4. */
  lemma IsGamepadUIExactly(host: Host)
    ensures IsGamepadUI(host).result.fields["isGamepadUI"] == JBool(true) <==> host.uiMode == GAMEPAD_MODE
    ensures IsGamepadUI(host).effects == []
  {
  }

  /** RunApp starts only an installed app of the library; any other id,
      including a missing one, is answered "not installed" and nothing is
      started. */
  lemma RunAppOnlyInstalled(host: Host, msg: Json)
    requires !Nullish(Get(msg, "args"))
    ensures var app := Lookup(host.library, Arg(msg, "appId"));
      if app.Some? && app.value.installed then
        RunApp(host, msg) == Run(Resolved(Success()), [AppsRunGame(app.value.gameid)])
      else
        RunApp(host, msg) == Run(Resolved(Failure(NotInstalled(Arg(msg, "appId")))), [])
  {
  }

  /** Without `launchOptions` AddShortcut throws before calling Steam. */
  lemma AddShortcutNeedsLaunchOptions(host: Host, msg: Json)
    requires !Nullish(Get(msg, "args")) && Arg(msg, "launchOptions").None?
    ensures AddShortcut(host, msg) == Fail(ReadOfNullish(None, "join"))
  {
  }

  /** The argument each handler reads first from `msg.args`, for the eight
      that read one. */
  function FirstRead(c: Command): Option<string> {
    match c
    case AddShortcutCmd => Some("name")
    case RemoveShortcutCmd | InstallAppCmd | UninstallAppCmd | RunAppCmd | TerminateAppCmd => Some("appId")
    case InstallAppsCmd | UninstallAppsCmd => Some("appIds")
    case _ => None
  }

  /** With `args` undefined or null every handler that reads an argument
      rejects with a TypeError before calling Steam; the five that read
      none succeed. */
  lemma NullishArgsRejected(c: Command, host: Host, msg: Json)
    requires Nullish(Get(msg, "args"))
    ensures Handle(c, host, msg).result.Resolved? <==>
            c.GetInstalledAppsCmd? || c.GetInstalledGamesCmd? || c.EnterGamepadUICmd? || c.ExitGamepadUICmd? || c.IsGamepadUICmd?
    ensures Handle(c, host, msg).result.Rejected? ==> Handle(c, host, msg).effects == []
  {
    if FirstRead(c).Some? {
      NullishArgsReadFails(c, host, msg);
    } else {
      NullishArgsUnread(c, host, msg);
    }
  }

  /** A handler that reads an argument throws the TypeError for reading it
      from undefined or null, and calls nothing. */
  lemma NullishArgsReadFails(c: Command, host: Host, msg: Json)
    requires Nullish(Get(msg, "args")) && FirstRead(c).Some?
    ensures Handle(c, host, msg) == Fail(ReadOfNullish(Get(msg, "args"), FirstRead(c).value))
  {
  }

  /** The five handlers that read no argument succeed whatever `args` is. */
  lemma NullishArgsUnread(c: Command, host: Host, msg: Json)
    requires FirstRead(c).None?
    ensures Handle(c, host, msg).result.Resolved?
  {
  }

  /** Nothing is validated: once `args` is an object, each of these
      handlers makes its one Steam call with the arguments as sent, missing
      ones included, and answers success. */
  lemma ArgumentsPassedUnchecked(msg: Json)
    requires !Nullish(Get(msg, "args"))
    ensures var confirm := Some(Coalesce(Arg(msg, "autoConfirm"), JBool(false)));
      RemoveShortcut(msg) == Run(Resolved(Success()), [AppsRemoveShortcut(Arg(msg, "appId"))]) &&
      InstallApp(msg) == Run(Resolved(Success()), [InstallsOpenInstallWizard(ListOf(Arg(msg, "appId")))]) &&
      InstallApps(msg) == Run(Resolved(Success()), [InstallsOpenInstallWizard(Arg(msg, "appIds"))]) &&
      UninstallApp(msg) == Run(Resolved(Success()), [InstallsOpenUninstallWizard(ListOf(Arg(msg, "appId")), confirm)]) &&
      UninstallApps(msg) == Run(Resolved(Success()), [InstallsOpenUninstallWizard(Arg(msg, "appIds"), confirm)])
  {
  }

  /** With a `launchOptions` array AddShortcut always makes all four calls,
      passing name, icon and start directory even when they are missing. */
  lemma AddShortcutSetsEverything(host: Host, msg: Json)
    requires !Nullish(Get(msg, "args")) && Arg(msg, "launchOptions").Some? && Arg(msg, "launchOptions").value.JArr?
    ensures var id := JNum(host.nextShortcutId);
      AddShortcut(host, msg).result == Resolved(map["success" := JBool(true), "appId" := id]) &&
      AddShortcut(host, msg).effects[1..] ==
        [AppsSetShortcutName(id, Arg(msg, "name")), AppsSetShortcutIcon(id, Arg(msg, "icon")),
         AppsSetShortcutStartDir(id, Arg(msg, "startDir"))]
  {
  }

  /** TerminateApp needs the app only to be in the library, installed or
      not. */
  lemma TerminateAppInLibrary(host: Host, msg: Json)
    requires !Nullish(Get(msg, "args"))
    ensures var app := Lookup(host.library, Arg(msg, "appId"));
      if app.Some? then
        TerminateApp(host, msg) == Run(Resolved(Success()), [AppsTerminateApp(app.value.gameid)])
      else
        TerminateApp(host, msg) == Done(Failure(NotInstalled(Arg(msg, "appId"))))
  {
  }

  /** EnterGamepadUI switches Steam to mode 4 and ExitGamepadUI to mode 7,
      and IsGamepadUI reports exactly the first of those. */
  lemma GamepadModes(host: Host)
    ensures EnterGamepadUI().effects == [UISetUIMode(Some(JNum(GAMEPAD_MODE)))]
    ensures ExitGamepadUI().effects == [UISetUIMode(Some(JNum(DESKTOP_MODE)))]
    ensures host.uiMode == DESKTOP_MODE ==> IsGamepadUI(host).result.fields["isGamepadUI"] == JBool(false)
  {
  }
}
