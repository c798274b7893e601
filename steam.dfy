/** What the in-Steam agent sees of the Steam client: the readiness flag
    (`App.GetServicesInitialized`), the app store (`appStore.m_mapApps`,
    `appStore.allApps`, `GetLocalizationForStoreTag`), the install folders,
    the UI mode and the id the client hands to a new shortcut. The agent only
    reads this state; every call it makes that changes Steam is recorded as
    an `Effect` instead of being carried out. */
module Steam {
  import opened Wire

  /** A JavaScript value that may be `undefined` (None). */
  type Arg = Option<Json>

  /** `AppType.Game` (src/js/steam.ts). */
  const GAME_TYPE: int := 1
  /** `UIMode.Gamepad` and `UIMode.Desktop`. */
  const GAMEPAD_MODE: int := 4
  const DESKTOP_MODE: int := 7

  /** One app of the store. An absent `installed` reads as false everywhere
      the agent looks at it, so it is a plain bool here. */
  datatype App = App(appid: int, appType: int, installed: bool, gameid: string,
                     displayName: string, storeTags: seq<int>)

  /** One entry of `m_mapApps.data_`, a JavaScript Map from numeric ids to
      `{value_: App}`, in insertion order. */
  datatype Entry = Entry(key: int, app: App)

  /** A `SteamInstallFolder` as `GetInstallFolders` reports it. */
  datatype Folder = Folder(index: int, isDefault: bool, isFixed: bool, isMounted: bool,
                           freeSpace: int, usedSize: int, capacity: int,
                           driveName: string, folderPath: string, userLabel: string)

  datatype Host = Host(
    ready: bool,
    library: seq<Entry>,
    allApps: seq<App>,
    uiMode: int,
    nextShortcutId: int,
    folders: seq<Folder>,
    tagNames: map<Json, string>)

  /** A call into `SteamClient` that changes Steam, with its arguments. */
  datatype Effect =
    | AppsAddShortcut(name: Arg, exe: Arg, launchOptions: string, startDir: Arg)
    | AppsSetShortcutName(shortcut: Json, name: Arg)
    | AppsSetShortcutIcon(shortcut: Json, icon: Arg)
    | AppsSetShortcutStartDir(shortcut: Json, dir: Arg)
    | AppsRemoveShortcut(appId: Arg)
    | AppsRunGame(gameid: string)
    | AppsTerminateApp(gameid: string)
    | InstallsOpenInstallWizard(appIds: Arg)
    | InstallsOpenUninstallWizard(appIds: Arg, autoConfirm: Arg)
    | UISetUIMode(mode: Arg)

  /** How a handler's promise settles: with the object it returns, or with
      the text of the error it throws. */
  datatype HandlerResult = Resolved(fields: map<string, Json>) | Rejected(reason: string)

  /** A handler run: how it settled and the Steam calls it made first. */
  datatype Run = Run(result: HandlerResult, effects: seq<Effect>)

  function Done(fields: map<string, Json>): Run {
    Run(Resolved(fields), [])
  }

  function Fail(reason: string): Run {
    Run(Rejected(reason), [])
  }

  predicate Nullish(a: Arg) {
    a.None? || a.value.JNull?
  }

  /** `String(v)`, including `undefined`. */
  function ArgString(a: Arg): string {
    if a.None? then "undefined" else JsString(a.value)
  }

  /** The one-element array `[v]`. An undefined element is written as
      null, which is how JSON would carry it. */
  function ListOf(a: Arg): Arg {
    Some(JArr([if a.None? then JNull else a.value]))
  }

  /** The TypeError thrown by reading `key` of undefined or null. */
  function ReadOfNullish(base: Arg, key: string): string {
    "TypeError: Cannot read properties of " + (if base.None? then "undefined" else "null")
      + " (reading '" + key + "')"
  }

  /** The TypeError thrown by calling something that is not a function. */
  function NotAFunction(callee: string): string {
    "TypeError: " + callee + " is not a function"
  }

  /** The TypeError thrown by iterating a value that is not iterable. */
  function NotIterable(v: Json): string {
    "TypeError: " + JsString(v) + " is not iterable"
  }

  /** `m_mapApps.data_.get(key)`: Map lookup compares keys by value, so only
      a number can find an entry. */
  function Lookup(library: seq<Entry>, key: Arg): (r: Option<App>)
    ensures r.Some? ==> key.Some? && key.value.JNum? &&
                        exists i :: 0 <= i < |library| && library[i] == Entry(key.value.n, r.value)
    ensures r.None? && key.Some? && key.value.JNum? ==>
              forall i :: 0 <= i < |library| ==> library[i].key != key.value.n
  {
    if key.None? || !key.value.JNum? || library == [] then None
    else if library[0].key == key.value.n then Some(library[0].app)
    else
      var r := Lookup(library[1..], key);
      assert r.Some? ==> exists i :: 0 <= i < |library| && library[i] == Entry(key.value.n, r.value) by {
        if r.Some? {
          var i :| 0 <= i < |library[1..]| && library[1..][i] == Entry(key.value.n, r.value);
          assert library[i + 1] == Entry(key.value.n, r.value);
        }
      }
      r
  }
}
