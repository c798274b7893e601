/** The `handlers` table of the current agent (src/js/payload.template.ts):
    one function per command. Each validates its arguments, makes its Steam
    calls and settles with the object it returns or with the error it
    throws. `msg` is the whole parsed request; its arguments are `msg.args`. */
module Handlers {
  import opened Wire
  import opened Steam

  const MISSING_EXE: string := "Missing argument \"exe\""
  const MISSING_APP_ID: string := "Missing argument \"appId\""
  const MISSING_MODE: string := "Missing argument \"mode\""
  const MISSING_TAG_ID: string := "Missing argument \"tagId\""

  /** The own keys of the `handlers` object, one per command. */
  datatype Command =
    | AddShortcutCmd | RemoveShortcutCmd | InstallAppCmd | InstallAppsCmd | UninstallAppCmd
    | UninstallAppsCmd | RunAppCmd | TerminateAppCmd | GetAppsCmd | SetUIModeCmd | GetUIModeCmd
    | GetAppInfoCmd | GetTagNameCmd | GetTagNamesCmd | GetLibraryFoldersCmd

  /** The key under which the table holds a command. */
  function Name(c: Command): string {
    match c
    case AddShortcutCmd => "AddShortcut"
    case RemoveShortcutCmd => "RemoveShortcut"
    case InstallAppCmd => "InstallApp"
    case InstallAppsCmd => "InstallApps"
    case UninstallAppCmd => "UninstallApp"
    case UninstallAppsCmd => "UninstallApps"
    case RunAppCmd => "RunApp"
    case TerminateAppCmd => "TerminateApp"
    case GetAppsCmd => "GetApps"
    case SetUIModeCmd => "SetUIMode"
    case GetUIModeCmd => "GetUIMode"
    case GetAppInfoCmd => "GetAppInfo"
    case GetTagNameCmd => "GetTagName"
    case GetTagNamesCmd => "GetTagNames"
    case GetLibraryFoldersCmd => "GetLibraryFolders"
  }

  /** `handlers[name]`, looking at the table's own keys only. */
  function CommandOf(name: string): (c: Option<Command>)
    ensures c.Some? ==> Name(c.value) == name
  {
    if name == "AddShortcut" then Some(AddShortcutCmd)
    else if name == "RemoveShortcut" then Some(RemoveShortcutCmd)
    else if name == "InstallApp" then Some(InstallAppCmd)
    else if name == "InstallApps" then Some(InstallAppsCmd)
    else if name == "UninstallApp" then Some(UninstallAppCmd)
    else if name == "UninstallApps" then Some(UninstallAppsCmd)
    else if name == "RunApp" then Some(RunAppCmd)
    else if name == "TerminateApp" then Some(TerminateAppCmd)
    else if name == "GetApps" then Some(GetAppsCmd)
    else if name == "SetUIMode" then Some(SetUIModeCmd)
    else if name == "GetUIMode" then Some(GetUIModeCmd)
    else if name == "GetAppInfo" then Some(GetAppInfoCmd)
    else if name == "GetTagName" then Some(GetTagNameCmd)
    else if name == "GetTagNames" then Some(GetTagNamesCmd)
    else if name == "GetLibraryFolders" then Some(GetLibraryFoldersCmd)
    else None
  }

  /** Every command is found under its own key. */
  lemma CommandOfName(c: Command)
    ensures CommandOf(Name(c)) == Some(c)
  {
  }

  /** Every key of the table starts with a capital letter. */
  lemma NamesCapitalised(name: string)
    ensures CommandOf(name).Some? ==> |name| > 0 && 'A' <= name[0] <= 'Z'
  {
  }

  function Success(): map<string, Json> {
    map["success" := JBool(true)]
  }

  function NotInstalled(appId: Json): string {
    "App with ID " + JsString(appId) + " not installed"
  }

  function NotInLibrary(appId: Json): string {
    "App with ID " + JsString(appId) + " not found in library"
  }

  /** `msg.args.key` once `msg.args` is known to be neither undefined nor null. */
  function Arg(msg: Json, key: string): Arg
    requires !Nullish(Get(msg, "args"))
  {
    Get(Get(msg, "args").value, key)
  }

  /** The launch options string: `(launchOptions ?? []).join(" ")`, or None
      when the value has no `join` method. */
  function LaunchOptions(v: Arg): Option<string> {
    match Coalesce(v, JArr([]))
    case JArr(items) => Some(Join(seq(|items|, i requires 0 <= i < |items| => JsElemString(items[i])), " "))
    case _ => None
  }

  function AddShortcut(host: Host, msg: Json): Run {
    var args := Get(msg, "args");
    if Nullish(args) then Fail(ReadOfNullish(args, "exe"))
    else if !Truthy(Arg(msg, "exe")) then Done(Failure(MISSING_EXE))
    else match LaunchOptions(Arg(msg, "launchOptions"))
      case None => Fail(NotAFunction("launchOptions.join"))
      case Some(options) =>
        var name := Arg(msg, "name");
        var exe := Arg(msg, "exe");
        var id := JNum(host.nextShortcutId);
        Run(Resolved(map["success" := JBool(true), "appId" := id]),
            [AppsAddShortcut(Some(Coalesce(name, JStr(""))), exe, options, exe)]
            + (if Truthy(name) then [AppsSetShortcutName(id, name)] else [])
            + (if Truthy(Arg(msg, "icon")) then [AppsSetShortcutIcon(id, Arg(msg, "icon"))] else [])
            + (if Truthy(Arg(msg, "startDir")) then [AppsSetShortcutStartDir(id, Arg(msg, "startDir"))] else []))
  }

  function RemoveShortcut(msg: Json): Run {
    var args := Get(msg, "args");
    if Nullish(args) then Fail(ReadOfNullish(args, "appId"))
    else if !Truthy(Arg(msg, "appId")) then Done(Failure(MISSING_APP_ID))
    else Run(Resolved(Success()), [AppsRemoveShortcut(Arg(msg, "appId"))])
  }

  function InstallApp(msg: Json): Run {
    var args := Get(msg, "args");
    if Nullish(args) then Fail(ReadOfNullish(args, "appId"))
    else if !Truthy(Arg(msg, "appId")) then Done(Failure(MISSING_APP_ID))
    else Run(Resolved(Success()), [InstallsOpenInstallWizard(ListOf(Arg(msg, "appId")))])
  }

  /** Its missing-argument error names "appId", although the argument it
      checks is `appIds`. */
  function InstallApps(msg: Json): Run {
    var args := Get(msg, "args");
    if Nullish(args) then Fail(ReadOfNullish(args, "appIds"))
    else if !Truthy(Arg(msg, "appIds")) then Done(Failure(MISSING_APP_ID))
    else Run(Resolved(Success()), [InstallsOpenInstallWizard(Arg(msg, "appIds"))])
  }

  function UninstallApp(msg: Json): Run {
    var args := Get(msg, "args");
    if Nullish(args) then Fail(ReadOfNullish(args, "appId"))
    else if !Truthy(Arg(msg, "appId")) then Done(Failure(MISSING_APP_ID))
    else Run(Resolved(Success()),
             [InstallsOpenUninstallWizard(ListOf(Arg(msg, "appId")),
                                          Some(Coalesce(Arg(msg, "autoConfirm"), JBool(false))))])
  }

  function UninstallApps(msg: Json): Run {
    var args := Get(msg, "args");
    if Nullish(args) then Fail(ReadOfNullish(args, "appIds"))
    else if !Truthy(Arg(msg, "appIds")) then Done(Failure(MISSING_APP_ID))
    else Run(Resolved(Success()),
             [InstallsOpenUninstallWizard(Arg(msg, "appIds"),
                                          Some(Coalesce(Arg(msg, "autoConfirm"), JBool(false))))])
  }

  function RunApp(host: Host, msg: Json): Run {
    var args := Get(msg, "args");
    if Nullish(args) then Fail(ReadOfNullish(args, "appId"))
    else if !Truthy(Arg(msg, "appId")) then Done(Failure(MISSING_APP_ID))
    else match Lookup(host.library, Arg(msg, "appId"))
      case None => Done(Failure(NotInstalled(Arg(msg, "appId").value)))
      case Some(app) =>
        if !app.installed then Done(Failure(NotInstalled(Arg(msg, "appId").value)))
        else Run(Resolved(Success()), [AppsRunGame(app.gameid)])
  }

  /** Unlike RunApp, an app that is in the library but not installed is
      still terminated. */
  function TerminateApp(host: Host, msg: Json): Run {
    var args := Get(msg, "args");
    if Nullish(args) then Fail(ReadOfNullish(args, "appId"))
    else if !Truthy(Arg(msg, "appId")) then Done(Failure(MISSING_APP_ID))
    else match Lookup(host.library, Arg(msg, "appId"))
      case None => Done(Failure(NotInstalled(Arg(msg, "appId").value)))
      case Some(app) => Run(Resolved(Success()), [AppsTerminateApp(app.gameid)])
  }

  /** Whether GetApps keeps an app: its type is in the filter (when there is
      one) and, when only installed apps are asked for, it is installed. */
  predicate Kept(app: App, typeFilter: Option<seq<Json>>, installedOnly: bool) {
    (typeFilter.None? || JNum(app.appType) in typeFilter.value) && (!installedOnly || app.installed)
  }

  /** The ids of the kept apps, in library order. */
  function SelectIds(apps: seq<App>, typeFilter: Option<seq<Json>>, installedOnly: bool): seq<Json> {
    if apps == [] then []
    else (if Kept(apps[0], typeFilter, installedOnly) then [JNum(apps[0].appid)] else [])
         + SelectIds(apps[1..], typeFilter, installedOnly)
  }

  /** The members of `new Set(v)`: the elements of an array, the one-letter
      strings of a string; None when `v` is not iterable. */
  function SetMembers(v: Json): Option<seq<Json>> {
    match v
    case JArr(items) => Some(items)
    case JStr(s) => Some(seq(|s|, i requires 0 <= i < |s| => JStr([s[i]])))
    case _ => None
  }

  function GetApps(host: Host, msg: Json): Run {
    var args := Get(msg, "args");
    var typeFilter := if Nullish(args) then None else Arg(msg, "typeFilter");
    if Truthy(typeFilter) then
      match SetMembers(typeFilter.value)
      case None => Fail(NotIterable(typeFilter.value))
      case Some(members) =>
        Done(map["success" := JBool(true),
                 "appIds" := JArr(SelectIds(host.allApps, Some(members), Truthy(Arg(msg, "installedOnly"))))])
    else if !Nullish(args) && Truthy(Arg(msg, "installedOnly")) then
      Done(map["success" := JBool(true), "appIds" := JArr(SelectIds(host.allApps, None, true))])
    else
      Done(map["success" := JBool(true), "appIds" := JArr(SelectIds(host.allApps, None, false))])
  }

  function SetUIMode(msg: Json): Run {
    var args := Get(msg, "args");
    if Nullish(args) then Fail(ReadOfNullish(args, "mode"))
    else if !Truthy(Arg(msg, "mode")) then Done(Failure(MISSING_MODE))
    else Run(Resolved(Success()), [UISetUIMode(Arg(msg, "mode"))])
  }

  /** Reads no argument, so it cannot fail. */
  function GetUIMode(host: Host): Run {
    Done(map["success" := JBool(true), "mode" := JNum(host.uiMode)])
  }

  function GetAppInfo(host: Host, msg: Json): Run {
    var args := Get(msg, "args");
    if Nullish(args) then Fail(ReadOfNullish(args, "appId"))
    else if !Truthy(Arg(msg, "appId")) then Done(Failure(MISSING_APP_ID))
    else match Lookup(host.library, Arg(msg, "appId"))
      case None => Done(Failure(NotInLibrary(Arg(msg, "appId").value)))
      case Some(app) =>
        Done(map["success" := JBool(true),
                 "type" := JNum(app.appType),
                 "installed" := JBool(app.installed),
                 "displayName" := JStr(app.displayName),
                 "storeTags" := JArr(seq(|app.storeTags|, i requires 0 <= i < |app.storeTags| => JNum(app.storeTags[i])))])
  }

  /** `GetLocalizationForStoreTag` as an object field: an unknown tag gives
      undefined, which JSON leaves out. */
  function TagField(host: Host, tag: Json): map<string, Json> {
    if tag in host.tagNames then map["name" := JStr(host.tagNames[tag])] else map[]
  }

  /** The same as an array element, where undefined is written as null. */
  function TagElement(host: Host, tag: Json): Json {
    if tag in host.tagNames then JStr(host.tagNames[tag]) else JNull
  }

  function GetTagName(host: Host, msg: Json): Run {
    var args := Get(msg, "args");
    if Nullish(args) then Fail(ReadOfNullish(args, "tagId"))
    else if !Truthy(Arg(msg, "tagId")) then Done(Failure(MISSING_TAG_ID))
    else Done(Success() + TagField(host, Arg(msg, "tagId").value))
  }

  /** `msg.args.tagIds?.map(...) ?? []`. */
  function GetTagNames(host: Host, msg: Json): Run {
    var args := Get(msg, "args");
    if Nullish(args) then Fail(ReadOfNullish(args, "tagIds"))
    else
      var tagIds := Arg(msg, "tagIds");
      if Nullish(tagIds) then Done(map["success" := JBool(true), "names" := JArr([])])
      else match tagIds.value
        case JArr(ids) =>
          Done(map["success" := JBool(true),
                   "names" := JArr(seq(|ids|, i requires 0 <= i < |ids| => TagElement(host, ids[i])))])
        case _ => Fail(NotAFunction("tagIds.map"))
  }

  /** The object GetLibraryFolders builds from one install folder. */
  function FolderView(f: Folder): map<string, Json> {
    map["index" := JNum(f.index),
        "isDefault" := JBool(f.isDefault),
        "isRemovable" := JBool(!f.isFixed),
        "isMounted" := JBool(f.isMounted),
        "freeSpace" := JNum(f.freeSpace),
        "spaceUsedBySteam" := JNum(f.usedSize),
        "totalCapacity" := JNum(f.capacity),
        "driveName" := JStr(f.driveName),
        "folderPath" := JStr(f.folderPath),
        "userLabel" := JStr(f.userLabel)]
  }

  /** The keys `for (const key of fields)` visits, each turned into a
      property name; None when `fields` is not iterable. */
  function FieldKeys(fields: Json): Option<seq<string>> {
    match fields
    case JArr(items) => Some(seq(|items|, i requires 0 <= i < |items| => JsString(items[i])))
    case JStr(s) => Some(seq(|s|, i requires 0 <= i < |s| => [s[i]]))
    case _ => None
  }

  /** The own fields of `obj` whose names are listed. A listed name that is
      not an own field reads as undefined or as an inherited function, and
      JSON leaves both out. */
  function Picked(obj: map<string, Json>, keys: seq<string>): map<string, Json> {
    map k | k in obj.Keys && k in keys :: obj[k]
  }

  /** What `getFields(obj, fields)` returns: `obj` itself when `fields` is
      falsy, otherwise the listed fields; None when it throws. */
  function Fields(obj: map<string, Json>, fields: Arg): Option<map<string, Json>> {
    if !Truthy(fields) then Some(obj)
    else match FieldKeys(fields.value)
      case None => None
      case Some(keys) => Some(Picked(obj, keys))
  }

  /** `getFields`: copies the listed fields one by one into a new object. */
  method GetFields(obj: map<string, Json>, fields: Arg) returns (r: Option<map<string, Json>>)
    ensures r == Fields(obj, fields)
  {
    if !Truthy(fields) {
      return Some(obj);
    }
    var keys := FieldKeys(fields.value);
    if keys.None? {
      return None;
    }
    var filtered: map<string, Json> := map[];
    for i := 0 to |keys.value|
      invariant filtered == Picked(obj, keys.value[..i])
    {
      var key := keys.value[i];
      if key in obj {
        filtered := filtered[key := obj[key]];
      }
      assert keys.value[..i + 1] == keys.value[..i] + [key];
      assert filtered == Picked(obj, keys.value[..i + 1]);
    }
    assert keys.value[..|keys.value|] == keys.value;
    return Some(filtered);
  }

  /** GetLibraryFolders reads `msg.args.fields` once per folder, so with no
      folders at all it succeeds whatever the arguments are. */
  function GetLibraryFolders(host: Host, msg: Json): Run {
    var args := Get(msg, "args");
    if host.folders == [] then Done(map["success" := JBool(true), "folders" := JArr([])])
    else if Nullish(args) then Fail(ReadOfNullish(args, "fields"))
    else
      var fields := Arg(msg, "fields");
      if Truthy(fields) && FieldKeys(fields.value).None? then Fail(NotIterable(fields.value))
      else
        var views := seq(|host.folders|, i requires 0 <= i < |host.folders| =>
                           JObj(Fields(FolderView(host.folders[i]), fields).value));
        Done(map["success" := JBool(true), "folders" := JArr(views)])
  }

  /** The handler the table holds under `name`. */
  function Handle(c: Command, host: Host, msg: Json): Run {
    match c
    case AddShortcutCmd => AddShortcut(host, msg)
    case RemoveShortcutCmd => RemoveShortcut(msg)
    case InstallAppCmd => InstallApp(msg)
    case InstallAppsCmd => InstallApps(msg)
    case UninstallAppCmd => UninstallApp(msg)
    case UninstallAppsCmd => UninstallApps(msg)
    case RunAppCmd => RunApp(host, msg)
    case TerminateAppCmd => TerminateApp(host, msg)
    case GetAppsCmd => GetApps(host, msg)
    case SetUIModeCmd => SetUIMode(msg)
    case GetUIModeCmd => GetUIMode(host)
    case GetAppInfoCmd => GetAppInfo(host, msg)
    case GetTagNameCmd => GetTagName(host, msg)
    case GetTagNamesCmd => GetTagNames(host, msg)
    case GetLibraryFoldersCmd => GetLibraryFolders(host, msg)
  }

  // ---------------------------------------------------------------------
  // Properties

  /** No handler answers with a `messageId` of its own, so the request's
      `messageId` is the one the answer carries. */
  lemma ResultsHaveNoId(c: Command, host: Host, msg: Json)
    ensures Handle(c, host, msg).result.Resolved? ==> "messageId" !in Handle(c, host, msg).result.fields
  {
  }

  /** AddShortcut with arguments but no truthy `exe` answers with the
      missing-argument error and calls nothing in Steam; with one it adds
      the shortcut first and answers with the id Steam gave it. */
  lemma AddShortcutNeedsExe(host: Host, msg: Json)
    requires !Nullish(Get(msg, "args"))
    ensures !Truthy(Arg(msg, "exe")) ==> AddShortcut(host, msg) == Run(Resolved(Failure(MISSING_EXE)), [])
    ensures Truthy(Arg(msg, "exe")) && AddShortcut(host, msg).result.Resolved? ==>
      AddShortcut(host, msg).result.fields == map["success" := JBool(true), "appId" := JNum(host.nextShortcutId)] &&
      AddShortcut(host, msg).effects[0].AppsAddShortcut? &&
      AddShortcut(host, msg).effects[0].exe == Arg(msg, "exe") &&
      AddShortcut(host, msg).effects[0].startDir == Arg(msg, "exe")
  {
  }

  /** The optional shortcut settings are applied exactly when given. */
  lemma AddShortcutSettings(host: Host, msg: Json)
    requires !Nullish(Get(msg, "args")) && Truthy(Arg(msg, "exe"))
    requires AddShortcut(host, msg).result.Resolved?
    ensures var id := JNum(host.nextShortcutId);
      var calls := AddShortcut(host, msg).effects;
      (AppsSetShortcutName(id, Arg(msg, "name")) in calls <==> Truthy(Arg(msg, "name"))) &&
      (AppsSetShortcutIcon(id, Arg(msg, "icon")) in calls <==> Truthy(Arg(msg, "icon"))) &&
      (AppsSetShortcutStartDir(id, Arg(msg, "startDir")) in calls <==> Truthy(Arg(msg, "startDir")))
  {
  }

  /** RunApp starts the game only when its id names an installed app of
      the library; otherwise it answers "not installed" and calls nothing. */
  lemma RunAppOnlyInstalled(host: Host, msg: Json)
    requires !Nullish(Get(msg, "args")) && Truthy(Arg(msg, "appId"))
    ensures var app := Lookup(host.library, Arg(msg, "appId"));
      if app.Some? && app.value.installed then
        RunApp(host, msg) == Run(Resolved(Success()), [AppsRunGame(app.value.gameid)])
      else
        RunApp(host, msg) == Run(Resolved(Failure(NotInstalled(Arg(msg, "appId").value))), [])
  {
  }

  /** An app id that is not a number never finds a library entry (Map keys
      are numbers), so RunApp refuses it. */
  lemma RunAppNeedsNumericId(host: Host, msg: Json)
    requires !Nullish(Get(msg, "args")) && Truthy(Arg(msg, "appId")) && !Arg(msg, "appId").value.JNum?
    ensures RunApp(host, msg).effects == []
    ensures RunApp(host, msg).result == Resolved(Failure(NotInstalled(Arg(msg, "appId").value)))
  {
  }

  /** `getFields` returns the object itself when no fields are asked for,
      and otherwise exactly the listed fields that the object has, with
      their values. */
  lemma FieldsSelectsListed(obj: map<string, Json>, fields: Arg)
    ensures !Truthy(fields) ==> Fields(obj, fields) == Some(obj)
    ensures Truthy(fields) && FieldKeys(fields.value).Some? ==>
      var keys := FieldKeys(fields.value).value;
      var r := Fields(obj, fields);
      r.Some? &&
      (forall k :: k in r.value <==> k in obj && k in keys) &&
      (forall k :: k in r.value ==> r.value[k] == obj[k])
    ensures Truthy(fields) && FieldKeys(fields.value).None? ==> Fields(obj, fields).None?
  {
  }

  /** An id is selected exactly when some app of the list is kept and has
      that id. */
  lemma {:induction false} SelectIdsMembers(apps: seq<App>, typeFilter: Option<seq<Json>>, installedOnly: bool, x: Json)
    ensures x in SelectIds(apps, typeFilter, installedOnly) <==>
            exists i :: 0 <= i < |apps| && Kept(apps[i], typeFilter, installedOnly) && x == JNum(apps[i].appid)
  {
    if apps != [] {
      SelectIdsMembers(apps[1..], typeFilter, installedOnly, x);
      if exists i :: 0 <= i < |apps| && Kept(apps[i], typeFilter, installedOnly) && x == JNum(apps[i].appid) {
        var i :| 0 <= i < |apps| && Kept(apps[i], typeFilter, installedOnly) && x == JNum(apps[i].appid);
        if i > 0 {
          assert apps[1..][i - 1] == apps[i];
        }
      }
      if exists j :: 0 <= j < |apps[1..]| && Kept(apps[1..][j], typeFilter, installedOnly) && x == JNum(apps[1..][j].appid) {
        var j :| 0 <= j < |apps[1..]| && Kept(apps[1..][j], typeFilter, installedOnly) && x == JNum(apps[1..][j].appid);
        assert apps[j + 1] == apps[1..][j];
      }
    }
  }

  /** Selection keeps library order: selecting from two lists one after the
      other is selecting from their concatenation. */
  lemma {:induction false} SelectIdsKeepsOrder(a: seq<App>, b: seq<App>, typeFilter: Option<seq<Json>>, installedOnly: bool)
    ensures SelectIds(a + b, typeFilter, installedOnly)
         == SelectIds(a, typeFilter, installedOnly) + SelectIds(b, typeFilter, installedOnly)
  {
    if a == [] {
      assert a + b == b;
    } else {
      assert (a + b)[1..] == a[1..] + b;
      SelectIdsKeepsOrder(a[1..], b, typeFilter, installedOnly);
    }
  }

  /** GetApps with a type filter array answers with the ids of the apps
      whose type is listed and, when `installedOnly` is truthy, that are
      installed; without a filter, `installedOnly` alone selects the
      installed apps, and with neither every app is listed. */
  lemma GetAppsFilters(host: Host, msg: Json)
    requires !Nullish(Get(msg, "args"))
    ensures var typeFilter := Arg(msg, "typeFilter");
      var installedOnly := Truthy(Arg(msg, "installedOnly"));
      (typeFilter.Some? && typeFilter.value.JArr? && Truthy(typeFilter) ==>
        GetApps(host, msg) == Done(map["success" := JBool(true),
          "appIds" := JArr(SelectIds(host.allApps, Some(typeFilter.value.items), installedOnly))])) &&
      (!Truthy(typeFilter) ==>
        GetApps(host, msg) == Done(map["success" := JBool(true),
          "appIds" := JArr(SelectIds(host.allApps, None, installedOnly))]))
  {
  }

  /** A string type filter holds no numbers, so it selects nothing. */
  lemma {:induction false} StringTypeFilterSelectsNothing(apps: seq<App>, s: string, installedOnly: bool)
    ensures SelectIds(apps, SetMembers(JStr(s)), installedOnly) == []
  {
    if apps != [] {
      var members := SetMembers(JStr(s)).value;
      assert JNum(apps[0].appType) !in members by {
        assert forall i :: 0 <= i < |members| ==> members[i].JStr?;
      }
      StringTypeFilterSelectsNothing(apps[1..], s, installedOnly);
    }
  }

  /** Every library folder is answered through `getFields`: a folder object
      whose fields are the listed ones, or all ten when none are listed. */
  lemma LibraryFoldersPicked(host: Host, msg: Json, i: nat)
    requires !Nullish(Get(msg, "args")) && i < |host.folders|
    requires GetLibraryFolders(host, msg).result.Resolved?
    ensures var folders := GetLibraryFolders(host, msg).result.fields["folders"];
      folders.JArr? && |folders.items| == |host.folders| &&
      folders.items[i] == JObj(Fields(FolderView(host.folders[i]), Arg(msg, "fields")).value)
  {
  }

  /** The argument each handler checks first, and the error it answers
      when that argument is falsy. InstallApps and UninstallApps check
      `appIds` but name "appId" in their error. */
  function Required(c: Command): Option<(string, string)> {
    match c
    case AddShortcutCmd => Some(("exe", MISSING_EXE))
    case RemoveShortcutCmd | InstallAppCmd | UninstallAppCmd | RunAppCmd | TerminateAppCmd | GetAppInfoCmd =>
      Some(("appId", MISSING_APP_ID))
    case InstallAppsCmd | UninstallAppsCmd => Some(("appIds", MISSING_APP_ID))
    case SetUIModeCmd => Some(("mode", MISSING_MODE))
    case GetTagNameCmd => Some(("tagId", MISSING_TAG_ID))
    case _ => None
  }

  /** A handler whose required argument is missing or falsy answers with
      its missing-argument error and calls nothing in Steam. */
  lemma MissingArgumentAnswered(c: Command, host: Host, msg: Json)
    requires Required(c).Some? && !Nullish(Get(msg, "args"))
    requires !Truthy(Arg(msg, Required(c).value.0))
    ensures Handle(c, host, msg) == Done(Failure(Required(c).value.1))
  {
  }

  /** With `args` undefined or null, every handler that reads an argument
      without `?.` rejects with a TypeError before calling Steam; GetApps,
      GetUIMode and GetLibraryFolders with no folders read none and
      succeed. */
  lemma NullishArgsRejected(c: Command, host: Host, msg: Json)
    requires Nullish(Get(msg, "args"))
    ensures Handle(c, host, msg).effects == []
    ensures Handle(c, host, msg).result.Resolved? <==>
            c.GetAppsCmd? || c.GetUIModeCmd? || (c.GetLibraryFoldersCmd? && host.folders == [])
  {
    if Required(c).Some? {
      NullishArgsReadFails(c, host, msg);
    } else {
      NullishArgsUnchecked(c, host, msg);
    }
  }

  /** A handler with a required argument throws the TypeError for reading
      it from undefined or null, and calls nothing. */
  lemma NullishArgsReadFails(c: Command, host: Host, msg: Json)
    requires Nullish(Get(msg, "args")) && Required(c).Some?
    ensures Handle(c, host, msg) == Fail(ReadOfNullish(Get(msg, "args"), Required(c).value.0))
  {
  }

  /** The handlers without a required argument: GetApps and GetUIMode read
      none, GetTagNames throws on reading `tagIds`, and GetLibraryFolders
      reads `fields` only once it has a folder to describe. */
  lemma NullishArgsUnchecked(c: Command, host: Host, msg: Json)
    requires Nullish(Get(msg, "args")) && Required(c).None?
    ensures Handle(c, host, msg).effects == []
    ensures Handle(c, host, msg).result.Resolved? <==>
            c.GetAppsCmd? || c.GetUIModeCmd? || (c.GetLibraryFoldersCmd? && host.folders == [])
  {
  }

  /** With their argument given, these handlers answer success after
      exactly one Steam call. The single-app variants pass the id as a
      one-element list, and uninstalling passes `autoConfirm`, false when
      absent. */
  lemma SingleCallCommands(msg: Json)
    requires !Nullish(Get(msg, "args"))
    ensures var id := Arg(msg, "appId"); var confirm := Some(Coalesce(Arg(msg, "autoConfirm"), JBool(false)));
      Truthy(id) ==>
        RemoveShortcut(msg) == Run(Resolved(Success()), [AppsRemoveShortcut(id)]) &&
        InstallApp(msg) == Run(Resolved(Success()), [InstallsOpenInstallWizard(Some(JArr([id.value])))]) &&
        UninstallApp(msg) == Run(Resolved(Success()), [InstallsOpenUninstallWizard(Some(JArr([id.value])), confirm)])
    ensures var ids := Arg(msg, "appIds"); var confirm := Some(Coalesce(Arg(msg, "autoConfirm"), JBool(false)));
      Truthy(ids) ==>
        InstallApps(msg) == Run(Resolved(Success()), [InstallsOpenInstallWizard(ids)]) &&
        UninstallApps(msg) == Run(Resolved(Success()), [InstallsOpenUninstallWizard(ids, confirm)])
    ensures Truthy(Arg(msg, "mode")) ==> SetUIMode(msg) == Run(Resolved(Success()), [UISetUIMode(Arg(msg, "mode"))])
  {
  }

  /** TerminateApp needs the app only to be in the library, installed or
      not; an id the library lacks is answered "not installed". */
  lemma TerminateAppInLibrary(host: Host, msg: Json)
    requires !Nullish(Get(msg, "args")) && Truthy(Arg(msg, "appId"))
    ensures var app := Lookup(host.library, Arg(msg, "appId"));
      if app.Some? then
        TerminateApp(host, msg) == Run(Resolved(Success()), [AppsTerminateApp(app.value.gameid)])
      else
        TerminateApp(host, msg) == Done(Failure(NotInstalled(Arg(msg, "appId").value)))
  {
  }

  /** GetAppInfo describes a library app by its type, installed flag,
      display name and store tags, and answers "not found in library" for
      any other id. It calls nothing. */
  lemma GetAppInfoDescribes(host: Host, msg: Json)
    requires !Nullish(Get(msg, "args")) && Truthy(Arg(msg, "appId"))
    ensures GetAppInfo(host, msg).effects == []
    ensures var app := Lookup(host.library, Arg(msg, "appId"));
      var r := GetAppInfo(host, msg).result;
      (app.None? <==> r == Resolved(Failure(NotInLibrary(Arg(msg, "appId").value)))) &&
      (app.Some? ==>
        r.Resolved? && r.fields.Keys == {"success", "type", "installed", "displayName", "storeTags"} &&
        r.fields["type"] == JNum(app.value.appType) && r.fields["installed"] == JBool(app.value.installed) &&
        r.fields["displayName"] == JStr(app.value.displayName) &&
        r.fields["storeTags"].JArr? && |r.fields["storeTags"].items| == |app.value.storeTags|)
  {
    var app := Lookup(host.library, Arg(msg, "appId"));
    if app.Some? {
      var r := GetAppInfo(host, msg).result;
      assert "type" in r.fields && "type" !in Failure(NotInLibrary(Arg(msg, "appId").value));
    }
  }

  /** GetTagNames answers one name per requested tag, in order: the
      localized name, or null for an unknown tag; no `tagIds` at all gives
      an empty list. */
  lemma TagNamesPerTag(host: Host, msg: Json)
    requires !Nullish(Get(msg, "args"))
    ensures Nullish(Arg(msg, "tagIds")) ==> GetTagNames(host, msg) == Done(map["success" := JBool(true), "names" := JArr([])])
    ensures var tagIds := Arg(msg, "tagIds");
      tagIds.Some? && tagIds.value.JArr? ==>
        var names := GetTagNames(host, msg).result.fields["names"];
        names.JArr? && |names.items| == |tagIds.value.items| &&
        forall i :: 0 <= i < |names.items| ==>
          (tagIds.value.items[i] in host.tagNames ==> names.items[i] == JStr(host.tagNames[tagIds.value.items[i]])) &&
          (tagIds.value.items[i] !in host.tagNames ==> names.items[i] == JNull)
  {
  }
}
