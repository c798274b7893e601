/** The two earliest agent scripts: payload.template.js, which always
    replaces an open socket and serves four commands, and the injector
    client.template.js, which re-announces an open socket instead of
    replacing it and serves two. Both dispatch with a `switch` on the command
    and check the secret by strict equality only; a failing command (a
    TypeError while reading its arguments) and an unknown command get no
    answer. Their placeholders are written `{{SECRET}}` and `{{PORT}}`; the
    text that replaces them is a parameter here. */
module EarlyAgent {
  import opened Wire
  import opened Steam
  import opened Browser
  import PayloadTemplate

  /** Which of the two scripts. */
  datatype Script = ReplacingPayload | Injector

  datatype Outcome = Outcome(frames: seq<Json>, effects: seq<Effect>)

  function Commands(script: Script): set<string> {
    if script == ReplacingPayload then {"AddShortcut", "RemoveShortcut", "InstallApp", "UninstallApp"}
    else {"AddShortcut", "RemoveShortcut"}
  }

  /** The listener's secret check, `msg.secret === secret`. Unlike the later
      agents it does not also require the secret to be non-empty. */
  predicate Authorized(secret: string, f: Frame) {
    f.Data? && Get(f.j, "secret") == Some(JStr(secret))
  }

  /** `msg.args.launchOptions.join(" ")`, or None when that throws. */
  function LaunchOptions(v: Arg): Option<string> {
    if v.Some? && v.value.JArr? then
      Some(Join(seq(|v.value.items|, i requires 0 <= i < |v.value.items| => JsElemString(v.value.items[i])), " "))
    else None
  }

  /** The `switch` for one authorized message. */
  function Dispatch(script: Script, host: Host, msg: Json): Outcome {
    var command := Get(msg, "command");
    var id := Get(msg, "messageId");
    var args := Get(msg, "args");
    if !(command.Some? && command.value.JStr? && command.value.s in Commands(script)) then Outcome([], [])
    else if Nullish(args) then Outcome([], [])
    else
      var a := args.value;
      var name := command.value.s;
      if name == "AddShortcut" then
        match LaunchOptions(Get(a, "launchOptions"))
        case None => Outcome([], [])
        case Some(options) =>
          var appId := JNum(host.nextShortcutId);
          Outcome([WithId(id, map["appId" := appId])],
                  [AppsAddShortcut(Get(a, "name"), Get(a, "exe"), options, Get(a, "exe")),
                   AppsSetShortcutName(appId, Get(a, "name")),
                   AppsSetShortcutIcon(appId, Get(a, "icon")),
                   AppsSetShortcutStartDir(appId, Get(a, "startDir"))])
      else if name == "RemoveShortcut" then
        Outcome([WithId(id, map[])], [AppsRemoveShortcut(Get(a, "appId"))])
      else if name == "InstallApp" then
        Outcome([WithId(id, map[])], [InstallsOpenInstallWizard(Get(a, "appIds"))])
      else
        Outcome([WithId(id, map[])], [InstallsOpenUninstallWizard(Get(a, "appIds"), Get(a, "autoConfirm"))])
  }

  /** The message listener. */
  function Deliver(script: Script, host: Host, secret: string, f: Frame): Outcome {
    if Authorized(secret, f) then Dispatch(script, host, f.j) else Outcome([], [])
  }

  function SocketUrl(port: PayloadTemplate.u16): string {
    "ws://localhost:" + NatToString(port)
  }

  function InitFrame(secret: string): Frame {
    Text("init:" + secret)
  }

  function AsFrames(js: seq<Json>): seq<Frame> {
    seq(|js|, i requires 0 <= i < |js| => Data(js[i]))
  }

  /** The socket one of the scripts opened, with its listeners. */
  class EarlyAgent {
    const script: Script
    const secret: string
    const ws: Socket
    var calls: seq<Effect>

    constructor (script: Script, port: PayloadTemplate.u16, secret: string)
      ensures this.script == script && this.secret == secret && calls == []
      ensures fresh(ws) && ws.url == SocketUrl(port) && ws.readyState == Connecting && ws.sent == []
    {
      this.script := script;
      this.secret := secret;
      ws := new Socket(SocketUrl(port));
      calls := [];
    }

    /** The `open` listener. */
    method OnOpen()
      modifies ws
      ensures ws.readyState == old(ws.readyState)
      ensures ws.sent == old(ws.sent) + (if old(ws.readyState) == Open then [InitFrame(secret)] else [])
    {
      ws.Send(InitFrame(secret));
    }

    /** The `message` listener. */
    method OnMessage(host: Host, f: Frame)
      modifies this, ws
      ensures calls == old(calls) + Deliver(script, host, secret, f).effects
      ensures ws.readyState == old(ws.readyState)
      ensures ws.sent == old(ws.sent)
                + (if old(ws.readyState) == Open then AsFrames(Deliver(script, host, secret, f).frames) else [])
    {
      if Authorized(secret, f) {
        var out := Dispatch(script, host, f.j);
        calls := calls + out.effects;
        ws.SendAll(AsFrames(out.frames));
      }
    }
  }

  /** payload.template.js: an open socket in `window.rpc` is always closed,
      and a new one always takes its place. */
  method InjectReplacing(w: Window, port: PayloadTemplate.u16, secret: string) returns (agent: EarlyAgent)
    modifies w, w.rpc
    ensures old(w.HasOpenSocket()) ==> old(w.rpc).readyState == Closing && old(w.rpc).sent == old(w.rpc.sent)
    ensures old(w.rpc) != null && !old(w.HasOpenSocket()) ==> unchanged(old(w.rpc))
    ensures fresh(agent) && fresh(agent.ws) && w.rpc == agent.ws
    ensures agent.script == ReplacingPayload && agent.secret == secret && agent.calls == []
    ensures agent.ws.url == SocketUrl(port) && agent.ws.readyState == Connecting && agent.ws.sent == []
  {
    if w.rpc != null && w.rpc.readyState == Open {
      w.rpc.Close();
    }
    agent := new EarlyAgent(ReplacingPayload, port, secret);
    w.rpc := agent.ws;
  }

  /** client.template.js: an open socket in `window.rpc` is kept and sends
      `init:<secret>` again; otherwise a new socket is opened and stored. */
  method InjectOrAnnounce(w: Window, port: PayloadTemplate.u16, secret: string) returns (agent: EarlyAgent?)
    modifies w, w.rpc
    ensures old(w.HasOpenSocket()) ==>
              agent == null && w.rpc == old(w.rpc) &&
              w.rpc.sent == old(w.rpc.sent) + [InitFrame(secret)] && w.rpc.readyState == Open
    ensures old(w.rpc) != null && !old(w.HasOpenSocket()) ==> unchanged(old(w.rpc))
    ensures !old(w.HasOpenSocket()) ==>
              agent != null && fresh(agent) && fresh(agent.ws) && w.rpc == agent.ws &&
              agent.script == Injector && agent.secret == secret && agent.calls == [] &&
              agent.ws.url == SocketUrl(port) && agent.ws.readyState == Connecting && agent.ws.sent == []
  {
    if w.rpc != null && w.rpc.readyState == Open {
      w.rpc.Send(InitFrame(secret));
      return null;
    }
    agent := new EarlyAgent(Injector, port, secret);
    w.rpc := agent.ws;
  }

  // ---------------------------------------------------------------------
  // Properties

  /** A frame whose `secret` is not exactly the baked-in one is refused:
      nothing is sent and Steam is not called. */
  lemma OnlyMatchingSecretDispatched(script: Script, host: Host, secret: string, f: Frame)
    ensures !Authorized(secret, f) ==> Deliver(script, host, secret, f) == Outcome([], [])
    ensures Authorized(secret, f) ==> Deliver(script, host, secret, f) == Dispatch(script, host, f.j)
  {
  }

  /** With an empty baked-in secret, a frame with an empty `secret` passes:
      the check has no truthiness test. */
  lemma EmptySecretAccepted(script: Script, host: Host)
    ensures var msg := JObj(map["secret" := JStr(""), "command" := JStr("RemoveShortcut"),
                                "args" := JObj(map[]), "messageId" := JNum(0)]);
      Deliver(script, host, "", Data(msg)) ==
        Outcome([JObj(map["messageId" := JNum(0)])], [AppsRemoveShortcut(None)])
  {
    var msg := JObj(map["secret" := JStr(""), "command" := JStr("RemoveShortcut"),
                        "args" := JObj(map[]), "messageId" := JNum(0)]);
    assert Get(msg, "secret") == Some(JStr(""));
    assert Get(msg, "command") == Some(JStr("RemoveShortcut"));
    assert Get(msg, "args") == Some(JObj(map[]));
    assert Get(msg, "messageId") == Some(JNum(0));
    assert Authorized("", Data(msg));
    assert "RemoveShortcut" in Commands(script);
    assert Get(JObj(map[]), "appId") == None;
    assert WithId(Some(JNum(0)), map[]) == JObj(map["messageId" := JNum(0)]);
  }

  /** AddShortcut answers `{messageId, appId}` with no `success` field,
      after adding the shortcut and setting its name, icon and start
      directory. */
  lemma AddShortcutReply(script: Script, host: Host, msg: Json)
    requires Get(msg, "command") == Some(JStr("AddShortcut")) && !Nullish(Get(msg, "args"))
    requires Get(Get(msg, "args").value, "launchOptions").Some? && Get(Get(msg, "args").value, "launchOptions").value.JArr?
    ensures var out := Dispatch(script, host, msg);
      out.frames == [WithId(Get(msg, "messageId"), map["appId" := JNum(host.nextShortcutId)])] &&
      "success" !in out.frames[0].fields &&
      |out.effects| == 4 && out.effects[0].AppsAddShortcut?
  {
  }

  /** RemoveShortcut, and in payload.template.js also InstallApp and
      UninstallApp, answer with the `messageId` alone. */
  lemma OtherRepliesIdOnly(script: Script, host: Host, msg: Json)
    requires Get(msg, "command").Some? && Get(msg, "command").value.JStr?
    requires Get(msg, "command").value.s in Commands(script) - {"AddShortcut"}
    requires !Nullish(Get(msg, "args"))
    ensures Dispatch(script, host, msg).frames == [WithId(Get(msg, "messageId"), map[])]
    ensures |Dispatch(script, host, msg).effects| == 1
  {
  }

  /** A command outside the switch gets no answer and calls nothing; the
      injector's switch does not know InstallApp or UninstallApp. */
  lemma UnknownCommandSilent(script: Script, host: Host, msg: Json)
    requires !(Get(msg, "command").Some? && Get(msg, "command").value.JStr? &&
               Get(msg, "command").value.s in Commands(script))
    ensures Dispatch(script, host, msg) == Outcome([], [])
  {
  }

  /** The injector ignores InstallApp that payload.template.js serves. */
  lemma InjectorKnowsTwoCommands(host: Host, msg: Json)
    requires Get(msg, "command") == Some(JStr("InstallApp")) && !Nullish(Get(msg, "args"))
    ensures Dispatch(Injector, host, msg) == Outcome([], [])
    ensures Dispatch(ReplacingPayload, host, msg).frames == [WithId(Get(msg, "messageId"), map[])]
  {
  }
}
