/** The in-Steam agent of src/js/payload.template.ts and of its older copy
    payload.template.ts: the injection guard that keeps or replaces the
    socket in `window.rpc`, the message listener that authenticates frames
    against the baked-in secret, and `handleMessage`, which gates on Steam
    being ready, looks the command up in the handler table and answers with
    the handler's result merged with the request's `messageId`. The two
    files differ only in their handler tables. */
module Agent {
  import opened Wire
  import opened Steam
  import opened Browser
  import PayloadTemplate
  import Handlers
  import LegacyHandlers

  /** Which of the two agent scripts. */
  datatype Generation = Current | Legacy

  const MISSING_COMMAND: string := "Missing command"
  const NOT_READY: string := "Steam is not ready, try again later"

  /** The replies a message produces, in sending order, and the Steam calls
      made while producing them. */
  datatype Outcome = Outcome(frames: seq<Json>, effects: seq<Effect>)

  /** The name is an own key of the generation's handler table. */
  predicate InTable(gen: Generation, name: string) {
    if gen == Current then Handlers.CommandOf(name).Some? else LegacyHandlers.CommandOf(name).Some?
  }

  /** Runs the handler the table holds under the name. */
  function Handle(gen: Generation, name: string, host: Host, msg: Json): Run
    requires InTable(gen, name)
  {
    if gen == Current then Handlers.Handle(Handlers.CommandOf(name).value, host, msg)
    else LegacyHandlers.Handle(LegacyHandlers.CommandOf(name).value, host, msg)
  }

  /** The properties every object inherits from `Object.prototype`, which
      `handlers[name]` finds as well as the table's own entries. */
  const InheritedNames: set<string> := {
    "constructor", "toString", "toLocaleString", "valueOf", "hasOwnProperty",
    "isPrototypeOf", "propertyIsEnumerable", "__proto__", "__defineGetter__",
    "__defineSetter__", "__lookupGetter__", "__lookupSetter__"}

  /** No command name is an `Object.prototype` property: the table's keys
      are capitalised, the inherited names are not. */
  lemma TablesAvoidInheritedNames(gen: Generation)
    ensures forall name :: name in InheritedNames ==> !InTable(gen, name)
  {
    forall name | name in InheritedNames
      ensures !InTable(gen, name)
    {
      assert |name| > 0 && !('A' <= name[0] <= 'Z');
      Handlers.NamesCapitalised(name);
      LegacyHandlers.NamesCapitalised(name);
    }
  }

  /** The answer to a handler that ran. A resolved object is sent with the
      request's `messageId` laid under it. A rejection is answered twice:
      first the failure, from the `catch` callback, then the `messageId`
      alone, because the awaited value is then undefined. */
  function Settle(id: Option<Json>, run: Run): Outcome {
    match run.result
    case Resolved(fields) => Outcome([WithId(id, fields)], run.effects)
    case Rejected(reason) =>
      Outcome([WithId(id, Failure("Command failed with " + reason)), WithId(id, map[])], run.effects)
  }

  /** `handleMessage` as written. `handlers[msg.command]` also finds what
      `Object.prototype` holds: such a name yields a function that does not
      return a promise (or no function at all), so `handler(msg).catch`
      throws synchronously; the `catch` block sends that TypeError, which
      JSON writes as an empty object. */
  function HandleMessageAsWritten(gen: Generation, host: Host, msg: Json): Outcome {
    var id := Get(msg, "messageId");
    var command := Get(msg, "command");
    if !Truthy(command) then Outcome([JObj(Failure(MISSING_COMMAND))], [])
    else if !host.ready then Outcome([WithId(id, Failure(NOT_READY))], [])
    else
      var name := JsString(command.value);
      if InTable(gen, name) then Settle(id, Handle(gen, name, host, msg))
      else if name in InheritedNames then
        Outcome([WithId(id, map["success" := JBool(false), "error" := JObj(map[])])], [])
      else Outcome([WithId(id, Failure("Invalid command: " + name))], [])
  }

  /** `handleMessage` as evidently intended (the corrected half of the
      prototype-lookup finding), with the table looked up by own keys only: a message
      without a truthy command is answered "Missing command" without its
      `messageId`; while Steam is not ready every command is refused; a
      command of the table runs its handler and is settled; any other name
      is answered "Invalid command: <name>". */
  function HandleMessage(gen: Generation, host: Host, msg: Json): Outcome {
    var id := Get(msg, "messageId");
    var command := Get(msg, "command");
    if !Truthy(command) then Outcome([JObj(Failure(MISSING_COMMAND))], [])
    else if !host.ready then Outcome([WithId(id, Failure(NOT_READY))], [])
    else
      var name := JsString(command.value);
      if InTable(gen, name) then Settle(id, Handle(gen, name, host, msg))
      else Outcome([WithId(id, Failure("Invalid command: " + name))], [])
  }

  /** The listener's check: `msg.secret && msg.secret === secret`. */
  predicate Authorized(secret: string, f: Frame) {
    f.Data? && Get(f.j, "secret") == Some(JStr(secret)) && secret != ""
  }

  /** The message listener, running `handleMessage` as written. A frame
      that is not JSON, or is JSON null, makes it throw before anything is
      sent; one that fails the secret check is refused silently. */
  function Deliver(gen: Generation, host: Host, secret: string, f: Frame): Outcome {
    if Authorized(secret, f) then HandleMessageAsWritten(gen, host, f.j) else Outcome([], [])
  }

  function SocketUrl(port: PayloadTemplate.u16): string {
    "ws://localhost:" + NatToString(port)
  }

  function InitFrame(secret: string): Frame {
    Text("init:" + secret)
  }

  function AsFrames(js: seq<Json>): seq<Frame> {
    seq(|js|, i requires 0 <= i < |js| => Data(js[i]))
  }

  /** The socket an injected agent opened, with the listeners it added. */
  class Agent {
    const generation: Generation
    const secret: string
    const ws: Socket
    /** The Steam calls made so far, oldest first. */
    var calls: seq<Effect>

    constructor (gen: Generation, port: PayloadTemplate.u16, secret: string)
      ensures generation == gen && this.secret == secret && calls == []
      ensures fresh(ws) && ws.url == SocketUrl(port) && ws.readyState == Connecting && ws.sent == []
    {
      generation := gen;
      this.secret := secret;
      ws := new Socket(SocketUrl(port));
      calls := [];
    }

    /** The `open` listener announces the agent to the relay. */
    method OnOpen()
      modifies ws
      ensures ws.readyState == old(ws.readyState)
      ensures ws.sent == old(ws.sent) + (if old(ws.readyState) == Open then [InitFrame(secret)] else [])
    {
      ws.Send(InitFrame(secret));
    }

    /** The `message` listener, with `handleMessage` run to completion. */
    method OnMessage(host: Host, f: Frame)
      modifies this, ws
      ensures calls == old(calls) + Deliver(generation, host, secret, f).effects
      ensures ws.readyState == old(ws.readyState)
      ensures ws.sent == old(ws.sent)
                + (if old(ws.readyState) == Open then AsFrames(Deliver(generation, host, secret, f).frames) else [])
    {
      if Authorized(secret, f) {
        var out := HandleMessageAsWritten(generation, host, f.j);
        calls := calls + out.effects;
        ws.SendAll(AsFrames(out.frames));
      }
    }
  }

  /** One run of the injected script. When `window.rpc` holds an open
      socket, the script keeps it and stops if `replace` is false, and
      closes it first if `replace` is true; then it opens a new socket and
      stores it in `window.rpc`. A socket that is not open is left as it is
      and replaced. */
  method Inject(w: Window, gen: Generation, replace: bool, port: PayloadTemplate.u16, secret: string)
    returns (agent: Agent?)
    modifies w, w.rpc
    ensures old(w.HasOpenSocket()) && !replace ==>
              agent == null && w.rpc == old(w.rpc) && unchanged(old(w.rpc))
    ensures old(w.HasOpenSocket()) && replace ==>
              old(w.rpc).readyState == Closing && old(w.rpc).sent == old(w.rpc.sent)
    ensures old(w.rpc) != null && !old(w.HasOpenSocket()) ==> unchanged(old(w.rpc))
    ensures !(old(w.HasOpenSocket()) && !replace) ==>
              agent != null && fresh(agent) && fresh(agent.ws) && w.rpc == agent.ws &&
              agent.generation == gen && agent.secret == secret && agent.calls == [] &&
              agent.ws.url == SocketUrl(port) && agent.ws.readyState == Connecting && agent.ws.sent == []
  {
    if w.rpc != null && w.rpc.readyState == Open {
      if replace {
        w.rpc.Close();
      } else {
        return null;
      }
    }
    agent := new Agent(gen, port, secret);
    w.rpc := agent.ws;
  }

  // ---------------------------------------------------------------------
  // Properties

  /** Only a frame carrying the baked-in secret reaches `handleMessage`;
      every other frame gets no answer and causes no Steam call. */
  lemma OnlyAuthorizedDispatched(gen: Generation, host: Host, secret: string, f: Frame)
    ensures !Authorized(secret, f) ==> Deliver(gen, host, secret, f) == Outcome([], [])
    ensures Authorized(secret, f) ==> Deliver(gen, host, secret, f) == HandleMessageAsWritten(gen, host, f.j)
    ensures Authorized(secret, f) ==> |Deliver(gen, host, secret, f).frames| >= 1
  {
  }

  /** An empty baked-in secret, and any frame that is not a JSON object
      with a string `secret`, is refused. */
  lemma RefusedFrames(gen: Generation, host: Host, secret: string, f: Frame)
    requires secret == "" || !f.Data? || !f.j.JObj? || !(Get(f.j, "secret").Some? && Get(f.j, "secret").value.JStr?)
    ensures Deliver(gen, host, secret, f) == Outcome([], [])
  {
  }

  /** A message without a truthy `command` is answered with exactly
      `{success: false, error: "Missing command"}`, without its
      `messageId`, and nothing runs. */
  lemma MissingCommandAnswer(gen: Generation, host: Host, msg: Json)
    requires !Truthy(Get(msg, "command"))
    ensures HandleMessageAsWritten(gen, host, msg) == Outcome([JObj(Failure(MISSING_COMMAND))], [])
    ensures HandleMessage(gen, host, msg) == Outcome([JObj(Failure(MISSING_COMMAND))], [])
    ensures HandleMessage(gen, host, msg).frames[0].fields.Keys == {"success", "error"}
  {
  }

  /** While Steam is not ready, a message with a command is answered with
      the not-ready failure under its `messageId`, and no handler runs. */
  lemma NotReadyAnswer(gen: Generation, host: Host, msg: Json)
    requires Truthy(Get(msg, "command")) && !host.ready
    ensures HandleMessageAsWritten(gen, host, msg) == Outcome([WithId(Get(msg, "messageId"), Failure(NOT_READY))], [])
    ensures HandleMessage(gen, host, msg) == Outcome([WithId(Get(msg, "messageId"), Failure(NOT_READY))], [])
  {
  }

  /** A command name outside the table is answered "Invalid command:
      <name>" and nothing runs; as written, only for names that are not
      `Object.prototype` properties. */
  lemma UnknownCommandAnswer(gen: Generation, host: Host, msg: Json)
    requires Truthy(Get(msg, "command")) && host.ready
    requires !InTable(gen, JsString(Get(msg, "command").value))
    ensures HandleMessage(gen, host, msg) ==
      Outcome([WithId(Get(msg, "messageId"), Failure("Invalid command: " + JsString(Get(msg, "command").value)))], [])
    ensures JsString(Get(msg, "command").value) !in InheritedNames ==>
      HandleMessageAsWritten(gen, host, msg) ==
      Outcome([WithId(Get(msg, "messageId"), Failure("Invalid command: " + JsString(Get(msg, "command").value)))], [])
  {
  }

  /** A resolved handler's object is sent once, under the request's
      `messageId`; a rejected handler is answered with "Command failed with
      <reason>" and then with a frame holding the `messageId` alone. */
  lemma SettleFrames(id: Option<Json>, run: Run)
    ensures Settle(id, run).effects == run.effects
    ensures run.result.Resolved? ==> Settle(id, run).frames == [WithId(id, run.result.fields)]
    ensures run.result.Rejected? ==>
      |Settle(id, run).frames| == 2 &&
      Settle(id, run).frames[0] == WithId(id, Failure("Command failed with " + run.result.reason)) &&
      Settle(id, run).frames[1] == (if id.Some? then JObj(map["messageId" := id.value]) else JObj(map[]))
  {
  }

  /** No handler of either table returns a `messageId` of its own. */
  lemma HandlerFieldsHaveNoId(gen: Generation, name: string, host: Host, msg: Json)
    requires InTable(gen, name)
    ensures Handle(gen, name, host, msg).result.Resolved? ==>
              "messageId" !in Handle(gen, name, host, msg).result.fields
  {
    if gen == Current {
      Handlers.ResultsHaveNoId(Handlers.CommandOf(name).value, host, msg);
    } else {
      LegacyHandlers.ResultsHaveNoId(LegacyHandlers.CommandOf(name).value, host, msg);
    }
  }

  /** Every answer to a message with a command and a `messageId` carries
      that `messageId`. */
  lemma AnswersCarryId(gen: Generation, host: Host, msg: Json)
    requires Truthy(Get(msg, "command")) && Get(msg, "messageId").Some?
    ensures forall fr :: fr in HandleMessageAsWritten(gen, host, msg).frames ==>
              fr.JObj? && "messageId" in fr.fields && fr.fields["messageId"] == Get(msg, "messageId").value
    ensures forall fr :: fr in HandleMessage(gen, host, msg).frames ==>
              fr.JObj? && "messageId" in fr.fields && fr.fields["messageId"] == Get(msg, "messageId").value
  {
    var name := JsString(Get(msg, "command").value);
    if host.ready && InTable(gen, name) {
      HandlerFieldsHaveNoId(gen, name, host, msg);
    }
  }

  /** A command of the table runs its handler, and the handler's Steam calls
      are all the calls the message causes. */
  lemma KnownCommandRuns(gen: Generation, host: Host, msg: Json)
    requires Truthy(Get(msg, "command")) && host.ready
    requires InTable(gen, JsString(Get(msg, "command").value))
    ensures var run := Handle(gen, JsString(Get(msg, "command").value), host, msg);
      HandleMessageAsWritten(gen, host, msg) == Settle(Get(msg, "messageId"), run) &&
      HandleMessageAsWritten(gen, host, msg).effects == run.effects
    ensures HandleMessage(gen, host, msg) == HandleMessageAsWritten(gen, host, msg)
  {
  }

  /** As written, an inherited name such as "toString" is answered with an
      empty error object instead of "Invalid command: toString". */
  lemma InheritedNameAnswersEmptyError(gen: Generation, host: Host, id: int)
    requires host.ready
    ensures var msg := JObj(map["command" := JStr("toString"), "messageId" := JNum(id)]);
      HandleMessageAsWritten(gen, host, msg) ==
        Outcome([JObj(map["messageId" := JNum(id), "success" := JBool(false), "error" := JObj(map[])])], [])
  {
    var msg := JObj(map["command" := JStr("toString"), "messageId" := JNum(id)]);
    assert Get(msg, "command") == Some(JStr("toString"));
    assert Get(msg, "messageId") == Some(JNum(id));
    assert "toString"[0] == 't';
    Handlers.NamesCapitalised("toString");
    LegacyHandlers.NamesCapitalised("toString");
    assert !InTable(gen, "toString");
    assert "toString" in InheritedNames;
    assert WithId(Some(JNum(id)), map["success" := JBool(false), "error" := JObj(map[])])
        == JObj(map["messageId" := JNum(id), "success" := JBool(false), "error" := JObj(map[])]);
  }

  /** The own-key lookup changes the answer only for inherited names:
      for every other message the dispatch is the one written. */
  lemma OwnKeysDifferOnlyOnInheritedNames(gen: Generation, host: Host, msg: Json)
    requires !Truthy(Get(msg, "command")) || JsString(Get(msg, "command").value) !in InheritedNames
    ensures HandleMessage(gen, host, msg) == HandleMessageAsWritten(gen, host, msg)
  {
  }

  /** The two agent scripts answer the missing-command and not-ready
      errors alike (their "Invalid command" answers differ, because the
      tables differ). */
  lemma GenerationsShareErrors(host: Host, msg: Json)
    requires !Truthy(Get(msg, "command")) || !host.ready
    ensures HandleMessageAsWritten(Current, host, msg) == HandleMessageAsWritten(Legacy, host, msg)
    ensures HandleMessage(Current, host, msg) == HandleMessage(Legacy, host, msg)
  {
  }
}
