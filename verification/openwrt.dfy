/**
  The router RPC client of src/openwrt.js: the session-token cache, the ubus
  envelope unwrapping, the single-flight gate, one `connect` poll and the
  `send('ssid', …)` read-modify-commit-reload sequence.

  The client's mutable fields form the `Client` record threaded through every
  operation. The world is an `Env`: the configured credentials, a clock and
  the router's replies, both indexed by the position in the event trace at
  which they are read. Every operation takes `at`, the number of events
  already in the trace, and returns only the events it adds.
 */
module OpenWrt {
  import opened Wrappers
  import opened JsValues
  import Acl

  /** The fixed session lease a successful login grants, in milliseconds. */
  const LeaseMs: int := 240000

  /** The all-zero session id a login request is sent under. */
  const AnonymousSession: string := "00000000000000000000000000000000"

  /** The fourth positional parameter of a ubus `call`. */
  datatype Params =
    | NoParams                                                  // `{}`
    | Credentials(username: Json, password: Json)               // session login
    | UciSet(config: string, section: Json, disabled: string)   // `{config, section, values: {disabled}}`
    | UciConfig(config: string)                                 // `{config}`

  /** One ubus method invocation: object, method name, parameters. */
  datatype Call = Call(service: string, op: string, params: Params)

  /** The positional `params` of one JSON-RPC `call` request: the session, then the invocation. */
  datatype Request = Request(session: string, call: Call)

  /** One interface of `network.wireless status`, with the fields `connect` fetched. */
  datatype IfaceStatus = IfaceStatus(ssid: Json, up: Json, mode: Json)
  /** One radio of `network.wireless status`, in the order `Object.values` lists them. */
  datatype RadioStatus = RadioStatus(name: Json, up: Json, interfaces: seq<IfaceStatus>)
  datatype WirelessStatus = WirelessStatus(radios: seq<RadioStatus>)

  /** The payload found in `result[1]` of a reply. */
  datatype Payload =
    | SessionInfo(ubusRpcSession: Option<string>)
    | BoardInfo(model: string)
    | WirelessInfo(status: WirelessStatus)
    | OtherPayload

  /** What the HTTP POST yields: a transport failure (axios throws) or a JSON-RPC envelope. */
  datatype Reply = TransportFailure | Envelope(error: Option<string>, result: Option<seq<Payload>>)

  /** What an operation can throw. */
  datatype Fault =
    | TransportError            // the POST itself failed
    | LoginFailed               // "ubus login failed"
    | CallFailed(message: string)
    | MalformedReply            // `response.data.result[1]` read on a reply without `result`
    | StatusUndefined           // `status` at line 106 is not bound (ReferenceError)
    | SsidNotFound
    | NoUciSection
    | MalformedStatus           // `Object.values(x.radios)` on a reply that is not a wireless status

  /** The faults a single ubus round trip can raise. */
  predicate RpcFault(f: Fault) {
    f.TransportError? || f.LoginFailed? || f.CallFailed? || f.MalformedReply?
  }

  /** The per-interface and per-radio records `connect` builds. */
  datatype IfaceInfo = IfaceInfo(name: Json, state: bool, mode: Json)
  datatype RadioInfo = RadioInfo(name: Json, state: bool, interfaces: seq<IfaceInfo>)

  /** The `openWrtInfo` object `connect` returns. */
  datatype ConnectInfo = ConnectInfo(
    state: bool,
    systemInfo: Option<Payload>,
    wirelessStatus: Option<Payload>,
    wirelessRadios: seq<RadioInfo>,
    ssids: seq<IfaceInfo>)

  /** What the client does that an observer can see: POSTs and emitted events. */
  datatype Event =
    | LoginPosted(req: Request)            // the POST of `login`
    | CallPosted(req: Request)             // the POST of `ubusCall`
    | ErrorEvent(fault: Fault)             // `emit('error', …)` from the gate
    | SuccessEvent                         // `emit('success', …)`
    | SystemInfoEvent(info: Option<Payload>)
    | WirelessStatusEvent(status: Option<Payload>)
    | WirelessRadiosEvent(radios: seq<RadioInfo>)
    | SsidsEvent(ssids: seq<IfaceInfo>)

  /** The client's own state: the cached session, the gate flag and the first-run flag. */
  datatype Client = Client(sessionId: Option<string>, expiresAt: int, lock: bool, firstRun: bool)

  /** The state the constructor sets up. */
  const Fresh: Client := Client(None, 0, false, true)

  /** The configured credentials, the clock (`Date.now()`) and the router's replies. */
  datatype Env = Env(user: Json, passwd: Json, clock: nat -> int, router: (nat, Request) -> Reply)

  /** The state after an operation, the events it added, and what it returned or threw. */
  datatype Run<+T> = Run(client: Client, events: seq<Event>, out: Result<T, Fault>)

  /** The ubus invocation one event posts, if any. */
  function CallOf(e: Event): seq<Call> {
    if e.CallPosted? then [e.req.call] else []
  }

  /** The ubus invocations among some events, in order, leaving out logins. */
  function ServiceCalls(events: seq<Event>): seq<Call> {
    if |events| == 0 then [] else CallOf(events[0]) + ServiceCalls(events[1..])
  }

  lemma {:induction false} ServiceCallsAppend(a: seq<Event>, b: seq<Event>)
    ensures ServiceCalls(a + b) == ServiceCalls(a) + ServiceCalls(b)
    decreases |a|
  {
    if |a| == 0 {
      assert a + b == b;
    } else {
      var head := CallOf(a[0]);
      assert (a + b)[0] == a[0];
      assert (a + b)[1..] == a[1..] + b;
      ServiceCallsAppend(a[1..], b);
      assert ServiceCalls(a + b) == head + (ServiceCalls(a[1..]) + ServiceCalls(b));
      assert head + (ServiceCalls(a[1..]) + ServiceCalls(b)) == (head + ServiceCalls(a[1..])) + ServiceCalls(b);
    }
  }

  lemma {:induction false} NoPostNoCalls(events: seq<Event>)
    requires forall e :: e in events ==> !e.CallPosted?
    ensures ServiceCalls(events) == []
    decreases |events|
  {
    if |events| > 0 {
      assert events[0] in events;
      NoPostNoCalls(events[1..]);
    }
  }

  /** Whether the cached session may be reused at time `now` (openwrt.js:60). */
  predicate Cached(c: Client, now: int) {
    c.sessionId.Some? && c.sessionId.value != "" && now < c.expiresAt
  }

  /** The login request: anonymous session, `session login` with the configured user and password. */
  function LoginRequest(env: Env): Request {
    Request(AnonymousSession, Call("session", "login", Credentials(env.user, env.passwd)))
  }

  /** `response.data?.result?.[1]`. */
  function SecondResult(reply: Reply): Option<Payload> {
    if reply.Envelope? && reply.result.Some? && |reply.result.value| > 1 then Some(reply.result.value[1])
    else None
  }

  /** `result?.ubus_rpc_session` when it is truthy. */
  function SessionIn(p: Option<Payload>): Option<string> {
    match p
    case Some(SessionInfo(Some(id))) => if id != "" then Some(id) else None
    case _ => None
  }

  /** `login()`: reuse the cached session while it is fresh, otherwise log in and cache a 240 s lease. */
  function Login(env: Env, c: Client, at: nat): (r: Run<string>)
    ensures Cached(c, env.clock(at)) ==> r == Run(c, [], Ok(c.sessionId.value))
    ensures !Cached(c, env.clock(at)) ==> r.events == [LoginPosted(LoginRequest(env))]
    ensures r.out.Ok? ==> r.out.value != "" && r.client.sessionId == Some(r.out.value)
    ensures !Cached(c, env.clock(at)) && r.out.Ok? ==>
      && SessionIn(SecondResult(env.router(at, LoginRequest(env)))) == Some(r.out.value)
      && r.client == c.(sessionId := Some(r.out.value), expiresAt := env.clock(at) + LeaseMs)
    ensures (!Cached(c, env.clock(at)) && env.router(at, LoginRequest(env)).Envelope?
             && SessionIn(SecondResult(env.router(at, LoginRequest(env)))).None?) ==> r.out == Err(LoginFailed)
    ensures r.out.Err? ==> r.client == c && RpcFault(r.out.error)
  {
    var now := env.clock(at);
    if Cached(c, now) then Run(c, [], Ok(c.sessionId.value))
    else
      var req := LoginRequest(env);
      var reply := env.router(at, req);
      if reply.TransportFailure? then Run(c, [LoginPosted(req)], Err(TransportError))
      else match SessionIn(SecondResult(reply))
        case None => Run(c, [LoginPosted(req)], Err(LoginFailed))
        case Some(id) => Run(c.(sessionId := Some(id), expiresAt := now + LeaseMs), [LoginPosted(req)], Ok(id))
  }

  /** The reply to the last POST of `events`, which were added starting at position `at`. */
  function LastReply(env: Env, at: nat, events: seq<Event>): Reply
    requires |events| > 0 && (events[|events| - 1].CallPosted? || events[|events| - 1].LoginPosted?)
  {
    env.router(at + |events| - 1, events[|events| - 1].req)
  }

  /**
    How `ubusCall` reads the reply to its POST: a JSON-RPC error throws its
    message (or "ubus call error" when it has none), an envelope without
    `result` throws on `result[1]`, otherwise the value is `result[1]`.
   */
  function Unwrap(reply: Reply): (r: Result<Option<Payload>, Fault>)
    ensures r.Ok? <==> reply.Envelope? && reply.error.None? && reply.result.Some?
    ensures r.Ok? ==> r.value == SecondResult(reply)
    ensures reply.Envelope? && reply.error.Some? ==>
      r == Err(CallFailed(if reply.error.value != "" then reply.error.value else "ubus call error"))
    ensures r.Err? && r.error.CallFailed? ==> r.error.message != ""
    ensures r.Err? ==> RpcFault(r.error) && r.error != LoginFailed
  {
    match reply
    case TransportFailure => Err(TransportError)
    case Envelope(err, result) =>
      if err.Some? then Err(CallFailed(if err.value != "" then err.value else "ubus call error"))
      else if result.None? then Err(MalformedReply)
      else Ok(if |result.value| > 1 then Some(result.value[1]) else None)
  }

  /** What a login leaves, at most its own POST, is no ubus call. */
  lemma LoginQuiet(login: seq<Event>)
    requires login == [] || (|login| == 1 && login[0].LoginPosted?)
    ensures OnlyPosts(login) && ServiceCalls(login) == []
    ensures |login| > 0 ==> !login[|login| - 1].CallPosted?
  {
  }

  /** What a login leaves, followed by one call POST, is that one ubus call. */
  lemma CallAfterLogin(login: seq<Event>, req: Request)
    requires login == [] || (|login| == 1 && login[0].LoginPosted?)
    ensures OnlyPosts(login + [CallPosted(req)]) && ServiceCalls(login + [CallPosted(req)]) == [req.call]
  {
    LoginQuiet(login);
    ServiceCallsAppend(login, [CallPosted(req)]);
    assert ServiceCalls([CallPosted(req)]) == [req.call];
  }

  /** `ubusCall(service, method, params)`: log in, POST under that session, unwrap `result[1]`. */
  function UbusCall(env: Env, c: Client, at: nat, call: Call): (r: Run<Option<Payload>>)
    ensures r.client.lock == c.lock && r.client.firstRun == c.firstRun
    ensures OnlyPosts(r.events)
    ensures ServiceCalls(r.events) == [] || ServiceCalls(r.events) == [call]
    ensures r.out.Ok? ==>
      && ServiceCalls(r.events) == [call]
      && r.client.sessionId.Some?
      && |r.events| > 0
      && r.events[|r.events| - 1] == CallPosted(Request(r.client.sessionId.value, call))
      && r.out == Unwrap(LastReply(env, at, r.events))
    ensures (|r.events| > 0 && r.events[|r.events| - 1].CallPosted?) ==>
      r.out == Unwrap(LastReply(env, at, r.events))
    ensures r.out.Err? ==> RpcFault(r.out.error)
    ensures r.out.Err? && r.out.error == LoginFailed ==> ServiceCalls(r.events) == []
  {
    var l := Login(env, c, at);
    LoginQuiet(l.events);
    if l.out.Err? then Run(l.client, l.events, Err(l.out.error))
    else
      var req := Request(l.out.value, call);
      var evs := l.events + [CallPosted(req)];
      CallAfterLogin(l.events, req);
      assert LastReply(env, at, evs) == env.router(at + |l.events|, req);
      Run(l.client, evs, Unwrap(env.router(at + |l.events|, req)))
  }

  /** Only POSTs, no emitted event. */
  predicate OnlyPosts(events: seq<Event>) {
    forall e :: e in events ==> e.LoginPosted? || e.CallPosted?
  }

  /** One call issued, then the rest of a chain: together they issue a prefix of the whole chain. */
  lemma ChainStep(first: seq<Event>, rest: seq<Event>, calls: seq<Call>)
    requires |calls| > 0
    requires OnlyPosts(first) && OnlyPosts(rest)
    requires ServiceCalls(first) == [calls[0]] && ServiceCalls(rest) <= calls[1..]
    ensures OnlyPosts(first + rest)
    ensures ServiceCalls(first + rest) <= calls
    ensures ServiceCalls(rest) == calls[1..] ==> ServiceCalls(first + rest) == calls
  {
    ServiceCallsAppend(first, rest);
    assert calls == [calls[0]] + calls[1..];
  }

  /**
    Several `await this.ubusCall(…)` in a row: the calls are issued in order
    and the first one that throws ends the sequence. Returns each call's `result[1]`.
   */
  function Chain(env: Env, c: Client, at: nat, calls: seq<Call>): (r: Run<seq<Option<Payload>>>)
    ensures r.client.lock == c.lock && r.client.firstRun == c.firstRun
    ensures OnlyPosts(r.events)
    ensures ServiceCalls(r.events) <= calls
    ensures r.out.Ok? ==> ServiceCalls(r.events) == calls && |r.out.value| == |calls|
    ensures r.out.Err? ==> RpcFault(r.out.error)
    decreases |calls|
  {
    if |calls| == 0 then Run(c, [], Ok([]))
    else
      var first := UbusCall(env, c, at, calls[0]);
      if first.out.Err? then Run(first.client, first.events, Err(first.out.error))
      else
        var rest := Chain(env, first.client, at + |first.events|, calls[1..]);
        ChainStep(first.events, rest.events, calls);
        Run(rest.client, first.events + rest.events,
            if rest.out.Err? then Err(rest.out.error) else Ok([first.out.value] + rest.out.value))
  }

  /** Drop the returned value of a run, keeping its state, events and failure. */
  function Forget<T>(r: Run<T>): Run<()> {
    Run(r.client, r.events, if r.out.Ok? then Ok(()) else Err(r.out.error))
  }

  /**
    `handleWithLock(fn)`: a busy gate drops the call; otherwise `fn` runs with
    the lock held, whatever it throws becomes one `error` event, and the lock is
    released in every case.
   */
  function WithLock(c: Client, at: nat, body: (Client, nat) -> Run<()>): (r: Run<()>)
    ensures c.lock ==> r == Run(c, [], Ok(()))
    ensures !c.lock ==> r.out == Ok(()) && !r.client.lock
    ensures !c.lock ==>
      var inner := body(c.(lock := true), at);
      && r.client == inner.client.(lock := false)
      && r.events == inner.events + (if inner.out.Err? then [ErrorEvent(inner.out.error)] else [])
  {
    if c.lock then Run(c, [], Ok(()))
    else
      var inner := body(c.(lock := true), at);
      var tail := if inner.out.Err? then [ErrorEvent(inner.out.error)] else [];
      Run(inner.client.(lock := false), inner.events + tail, Ok(()))
  }

  /** The call reading the wireless status. */
  const StatusCall: Call := Call("network.wireless", "status", NoParams)
  /** The call reading the board information. */
  const BoardCall: Call := Call("system", "board", NoParams)
  /** The commit of the `wireless` configuration. */
  const CommitCall: Call := Call("uci", "commit", UciConfig("wireless"))
  /** The wireless reload. */
  const ReloadCall: Call := Call("network.wireless", "reload", NoParams)

  /** The `uci set` writing one section's `disabled` value. */
  function SetCall(section: Json, disabled: string): Call {
    Call("uci", "set", UciSet("wireless", section, disabled))
  }

  /** `state ? "0" : "1"`. */
  function Disabled(state: Json): (r: string)
    ensures r == "0" <==> Truthy(state)
    ensures r == "1" <==> !Truthy(state)
  {
    if Truthy(state) then "0" else "1"
  }

  /** The writes of one SSID toggle: set `disabled`, commit `wireless`, reload. */
  function WriteCalls(section: Json, disabled: string): seq<Call> {
    [SetCall(section, disabled), CommitCall, ReloadCall]
  }

  /** The full call sequence of one SSID toggle. */
  function ToggleCalls(section: Json, disabled: string): seq<Call> {
    [StatusCall] + WriteCalls(section, disabled)
  }

  /**
    The calls issued so far form the start of a toggle writing `disabled`:
    the status read, then a `uci set` of `disabled` on some section, the
    commit and the reload, in that order and nothing after.
   */
  predicate TogglePrefix(calls: seq<Call>, disabled: string) {
    && |calls| <= 4
    && (|calls| > 0 ==> calls[0] == StatusCall)
    && (|calls| > 1 ==> calls[1].params.UciSet? && calls[1] == SetCall(calls[1].params.section, disabled))
    && (|calls| > 2 ==> calls[2] == CommitCall)
    && (|calls| > 3 ==> calls[3] == ReloadCall)
  }

  /** The status read followed by (the start of) the writes to one section is the start of a toggle. */
  lemma StatusThenWrites(st: seq<Event>, w: seq<Event>, section: Json, disabled: string)
    requires ServiceCalls(st) == [StatusCall]
    requires ServiceCalls(w) <= WriteCalls(section, disabled)
    ensures ServiceCalls(st + w) == [StatusCall] + ServiceCalls(w)
    ensures TogglePrefix(ServiceCalls(st + w), disabled)
  {
    ServiceCallsAppend(st, w);
    var calls := ServiceCalls(st + w);
    var writes := WriteCalls(section, disabled);
    assert |calls| > 1 ==> calls[1] == writes[0];
    assert |calls| > 2 ==> calls[2] == writes[1];
    assert |calls| > 3 ==> calls[3] == writes[2];
  }

  /** The status read alone, or nothing at all, is the start of a toggle. */
  lemma StatusAlone(calls: seq<Call>, disabled: string)
    requires calls <= [StatusCall]
    ensures TogglePrefix(calls, disabled)
  {
  }

  /** Events that post nothing add no call. */
  lemma AppendQuiet(a: seq<Event>, tail: seq<Event>)
    requires forall e :: e in tail ==> !e.CallPosted?
    ensures ServiceCalls(a + tail) == ServiceCalls(a)
  {
    ServiceCallsAppend(a, tail);
    NoPostNoCalls(tail);
  }

  /** The record `connect` builds for one interface: `state` is `up === true`. */
  function InterfaceInfos(ifaces: seq<IfaceStatus>): (r: seq<IfaceInfo>)
    ensures |r| == |ifaces|
    ensures forall j :: 0 <= j < |r| ==>
      && r[j].name == ifaces[j].ssid
      && r[j].mode == ifaces[j].mode
      && (r[j].state <==> ifaces[j].up == Bool(true))
  {
    seq(|ifaces|, j requires 0 <= j < |ifaces| => IfaceInfo(ifaces[j].ssid, ifaces[j].up == Bool(true), ifaces[j].mode))
  }

  /** `infos` is the per-radio mapping of `st` (openwrt.js:106-114). */
  predicate Describes(infos: seq<RadioInfo>, st: WirelessStatus) {
    && |infos| == |st.radios|
    && forall i :: 0 <= i < |infos| ==>
      && infos[i].name == st.radios[i].name
      && (infos[i].state <==> st.radios[i].up == Bool(true))
      && infos[i].interfaces == InterfaceInfos(st.radios[i].interfaces)
  }

  /** The per-radio mapping: a radio's `state` is `up === true`, its interfaces mapped in order. */
  function RadioInfos(st: WirelessStatus): (r: seq<RadioInfo>)
    ensures Describes(r, st)
  {
    seq(|st.radios|, i requires 0 <= i < |st.radios| =>
      RadioInfo(st.radios[i].name, st.radios[i].up == Bool(true), InterfaceInfos(st.radios[i].interfaces)))
  }

  /** `radios.flatMap(radio => radio.interfaces)`. */
  function FlatInterfaces(radios: seq<RadioInfo>): (r: seq<IfaceInfo>)
    ensures forall x :: x in r <==> exists i :: 0 <= i < |radios| && x in radios[i].interfaces
    ensures |radios| > 0 ==> |r| >= |radios[0].interfaces|
  {
    if |radios| == 0 then []
    else
      var rest := FlatInterfaces(radios[1..]);
      assert forall x :: (exists i :: 1 <= i < |radios| && x in radios[i].interfaces) <==> x in rest by {
        forall x ensures (exists i :: 1 <= i < |radios| && x in radios[i].interfaces) <==> x in rest {
          if x in rest {
            var k :| 0 <= k < |radios[1..]| && x in radios[1..][k].interfaces;
            assert x in radios[k + 1].interfaces;
          }
          if exists i :: 1 <= i < |radios| && x in radios[i].interfaces {
            var i :| 1 <= i < |radios| && x in radios[i].interfaces;
            assert x in radios[1..][i - 1].interfaces;
          }
        }
      }
      radios[0].interfaces + rest
  }

  /** The object `connect` starts from (openwrt.js:101). */
  const BlankInfo: ConnectInfo := ConnectInfo(false, None, None, [], [])

  /** The events a successful `connect` emits, `success` only on the first run. */
  function Emitted(firstRun: bool, info: ConnectInfo): (r: seq<Event>)
    ensures ServiceCalls(r) == []
    ensures SuccessEvent in r <==> firstRun
    ensures forall e :: e in r ==> !e.ErrorEvent?
  {
    var r := [SystemInfoEvent(info.systemInfo), WirelessStatusEvent(info.wirelessStatus),
              WirelessRadiosEvent(info.wirelessRadios), SsidsEvent(info.ssids)]
             + (if firstRun then [SuccessEvent] else []);
    NoPostNoCalls(r);
    r
  }

  /**
    `connect()` as written. `statusGlobal` is whatever the identifier `status`
    at line 106 resolves to: nothing in a Node module (`None`, a
    ReferenceError), so the radio mapping fetched that binding rather than the
    wireless status just fetched, and the emitted `ssids` flattens the blank
    object's empty radio list.
   */
  function Connect(env: Env, c: Client, at: nat, statusGlobal: Option<WirelessStatus>): (r: Run<ConnectInfo>)
    ensures r.client.lock == c.lock
    ensures r.client.firstRun == (c.firstRun && r.out.Err?)
    ensures ServiceCalls(r.events) <= [BoardCall, StatusCall]
    ensures r.out.Ok? ==>
      && ServiceCalls(r.events) == [BoardCall, StatusCall]
      && r.out.value.state
      && statusGlobal.Some?
      && Describes(r.out.value.wirelessRadios, statusGlobal.value)
      && r.out.value.ssids == []
    ensures (SuccessEvent in r.events) <==> c.firstRun && r.out.Ok?
    ensures statusGlobal.None? ==> r.out.Err?
  {
    var fetched := Chain(env, c, at, [BoardCall, StatusCall]);
    if fetched.out.Err? then Run(fetched.client, fetched.events, Err(fetched.out.error))
    else match statusGlobal
      case None => Run(fetched.client, fetched.events, Err(StatusUndefined))
      case Some(st) =>
        var info := ConnectInfo(true, fetched.out.value[0], fetched.out.value[1],
                                RadioInfos(st), FlatInterfaces(BlankInfo.wirelessRadios));
        var emitted := Emitted(fetched.client.firstRun, info);
        ServiceCallsAppend(fetched.events, emitted);
        Run(fetched.client.(firstRun := false), fetched.events + emitted, Ok(info))
  }

  /**
    `connect()` as evidently intended: the radio mapping reads the wireless
    status just fetched, and `ssids` flattens the radios just built.
   */
  function ConnectCorrected(env: Env, c: Client, at: nat): (r: Run<ConnectInfo>)
    ensures r.client.lock == c.lock
    ensures r.client.firstRun == (c.firstRun && r.out.Err?)
    ensures ServiceCalls(r.events) <= [BoardCall, StatusCall]
    ensures r.out.Ok? ==>
      && ServiceCalls(r.events) == [BoardCall, StatusCall]
      && r.out.value.state
      && r.out.value.wirelessStatus.Some? && r.out.value.wirelessStatus.value.WirelessInfo?
      && Describes(r.out.value.wirelessRadios, r.out.value.wirelessStatus.value.status)
      && (forall x :: x in r.out.value.ssids <==>
            exists i :: 0 <= i < |r.out.value.wirelessRadios| && x in r.out.value.wirelessRadios[i].interfaces)
    ensures r.out.Err? ==> RpcFault(r.out.error) || r.out.error == MalformedStatus
    ensures r.out.Err? && r.out.error == MalformedStatus ==> ServiceCalls(r.events) == [BoardCall, StatusCall]
    ensures (SuccessEvent in r.events) <==> c.firstRun && r.out.Ok?
  {
    var fetched := Chain(env, c, at, [BoardCall, StatusCall]);
    if fetched.out.Err? then Run(fetched.client, fetched.events, Err(fetched.out.error))
    else match fetched.out.value[1]
      case Some(WirelessInfo(st)) =>
        var radios := RadioInfos(st);
        var info := ConnectInfo(true, fetched.out.value[0], fetched.out.value[1], radios, FlatInterfaces(radios));
        var emitted := Emitted(fetched.client.firstRun, info);
        ServiceCallsAppend(fetched.events, emitted);
        Run(fetched.client.(firstRun := false), fetched.events + emitted, Ok(info))
      case _ => Run(fetched.client, fetched.events, Err(MalformedStatus))
  }

  /** One tick of the `connect` poll task: `connect()` behind the gate (openwrt.js:36-38). */
  function PollTick(env: Env, c: Client, at: nat, statusGlobal: Option<WirelessStatus>): (r: Run<()>)
    ensures c.lock ==> r == Run(c, [], Ok(()))
    ensures !r.client.lock || c.lock
    ensures r.out == Ok(())
    ensures !c.lock ==>
      var inner := Connect(env, c.(lock := true), at, statusGlobal);
      && r.client == inner.client.(lock := false)
      && r.events == inner.events + (if inner.out.Err? then [ErrorEvent(inner.out.error)] else [])
  {
    WithLock(c, at, (c': Client, a: nat) => Forget(Connect(env, c', a, statusGlobal)))
  }

  /** What `functions.findIfaceBySsid` returns when it finds an interface: its UCI section. */
  datatype IfaceRef = IfaceRef(section: Json)

  /**
    The body `send('ssid', ssidName, state)` runs under the gate: read the
    wireless status, look the SSID up, write `disabled`, commit, reload.
    `find` stands for `functions.findIfaceBySsid`, which is not part of this model.
    Returns the UCI section written.
   */
  function ToggleSsid(env: Env, c: Client, at: nat, ssidName: Json, state: Json,
                      find: (Option<Payload>, Json) -> Option<IfaceRef>): (r: Run<Json>)
    ensures Toggled(r, c, Disabled(state))
    ensures LookedUp(r, Chain(env, c, at, [StatusCall]), ssidName, find)
  {
    var st := Chain(env, c, at, [StatusCall]);
    StatusAlone(ServiceCalls(st.events), Disabled(state));
    if st.out.Err? then Run(st.client, st.events, Err(st.out.error))
    else
      assert SuccessEvent !in st.events by { assert OnlyPosts(st.events); }
      match find(st.out.value[0], ssidName)
      case None => Run(st.client, st.events, Err(SsidNotFound))
      case Some(iface) =>
        if !Truthy(iface.section) then Run(st.client, st.events, Err(NoUciSection))
        else
          var w := Apply(env, st.client, at + |st.events|, iface.section, Disabled(state));
          WritesAfterStatus(st, w, c, iface.section, Disabled(state));
          Run(w.client, st.events + w.events, w.out)
  }

  /**
    What one toggle guarantees, given the client it started from and the value
    it writes. The gate and first-run flags are untouched. A success issued
    the full toggle sequence on a truthy section and ended with `success`. A
    failure emitted no `success`. A failure that found no interface or no
    section issued the status read alone. Every toggle issued the start of
    the toggle sequence.
   */
  predicate Toggled(r: Run<Json>, c: Client, disabled: string) {
    && r.client.lock == c.lock && r.client.firstRun == c.firstRun
    && (r.out.Ok? ==>
          && Truthy(r.out.value)
          && ServiceCalls(r.events) == ToggleCalls(r.out.value, disabled)
          && |r.events| > 0 && r.events[|r.events| - 1] == SuccessEvent)
    && (r.out.Err? ==> SuccessEvent !in r.events)
    && (r.out.Err? && (r.out.error == SsidNotFound || r.out.error == NoUciSection) ==>
          ServiceCalls(r.events) == [StatusCall])
    && TogglePrefix(ServiceCalls(r.events), disabled)
  }

  /**
    How a toggle's outcome follows from its status read `st` and the lookup
    of `ssidName` in it: a failed read is the toggle's failure; no interface
    found is `SsidNotFound`; an interface without a truthy section is
    `NoUciSection`; and a success wrote the very section the lookup returned.
   */
  predicate LookedUp(r: Run<Json>, st: Run<seq<Option<Payload>>>, ssidName: Json,
                     find: (Option<Payload>, Json) -> Option<IfaceRef>) {
    && (st.out.Err? ==> r.out == Err(st.out.error))
    && (st.out.Ok? && |st.out.value| > 0 ==>
          var found := find(st.out.value[0], ssidName);
          && (found.None? ==> r.out == Err(SsidNotFound))
          && (found.Some? && !Truthy(found.value.section) ==> r.out == Err(NoUciSection)))
    && (r.out.Ok? ==>
          && st.out.Ok? && |st.out.value| > 0
          && find(st.out.value[0], ssidName) == Some(IfaceRef(r.out.value)))
  }

  /** The status read followed by the writes to a found section makes a toggle. */
  lemma WritesAfterStatus(st: Run<seq<Option<Payload>>>, w: Run<Json>, c: Client, section: Json, disabled: string)
    requires st.client.lock == c.lock && st.client.firstRun == c.firstRun
    requires OnlyPosts(st.events) && ServiceCalls(st.events) == [StatusCall]
    requires Truthy(section)
    requires w.client.lock == c.lock && w.client.firstRun == c.firstRun
    requires ServiceCalls(w.events) <= WriteCalls(section, disabled)
    requires w.out.Ok? ==>
      && w.out.value == section
      && ServiceCalls(w.events) == WriteCalls(section, disabled)
      && |w.events| > 0 && w.events[|w.events| - 1] == SuccessEvent
    requires w.out.Err? ==> SuccessEvent !in w.events && RpcFault(w.out.error)
    ensures Toggled(Run(w.client, st.events + w.events, w.out), c, disabled)
  {
    StatusThenWrites(st.events, w.events, section, disabled);
    assert SuccessEvent !in st.events by { assert OnlyPosts(st.events); }
    if w.out.Ok? {
      assert ServiceCalls(st.events + w.events) == ToggleCalls(section, disabled);
    }
  }

  /** The write half of the toggle, once the section is known: set, commit, reload, then `success`. */
  function Apply(env: Env, c: Client, at: nat, section: Json, disabled: string): (r: Run<Json>)
    ensures r.client.lock == c.lock && r.client.firstRun == c.firstRun
    ensures ServiceCalls(r.events) <= WriteCalls(section, disabled)
    ensures r.out.Ok? ==>
      && r.out.value == section
      && ServiceCalls(r.events) == WriteCalls(section, disabled)
      && r.events[|r.events| - 1] == SuccessEvent
    ensures r.out.Err? ==> SuccessEvent !in r.events && RpcFault(r.out.error)
  {
    var w := Chain(env, c, at, WriteCalls(section, disabled));
    if w.out.Err? then Run(w.client, w.events, Err(w.out.error))
    else
      ServiceCallsAppend(w.events, [SuccessEvent]);
      NoPostNoCalls([SuccessEvent]);
      Run(w.client, w.events + [SuccessEvent], Ok(section))
  }

  /**
    `send(type, ssidName, state)`: only `'ssid'` does anything, and it runs
    the toggle behind the gate; every other type returns without a call.
    `send` resolves to `undefined` in every case.
   */
  function Send(env: Env, c: Client, at: nat, kind: string, ssidName: Json, state: Json,
                find: (Option<Payload>, Json) -> Option<IfaceRef>): (r: Run<()>)
    ensures kind != "ssid" || c.lock ==> r == Run(c, [], Ok(()))
    ensures r.out == Ok(())
    ensures !r.client.lock || c.lock
    ensures TogglePrefix(ServiceCalls(r.events), Disabled(state))
    ensures kind == "ssid" && !c.lock ==>
      var inner := ToggleSsid(env, c.(lock := true), at, ssidName, state, find);
      && r.client == inner.client.(lock := false)
      && r.events == inner.events + (if inner.out.Err? then [ErrorEvent(inner.out.error)] else [])
  {
    if kind != "ssid" then Run(c, [], Ok(()))
    else
      var r := WithLock(c, at, (c': Client, a: nat) => Forget(ToggleSsid(env, c', a, ssidName, state, find)));
      if c.lock then r
      else
        var inner := ToggleSsid(env, c.(lock := true), at, ssidName, state, find);
        AppendQuiet(inner.events, if inner.out.Err? then [ErrorEvent(inner.out.error)] else []);
        r
  }
}
