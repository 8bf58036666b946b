/**
  Properties of the router client (src/openwrt.js) that relate several calls
  or compare the client with the router's access-control list.
 */
module OpenWrtProperties {
  import opened Wrappers
  import opened JsValues
  import opened OpenWrt
  import Acl

  /** No `error` event among some events. */
  predicate NoErrors(events: seq<Event>) {
    forall e :: e in events ==> !e.ErrorEvent?
  }

  /** Every ubus call among some events is one the router's ACL grants. */
  predicate AllPermitted(events: seq<Event>) {
    forall call :: call in ServiceCalls(events) ==> Acl.Permitted(call.service, call.op)
  }

  /**
    A session obtained by a login is reused without a POST by every later
    login that happens before the lease runs out.
   */
  lemma SessionReuse(env: Env, c: Client, at: nat, later: nat)
    requires !Cached(c, env.clock(at))
    requires Login(env, c, at).out.Ok?
    requires env.clock(later) < env.clock(at) + LeaseMs
    ensures var first := Login(env, c, at);
            Login(env, first.client, later) == Run(first.client, [], Ok(first.out.value))
  {
  }

  /** Once the lease has run out, the next login POSTs again. */
  lemma LeaseExpiry(env: Env, c: Client, at: nat, later: nat)
    requires !Cached(c, env.clock(at))
    requires Login(env, c, at).out.Ok?
    requires env.clock(later) >= env.clock(at) + LeaseMs
    ensures Login(env, Login(env, c, at).client, later).events == [LoginPosted(LoginRequest(env))]
  {
  }

  /** A failed login leaves the cached session and its expiry as they were. */
  lemma FailedLoginKeepsSession(env: Env, c: Client, at: nat)
    requires Login(env, c, at).out.Err?
    ensures Login(env, c, at).client.sessionId == c.sessionId
    ensures Login(env, c, at).client.expiresAt == c.expiresAt
  {
  }

  /** The two reads `connect` may issue are both granted. */
  lemma ReadsPermitted(calls: seq<Call>)
    requires calls <= [BoardCall, StatusCall]
    ensures forall call :: call in calls ==> Acl.Permitted(call.service, call.op)
  {
    forall call | call in calls ensures Acl.Permitted(call.service, call.op) {
      assert call == BoardCall || call == StatusCall;
    }
  }

  /** `connect` only ever calls `system board` and `network.wireless status`, both granted. */
  lemma ConnectPermitted(env: Env, c: Client, at: nat, statusGlobal: Option<WirelessStatus>)
    ensures AllPermitted(Connect(env, c, at, statusGlobal).events)
    ensures AllPermitted(ConnectCorrected(env, c, at).events)
  {
    ReadsPermitted(ServiceCalls(Connect(env, c, at, statusGlobal).events));
    ReadsPermitted(ServiceCalls(ConnectCorrected(env, c, at).events));
  }

  /**
    The structural description of a partial toggle agrees with the literal
    one: some section makes the calls a prefix of the full toggle sequence.
   */
  lemma TogglePrefixIff(calls: seq<Call>, disabled: string)
    ensures TogglePrefix(calls, disabled) <==> exists section :: calls <= ToggleCalls(section, disabled)
  {
    if TogglePrefix(calls, disabled) {
      var section := if |calls| > 1 then calls[1].params.section else Undefined;
      var full := ToggleCalls(section, disabled);
      assert calls == full[..|calls|];
    }
    if exists section :: calls <= ToggleCalls(section, disabled) {
      var section :| calls <= ToggleCalls(section, disabled);
      var full := ToggleCalls(section, disabled);
      assert forall i :: 0 <= i < |calls| ==> calls[i] == full[i];
    }
  }

  /** Every call of a partial toggle is granted, whatever the section and value. */
  lemma ToggleCallsPermitted(calls: seq<Call>, disabled: string)
    requires TogglePrefix(calls, disabled)
    ensures forall call :: call in calls ==> Acl.Permitted(call.service, call.op)
  {
    forall call | call in calls ensures Acl.Permitted(call.service, call.op) {
      var i :| 0 <= i < |calls| && calls[i] == call;
      assert call == StatusCall || (call.service == "uci" && call.op == "set") || call == CommitCall || call == ReloadCall;
    }
  }

  /** `send` only ever issues calls the router's ACL grants. */
  lemma SendPermitted(env: Env, c: Client, at: nat, kind: string, ssidName: Json, state: Json,
                      find: (Option<Payload>, Json) -> Option<IfaceRef>)
    ensures AllPermitted(Send(env, c, at, kind, ssidName, state, find).events)
  {
    ToggleCallsPermitted(ServiceCalls(Send(env, c, at, kind, ssidName, state, find).events), Disabled(state));
  }

  /**
    With the gate free, a `send('ssid', …)` whose name is not found reads the
    status once, writes nothing, reports one `error` event and releases the gate.
   */
  lemma SendNotFoundSwallowed(env: Env, c: Client, at: nat, ssidName: Json, state: Json,
                              find: (Option<Payload>, Json) -> Option<IfaceRef>)
    requires !c.lock
    requires Chain(env, c.(lock := true), at, [StatusCall]).out.Ok?
    requires find(Chain(env, c.(lock := true), at, [StatusCall]).out.value[0], ssidName).None?
    ensures var r := Send(env, c, at, "ssid", ssidName, state, find);
            && ServiceCalls(r.events) == [StatusCall]
            && r.events[|r.events| - 1] == ErrorEvent(SsidNotFound)
            && SuccessEvent !in r.events
            && !r.client.lock
  {
    var inner := ToggleSsid(env, c.(lock := true), at, ssidName, state, find);
    assert inner.out == Err(SsidNotFound);
    AppendQuiet(inner.events, [ErrorEvent(SsidNotFound)]);
  }

  /**
    With the gate free, a `send('ssid', …)` whose interface is found without a
    UCI section reads the status once, writes nothing, reports one `error`
    event and releases the gate.
   */
  lemma SendNoSectionSwallowed(env: Env, c: Client, at: nat, ssidName: Json, state: Json,
                               find: (Option<Payload>, Json) -> Option<IfaceRef>)
    requires !c.lock
    requires Chain(env, c.(lock := true), at, [StatusCall]).out.Ok?
    requires var found := find(Chain(env, c.(lock := true), at, [StatusCall]).out.value[0], ssidName);
             found.Some? && !Truthy(found.value.section)
    ensures var r := Send(env, c, at, "ssid", ssidName, state, find);
            && ServiceCalls(r.events) == [StatusCall]
            && r.events[|r.events| - 1] == ErrorEvent(NoUciSection)
            && SuccessEvent !in r.events
            && !r.client.lock
  {
    var inner := ToggleSsid(env, c.(lock := true), at, ssidName, state, find);
    assert inner.out == Err(NoUciSection);
    AppendQuiet(inner.events, [ErrorEvent(NoUciSection)]);
  }

  /** A successful toggle issued exactly status, set, commit, reload, and ended with `success`. */
  lemma ToggledSuccess(r: Run<Json>, c: Client, disabled: string)
    requires Toggled(r, c, disabled) && r.out.Ok?
    ensures ServiceCalls(r.events) == [StatusCall, SetCall(r.out.value, disabled), CommitCall, ReloadCall]
    ensures r.events[|r.events| - 1] == SuccessEvent
  {
    assert ToggleCalls(r.out.value, disabled) == [StatusCall, SetCall(r.out.value, disabled), CommitCall, ReloadCall];
  }

  /**
    With the gate free, a toggle that gets through issues exactly status,
    set, commit, reload, ends with `success`, and releases the gate.
   */
  lemma SendSuccessSequence(env: Env, c: Client, at: nat, ssidName: Json, state: Json,
                            find: (Option<Payload>, Json) -> Option<IfaceRef>)
    requires !c.lock
    requires ToggleSsid(env, c.(lock := true), at, ssidName, state, find).out.Ok?
    ensures var section := ToggleSsid(env, c.(lock := true), at, ssidName, state, find).out.value;
            var r := Send(env, c, at, "ssid", ssidName, state, find);
            && ServiceCalls(r.events) == [StatusCall, SetCall(section, Disabled(state)), CommitCall, ReloadCall]
            && r.events[|r.events| - 1] == SuccessEvent
            && !r.client.lock
    ensures var section := ToggleSsid(env, c.(lock := true), at, ssidName, state, find).out.value;
            var st := Chain(env, c.(lock := true), at, [StatusCall]);
            st.out.Ok? && find(st.out.value[0], ssidName) == Some(IfaceRef(section))
  {
    var inner := ToggleSsid(env, c.(lock := true), at, ssidName, state, find);
    ToggledSuccess(inner, c.(lock := true), Disabled(state));
    assert inner.events + [] == inner.events;
  }

  /** The events `connect` itself adds never include an `error` event. */
  lemma ConnectNoErrorEvents(env: Env, c: Client, at: nat, statusGlobal: Option<WirelessStatus>)
    ensures NoErrors(Connect(env, c, at, statusGlobal).events)
  {
    var fetched := Chain(env, c, at, [BoardCall, StatusCall]);
    assert OnlyPosts(fetched.events);
  }

  /**
    A failing poll tick adds exactly one `error` event, as its last event,
    and releases the gate.
   */
  lemma PollFailureOneError(env: Env, c: Client, at: nat, statusGlobal: Option<WirelessStatus>)
    requires !c.lock
    requires Connect(env, c.(lock := true), at, statusGlobal).out.Err?
    ensures var inner := Connect(env, c.(lock := true), at, statusGlobal);
            var r := PollTick(env, c, at, statusGlobal);
            && r.events == inner.events + [ErrorEvent(inner.out.error)]
            && NoErrors(r.events[..|r.events| - 1])
            && !r.client.lock
  {
    var inner := Connect(env, c.(lock := true), at, statusGlobal);
    ConnectNoErrorEvents(env, c.(lock := true), at, statusGlobal);
    var r := PollTick(env, c, at, statusGlobal);
    assert r.events[..|r.events| - 1] == inner.events;
  }

  /**
    As written, a poll whose two reads succeed still fails on the unbound
    `status`: both reads are issued, then nothing is published.
   */
  lemma ConnectAsWrittenFails(env: Env, c: Client, at: nat)
    requires Chain(env, c, at, [BoardCall, StatusCall]).out.Ok?
    ensures var r := Connect(env, c, at, None);
            && r.out == Err(StatusUndefined)
            && ServiceCalls(r.events) == [BoardCall, StatusCall]
            && SuccessEvent !in r.events
            && r.client.firstRun == c.firstRun
  {
    assert OnlyPosts(Chain(env, c, at, [BoardCall, StatusCall]).events);
  }

  /** As written, the poll task never publishes a successful state: every free tick ends in `error`. */
  lemma PollNeverPublishes(env: Env, c: Client, at: nat)
    requires !c.lock
    ensures var r := PollTick(env, c, at, None);
            && |r.events| > 0 && r.events[|r.events| - 1].ErrorEvent?
            && SuccessEvent !in r.events
  {
    var inner := Connect(env, c.(lock := true), at, None);
    assert inner.out.Err?;
    assert SuccessEvent !in inner.events;
  }

  /**
    As written, even when `status` is bound, the published `ssids` list is
    empty although the radios it should flatten carry interfaces.
   */
  lemma ConnectDropsSsids(env: Env, c: Client, at: nat, st: WirelessStatus, i: nat)
    requires Connect(env, c, at, Some(st)).out.Ok?
    requires i < |st.radios| && |st.radios[i].interfaces| > 0
    ensures var info := Connect(env, c, at, Some(st)).out.value;
            && info.ssids == []
            && InterfaceInfos(st.radios[i].interfaces)[0] in info.wirelessRadios[i].interfaces
  {
  }

  /** The corrected `connect` lists every interface of every radio it publishes. */
  lemma CorrectedListsSsids(env: Env, c: Client, at: nat, i: nat, j: nat)
    requires ConnectCorrected(env, c, at).out.Ok?
    requires i < |ConnectCorrected(env, c, at).out.value.wirelessRadios|
    requires j < |ConnectCorrected(env, c, at).out.value.wirelessRadios[i].interfaces|
    ensures var info := ConnectCorrected(env, c, at).out.value;
            info.wirelessRadios[i].interfaces[j] in info.ssids
  {
    var info := ConnectCorrected(env, c, at).out.value;
    assert info.wirelessRadios[i].interfaces[j] in info.wirelessRadios[i].interfaces;
  }

  /**
    When `status` happens to hold exactly the fetched wireless status, the
    written and corrected `connect` agree on everything but `ssids`.
   */
  lemma CorrectedAgreesExceptSsids(env: Env, c: Client, at: nat, st: WirelessStatus)
    requires Chain(env, c, at, [BoardCall, StatusCall]).out.Ok?
    requires Chain(env, c, at, [BoardCall, StatusCall]).out.value[1] == Some(WirelessInfo(st))
    ensures var w := Connect(env, c, at, Some(st));
            var f := ConnectCorrected(env, c, at);
            && w.out.Ok? && f.out.Ok?
            && w.client == f.client
            && w.out.value.wirelessRadios == f.out.value.wirelessRadios
            && w.out.value.systemInfo == f.out.value.systemInfo
            && w.out.value.wirelessStatus == f.out.value.wirelessStatus
            && w.out.value.ssids == []
            && f.out.value.ssids == FlatInterfaces(f.out.value.wirelessRadios)
  {
  }
}
