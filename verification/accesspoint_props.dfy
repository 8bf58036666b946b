/**
  Properties of the access point (src/accesspoint.js): what positional
  pairing means for services created from one snapshot and updated from
  another, and how its setters reach the router client.
 */
module AccessPointProperties {
  import opened Wrappers
  import opened JsValues
  import opened Services
  import opened AccessPoint
  import OpenWrt
  import Router

  /** The identity an SSID service is created under: its name and its device. */
  predicate SameIdentities(a: seq<ApSsid>, b: seq<ApSsid>) {
    |a| == |b| && forall i :: 0 <= i < |a| ==> a[i].name == b[i].name && a[i].device == b[i].device
  }

  /**
    When the new snapshot lists the same SSIDs in the same order, the control
    created for an SSID receives that SSID's new state.
   */
  lemma SameOrderPairsByIdentity(cfg: ApConfig, first: seq<ApSsid>, next: seq<ApSsid>, i: nat)
    requires Prepare(cfg, first).Ok? && Shown(cfg.control)
    requires SameIdentities(first, next)
    requires i < |first|
    ensures var st := Update(cfg, Prepare(cfg, first).value, next);
      && st.controls[i].svc.subtype == "service" + next[i].name + next[i].device
      && st.controls[i].svc.on == Some(!Truthy(next[i].disabled))
  {
  }

  /**
    When the router lists two SSIDs in the other order, each control is
    pushed the state of the other SSID: pairing is by position only.
   */
  lemma ReorderSwapsStates()
    ensures var cfg := ApConfig("AP", Display(Num(1), Bool(false)), Display(Num(0), Bool(false)), []);
            var home := ApSsid("radio0", "2.4 GHz", "Home", Bool(false));
            var guest := ApSsid("radio0", "2.4 GHz", "Guest", Bool(true));
            var prepared := Prepare(cfg, [home, guest]);
      && prepared.Ok?
      && var st := Update(cfg, prepared.value, [guest, home]);
         && st.controls[0].svc.subtype == "serviceHomeradio0"
         && st.controls[0].svc.on == Some(false)
         && st.controls[1].svc.subtype == "serviceGuestradio0"
         && st.controls[1].svc.on == Some(true)
  {
    var cfg := ApConfig("AP", Display(Num(1), Bool(false)), Display(Num(0), Bool(false)), []);
    var home := ApSsid("radio0", "2.4 GHz", "Home", Bool(false));
    var guest := ApSsid("radio0", "2.4 GHz", "Guest", Bool(true));
    assert !ControlUntyped(cfg, [home, guest]) && !SensorUntyped(cfg, [home, guest]);
    assert ButtonSlots(cfg, [home, guest]) == 0;
    assert FirstUntyped([], 0).None?;
    var prepared := Prepare(cfg, [home, guest]);
    assert prepared.Ok?;
    var pushed := PushPositional(cfg.control, cfg.name, prepared.value.controls, [guest, home]);
    assert pushed[0].svc.subtype == "service" + home.name + home.device;
    assert pushed[1].svc.subtype == "service" + guest.name + guest.device;
  }

  /**
    Updates never change what a service's getter returns: it keeps the
    state of the SSID object it was created from.
   */
  lemma GetterKeepsCreationState(cfg: ApConfig, st: ApState, ssids: seq<ApSsid>)
    ensures var r := Update(cfg, st, ssids);
      && |r.controls| == |st.controls|
      && forall i :: 0 <= i < |r.controls| ==> r.controls[i].reading == st.controls[i].reading
  {
  }

  /** Services that outnumber the snapshot's SSIDs are left as they were. */
  lemma ExtraServicesUntouched(cfg: ApConfig, st: ApState, ssids: seq<ApSsid>, i: nat)
    requires |ssids| <= i < |st.controls|
    ensures Update(cfg, st, ssids).controls[i] == st.controls[i]
  {
  }

  /**
    Each created button service fits: the accessory never exceeds 99
    services, and every button beyond the cap is left without a service.
   */
  lemma ButtonsFit(cfg: ApConfig, ssids: seq<ApSsid>)
    requires Prepare(cfg, ssids).Ok?
    ensures var st := Prepare(cfg, ssids).value;
            var existing := BaseServices + |st.controls| + |st.sensors|;
      && |st.buttonServices| <= |cfg.buttons|
      && (|st.buttonServices| > 0 ==> existing + |st.buttonServices| <= MaxServices)
      && (|st.buttonServices| < |cfg.buttons| ==> existing + |st.buttonServices| >= MaxServices)
  {
  }

  /** As written, no button press ever sends a command, since `this.power` is never set. */
  lemma ButtonNeverSends(pressed: bool, command: Json)
    ensures ButtonSetAsWritten(pressed, Power, command).None?
  {
  }

  /** The corrected press sends on exactly the presses the written one should have: every true press. */
  lemma ButtonSendsOnPress(command: Json)
    ensures ButtonSet(true, command) == Some(command)
    ensures ButtonSetAsWritten(true, Power, command) != ButtonSet(true, command)
  {
  }

  /** An SSID control's setter reaches `send('apDevice', …)`, which issues no router call. */
  lemma SsidSetIssuesNoCalls(env: OpenWrt.Env, c: OpenWrt.Client, at: nat, s: ApSsid, state: Json,
                             find: (Option<OpenWrt.Payload>, Json) -> Option<OpenWrt.IfaceRef>)
    ensures OpenWrt.Send(env, c, at, SsidSetKind(s), Str(s.device), Str(s.name), find) == OpenWrt.Run(c, [], Ok(()))
  {
  }

  /**
    The two accessories dispatch integration keys alike, except that the
    access point also warns about an unknown key whose value is falsy.
   */
  lemma DispatchCompared(key: string, value: Json)
    ensures Truthy(value) ==> ExternalSet(key, value) == Router.ExternalSet(key, value)
    ensures !Truthy(value) && key in IntegrationCommands ==> ExternalSet(key, value) == Router.ExternalSet(key, value)
    ensures !Truthy(value) && key !in IntegrationCommands ==>
      ExternalSet(key, value) == Warned && Router.ExternalSet(key, value) == Ignored
    ensures DispatchResult(ExternalSet(key, value)) == DispatchResult(Router.ExternalSet(key, value))
  {
  }
}
