/**
  The access-point accessory of src/accesspoint.js: one control and one sensor
  service per SSID of the first snapshot, kept in step with later snapshots
  purely by array position, a capped list of button services, and the
  external-integration dispatch.
 */
module AccessPoint {
  import opened Wrappers
  import opened JsValues
  import opened Services

  /** One SSID of the snapshot accesspoint.js reads (`{device, frequency, name, disabled}`). */
  datatype ApSsid = ApSsid(device: string, frequency: string, name: string, disabled: Json)

  /** The accessory's configuration after the constructor: its name, the two blocks, the kept buttons. */
  datatype ApConfig = ApConfig(name: string, control: Display, sensor: Display, buttons: seq<ButtonConfig>)

  /**
    An SSID service: the framework's record, and the value its `On` getter
    returns, which is `!ssid.disabled` of the SSID object captured when the
    service was created.
   */
  datatype ApService = ApService(svc: Svc, reading: bool)

  /** The accessory's services and the runtime state of its buttons. */
  datatype ApState = ApState(
    controls: seq<ApService>,
    sensors: seq<ApService>,
    buttonStates: seq<bool>,
    buttonServices: seq<Svc>)

  /** Why `prepareAccessory` throws: a display type with no entry in its service table. */
  datatype PrepareError = NoControlType | NoSensorType | NoButtonType(index: nat)

  /** The services every new accessory starts with: the accessory information service. */
  const BaseServices: nat := 1

  /** The maximum number of services one accessory may carry. */
  const MaxServices: int := 99

  /**
    `config.apDevice?.name || \`Access Point ${hostname}\``: any truthy name
    is kept, and printed into service names as a template literal prints it.
   */
  function ApName(configured: Json, hostname: string): (r: string)
    ensures configured.Str? && configured.s != "" ==> r == configured.s
    ensures configured.Num? && configured.n != 0 ==> r == Text(configured) && r != "Access Point " + hostname
    ensures configured == Bool(true) ==> r == "true"
    ensures !Truthy(configured) ==> r == "Access Point " + hostname
  {
    if Truthy(configured) then
      assert ("Access Point " + hostname)[0] == 'A';
      Text(configured)
    else "Access Point " + hostname
  }

  /** The configured name of an SSID service: `"<accessory> <ssid> <frequency>"` or `"<ssid> <frequency>"`. */
  function SsidServiceName(d: Display, accessory: string, s: ApSsid): (r: string)
    ensures Truthy(d.namePrefix) ==> r == accessory + " " + s.name + " " + s.frequency
    ensures !Truthy(d.namePrefix) ==> r == s.name + " " + s.frequency
  {
    PrefixedName(Truthy(d.namePrefix), accessory, s.name + " " + s.frequency)
  }

  /** One SSID service per SSID when the block is shown, with subtype `<prefix><name><device>`. */
  function SsidServices(d: Display, accessory: string, prefix: string, ssids: seq<ApSsid>): (r: seq<ApService>)
    ensures !Shown(d) ==> r == []
    ensures Shown(d) ==> |r| == |ssids| && forall i :: 0 <= i < |r| ==>
      && r[i].svc.subtype == prefix + ssids[i].name + ssids[i].device
      && r[i].svc.name == SsidServiceName(d, accessory, ssids[i])
      && r[i].svc.on.None?
      && (r[i].reading <==> !Truthy(ssids[i].disabled))
  {
    if !Shown(d) then []
    else
      seq(|ssids|, i requires 0 <= i < |ssids| =>
        ApService(Svc(prefix + ssids[i].name + ssids[i].device, SsidServiceName(d, accessory, ssids[i]), None),
                  !Truthy(ssids[i].disabled)))
  }

  /**
    How many button services `prepareAccessory` creates when the accessory
    already carries `existing` services: as many buttons as fit under 99,
    and none when that is not positive.
   */
  function ButtonCount(buttons: nat, existing: nat): (r: nat)
    ensures r <= buttons
    ensures r > 0 ==> existing + r <= MaxServices
    ensures r < buttons ==> existing + r >= MaxServices
    ensures r == 0 <==> buttons == 0 || existing >= MaxServices
  {
    if buttons == 0 then 0
    else
      var possible := MaxServices - existing;
      var most := if buttons >= possible then possible else buttons;
      if most > 0 then most else 0
  }

  /** The button name `button.name || \`Button ${i}\``, behind the prefix when `namePrefix` is set. */
  function ButtonServiceName(accessory: string, b: ButtonConfig, i: nat): string {
    PrefixedName(Truthy(b.namePrefix), accessory, ButtonLabel(b, i))
  }

  /** The first of the first `n` buttons without a service type, if any. */
  function FirstUntyped(buttons: seq<ButtonConfig>, n: nat): (r: Option<nat>)
    requires n <= |buttons|
    ensures r.Some? ==> r.value < n && ButtonKind(buttons[r.value]).None?
    ensures r.None? <==> forall i :: 0 <= i < n ==> ButtonKind(buttons[i]).Some?
  {
    FindFirst(buttons[..n], (b: ButtonConfig) => ButtonKind(b).None?)
  }

  /** The first SSID's control construction throws: the control is shown with no service kind. */
  predicate ControlUntyped(cfg: ApConfig, ssids: seq<ApSsid>) {
    |ssids| > 0 && Shown(cfg.control) && ControlKind(cfg.control).None?
  }

  /** The first SSID's sensor construction throws: the sensor is shown with no service kind. */
  predicate SensorUntyped(cfg: ApConfig, ssids: seq<ApSsid>) {
    |ssids| > 0 && Shown(cfg.sensor) && SensorKind(cfg.sensor).None?
  }

  /** How many button services are created once the SSID services exist. */
  function ButtonSlots(cfg: ApConfig, ssids: seq<ApSsid>): (n: nat)
    ensures n <= |cfg.buttons|
  {
    ButtonCount(|cfg.buttons|,
                BaseServices + |SsidServices(cfg.control, cfg.name, "service", ssids)|
                + |SsidServices(cfg.sensor, cfg.name, "sensorService", ssids)|)
  }

  /**
    `prepareAccessory`: the SSID controls and sensors, then at most
    `ButtonCount` button services with subtypes `Button <i>`. A display type
    outside its table makes the service construction throw: the control of
    the first SSID is built before its sensor, and both before any button.
   */
  function Prepare(cfg: ApConfig, ssids: seq<ApSsid>): (r: Result<ApState, PrepareError>)
    ensures r.Ok? ==>
      && r.value.controls == SsidServices(cfg.control, cfg.name, "service", ssids)
      && r.value.sensors == SsidServices(cfg.sensor, cfg.name, "sensorService", ssids)
      && |r.value.buttonStates| == |cfg.buttons|
      && (forall i :: 0 <= i < |cfg.buttons| ==> !r.value.buttonStates[i])
      && |r.value.buttonServices|
         == ButtonCount(|cfg.buttons|, BaseServices + |r.value.controls| + |r.value.sensors|)
      && forall i :: 0 <= i < |r.value.buttonServices| ==>
           r.value.buttonServices[i] == Svc("Button " + DecimalString(i), ButtonServiceName(cfg.name, cfg.buttons[i], i), None)
    ensures r.Ok? ==> |r.value.buttonServices| > 0 ==>
      BaseServices + |r.value.controls| + |r.value.sensors| + |r.value.buttonServices| <= MaxServices
    ensures r.Ok? <==>
      !ControlUntyped(cfg, ssids) && !SensorUntyped(cfg, ssids) && FirstUntyped(cfg.buttons, ButtonSlots(cfg, ssids)).None?
    ensures r == Err(NoControlType) <==> |ssids| > 0 && Shown(cfg.control) && ControlKind(cfg.control).None?
    ensures r == Err(NoSensorType) <==>
      !ControlUntyped(cfg, ssids) && |ssids| > 0 && Shown(cfg.sensor) && SensorKind(cfg.sensor).None?
    ensures r.Err? && r.error.NoButtonType? <==>
      !ControlUntyped(cfg, ssids) && !SensorUntyped(cfg, ssids) && FirstUntyped(cfg.buttons, ButtonSlots(cfg, ssids)).Some?
    ensures r.Err? && r.error.NoButtonType? ==>
      r.error.index < ButtonSlots(cfg, ssids) && FirstUntyped(cfg.buttons, ButtonSlots(cfg, ssids)) == Some(r.error.index)
  {
    if ControlUntyped(cfg, ssids) then Err(NoControlType)
    else if SensorUntyped(cfg, ssids) then Err(NoSensorType)
    else
      var controls := SsidServices(cfg.control, cfg.name, "service", ssids);
      var sensors := SsidServices(cfg.sensor, cfg.name, "sensorService", ssids);
      var n := ButtonSlots(cfg, ssids);
      match FirstUntyped(cfg.buttons, n)
      case Some(i) => Err(NoButtonType(i))
      case None =>
        Ok(ApState(controls, sensors,
                   seq(|cfg.buttons|, _ => false),
                   seq(n, i requires 0 <= i < n => Svc("Button " + DecimalString(i), ButtonServiceName(cfg.name, cfg.buttons[i], i), None))))
  }

  /** Push `!ssids[i].disabled` and the configured name to service `i`, for each `i` both lists have. */
  function PushPositional(d: Display, accessory: string, svcs: seq<ApService>, ssids: seq<ApSsid>): (r: seq<ApService>)
    ensures |r| == |svcs|
    ensures forall i :: 0 <= i < |r| ==> r[i].svc.subtype == svcs[i].svc.subtype && r[i].reading == svcs[i].reading
    ensures forall i :: 0 <= i < |r| && i < |ssids| ==>
      r[i].svc.on == Some(!Truthy(ssids[i].disabled)) && r[i].svc.name == SsidServiceName(d, accessory, ssids[i])
    ensures forall i :: |ssids| <= i < |r| ==> r[i] == svcs[i]
  {
    seq(|svcs|, i requires 0 <= i < |svcs| =>
      if i < |ssids| then
        ApService(Svc(svcs[i].svc.subtype, SsidServiceName(d, accessory, ssids[i]), Some(!Truthy(ssids[i].disabled))),
                  svcs[i].reading)
      else svcs[i])
  }

  /**
    The `openWrtInfo` handler: SSID `i` of the new snapshot is pushed to
    service `i`, with no identity check; the buttons are reset from inside
    the per-SSID loop, so only when the snapshot has an SSID.
   */
  function Update(cfg: ApConfig, st: ApState, ssids: seq<ApSsid>): (r: ApState)
    ensures r.controls == (if Shown(cfg.control) then PushPositional(cfg.control, cfg.name, st.controls, ssids) else st.controls)
    ensures r.sensors == (if Shown(cfg.sensor) then PushPositional(cfg.sensor, cfg.name, st.sensors, ssids) else st.sensors)
    ensures |r.buttonStates| == |st.buttonStates| && |r.buttonServices| == |st.buttonServices|
    ensures |ssids| > 0 ==>
      && (forall i :: 0 <= i < |r.buttonStates| ==> !r.buttonStates[i])
      && (forall i :: 0 <= i < |r.buttonServices| && i < |st.buttonStates| ==>
            r.buttonServices[i] == st.buttonServices[i].(on := Some(false)))
    ensures |ssids| == 0 ==> r.buttonStates == st.buttonStates && r.buttonServices == st.buttonServices
  {
    var controls := if Shown(cfg.control) then PushPositional(cfg.control, cfg.name, st.controls, ssids) else st.controls;
    var sensors := if Shown(cfg.sensor) then PushPositional(cfg.sensor, cfg.name, st.sensors, ssids) else st.sensors;
    if |ssids| == 0 then ApState(controls, sensors, st.buttonStates, st.buttonServices)
    else
      ApState(controls, sensors,
              seq(|st.buttonStates|, _ => false),
              seq(|st.buttonServices|, i requires 0 <= i < |st.buttonServices| =>
                if i < |st.buttonStates| then st.buttonServices[i].(on := Some(false)) else st.buttonServices[i]))
  }

  /**
    The whole `openWrtInfo` handler: reading `systemInfo.release` throws when
    `systemInfo` is unset (`hasSystemInfo` false), before any service or
    button is touched; otherwise the update runs.
   */
  function OnInfo(cfg: ApConfig, st: ApState, hasSystemInfo: bool, ssids: seq<ApSsid>): (r: ApState)
    ensures !hasSystemInfo ==> r == st
    ensures hasSystemInfo ==> r == Update(cfg, st, ssids)
  {
    if hasSystemInfo then Update(cfg, st, ssids) else st
  }

  /**
    `setOverExternalIntegration`: a known key forwards its command when the
    value is truthy and resolves to false otherwise; an unknown key is
    warned about whatever the value.
   */
  function ExternalSet(key: string, value: Json): (r: Dispatch)
    ensures key !in IntegrationCommands <==> r == Warned
    ensures r.Forwarded? <==> key in IntegrationCommands && Truthy(value)
    ensures r.Forwarded? ==> r.command == IntegrationCommands[key]
    ensures r == Ignored <==> key in IntegrationCommands && !Truthy(value)
  {
    if key !in IntegrationCommands then Warned
    else if Truthy(value) then Forwarded(IntegrationCommands[key])
    else Ignored
  }

  /**
    A button's `onSet(state)` as written: nothing on false; on true, the
    command is sent only when `this.power` is truthy. Returns the command sent.
   */
  function ButtonSetAsWritten(pressed: bool, power: Json, command: Json): (r: Option<Json>)
    ensures r.Some? <==> pressed && Truthy(power)
    ensures r.Some? ==> r.value == command
  {
    if !pressed then None
    else if Truthy(power) then Some(command)
    else None
  }

  /** `this.power` as the access point holds it: no statement of accesspoint.js assigns it. */
  const Power: Json := Undefined

  /** A button's `onSet(state)` as evidently intended: a true press sends the command. */
  function ButtonSet(pressed: bool, command: Json): (r: Option<Json>)
    ensures r.Some? <==> pressed
    ensures r.Some? ==> r.value == command
  {
    if pressed then Some(command) else None
  }

  /** The argument list an SSID control's `onSet` passes: `send('apDevice', device, name, state)`. */
  function SsidSetKind(s: ApSsid): (kind: string)
    ensures kind != "ssid"
  {
    "apDevice"
  }
}
