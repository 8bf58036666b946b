/**
  The platform entry point of index.js: which configured devices are
  launched, the poll interval and the device types each one gets, the
  redacted configuration written to the debug log, and what one tick of
  the start-up task does with the outcome of the first `connect()`.
 */
module Platform {
  import opened Wrappers
  import opened JsValues
  import OpenWrt
  import Services

  /** A named periodic task handed to an impulse generator: `{name, sampling}` in milliseconds. */
  datatype Task = Task(name: string, sampling: int)

  /** The start-up task every launched device runs until start-up succeeds. */
  const StartTask: Task := Task("start", 120000)

  /** The device type tags `configuredDevices` holds: 0 for the access point, 1 for the switch. */
  const AccessPointType: nat := 0
  const SwitchType: nat := 1

  /** What launching does with one entry of `config.devices`. */
  datatype Decision =
    | Aborted                         // destructuring `null`/`undefined` throws and ends the launch loop
    | Skipped                         // missing name, host or display type, or no device type enabled
    | Planned(refreshMs: Option<int>, types: seq<nat>, logged: Option<Node>)

  /**
    `name`, `host` and `displayType` are all truthy: a valid entry is an
    object that carries all three.
   */
  function Valid(device: Node): (b: bool)
    ensures b ==> device.Obj? && "name" in device.fields && "host" in device.fields && "displayType" in device.fields
  {
    NodeTruthy(Member(device, "name")) && NodeTruthy(Member(device, "host")) && NodeTruthy(Member(device, "displayType"))
  }

  /**
    `(device.refreshInterval ?? 5) * 1000`. `None` where the product is not
    an integer this model represents (a string, an object or an array operand).
   */
  function RefreshMs(v: Node): (r: Option<int>)
    ensures Nullish(v) ==> r == Some(5000)
    ensures v.Leaf? && v.value.Num? ==> r == Some(v.value.n * 1000)
    ensures v.Leaf? && v.value.Bool? ==> r == Some(if v.value.b then 1000 else 0)
    ensures r.None? <==> !v.Leaf? || v.value.Str?
  {
    match v
    case Leaf(Undefined) => Some(5000)
    case Leaf(Null) => Some(5000)
    case Leaf(Num(n)) => Some(n * 1000)
    case Leaf(Bool(b)) => Some(if b then 1000 else 0)
    case _ => None
  }

  /**
    `(device.x || {}).enable` is truthy: the entry has a block `x` whose
    `enable` is truthy; the `{}` fallback is never enabled.
   */
  function Enabled(device: Node, key: string): (b: bool)
    ensures b <==> device.Obj? && key in device.fields && NodeTruthy(Member(device.fields[key], "enable"))
  {
    NodeTruthy(Member(Or(Member(device, key), Obj(map[])), "enable"))
  }

  /** `configuredDevices`: 0 when the access point is enabled, then 1 when the switch is. */
  function ConfiguredDevices(device: Node): (r: seq<nat>)
    ensures AccessPointType in r <==> Enabled(device, "apDevice")
    ensures SwitchType in r <==> Enabled(device, "swDevice")
    ensures forall i :: 0 <= i < |r| ==> r[i] == AccessPointType || r[i] == SwitchType
    ensures forall i, j :: 0 <= i < j < |r| ==> r[i] < r[j]
  {
    (if Enabled(device, "apDevice") then [AccessPointType] else [])
    + (if Enabled(device, "swDevice") then [SwitchType] else [])
  }

  /** The value written in place of a password. */
  const Removed: Node := Leaf(Str("removed"))

  /** `{...n, passwd: 'removed'}`. */
  function Redacted(n: Node): (r: Node)
    ensures r.Obj? && "passwd" in r.fields && r.fields["passwd"] == Removed
    ensures forall k :: k in Spread(n) && k != "passwd" ==> k in r.fields && r.fields[k] == Spread(n)[k]
    ensures forall k :: k in r.fields ==> k in Spread(n) || k == "passwd"
  {
    Obj(Spread(n)["passwd" := Removed])
  }

  /**
    `safeConfig` as written: the device's fields, with `auth.passwd`
    replaced, and `mqtt` cut down to its `auth` with `passwd` replaced.
   */
  function SafeConfig(device: Node): (r: Node)
    ensures r.Obj? && "auth" in r.fields && "mqtt" in r.fields
    ensures forall k :: k in Spread(device) && k != "auth" && k != "mqtt" ==>
      k in r.fields && r.fields[k] == Spread(device)[k]
    ensures forall k :: k in r.fields ==> k in Spread(device) || k == "auth" || k == "mqtt"
    ensures r.fields["auth"] == Redacted(Member(device, "auth"))
    ensures r.fields["mqtt"] == Obj(map["auth" := Redacted(Member(Member(device, "mqtt"), "auth"))])
  {
    Obj(Spread(device)["auth" := Redacted(Member(device, "auth"))]
                      ["mqtt" := Obj(map["auth" := Redacted(Member(Member(device, "mqtt"), "auth"))])])
  }

  /**
    `safeConfig` as evidently intended: also redacts the top-level `passwd`
    that the router client logs in with (src/openwrt.js:13).
   */
  function SafeConfigCorrected(device: Node): (r: Node)
    ensures r.Obj? && "auth" in r.fields && "mqtt" in r.fields
    ensures "passwd" in Spread(device) ==> "passwd" in r.fields && r.fields["passwd"] == Removed
    ensures forall k :: k in Spread(device) && k !in {"auth", "mqtt", "passwd"} ==>
      k in r.fields && r.fields[k] == Spread(device)[k]
    ensures forall k :: k in r.fields ==> k in Spread(device) || k == "auth" || k == "mqtt"
    ensures r.fields["auth"] == Redacted(Member(device, "auth"))
    ensures r.fields["mqtt"] == Obj(map["auth" := Redacted(Member(Member(device, "mqtt"), "auth"))])
  {
    var written := SafeConfig(device);
    if "passwd" in Spread(device) then Obj(written.fields["passwd" := Removed]) else written
  }

  /** A configuration value as the router client reads it: a scalar, or `undefined` for an object or array. */
  function Scalar(n: Node): (r: Json)
    ensures n.Leaf? ==> r == n.value
    ensures !n.Leaf? ==> r == Undefined
  {
    if n.Leaf? then n.value else Undefined
  }

  /** The router client `new OpenWrt(device)` builds: it logs in with the top-level `user` and `passwd`. */
  function ClientEnv(device: Node, clock: nat -> int, router: (nat, OpenWrt.Request) -> OpenWrt.Reply): (r: OpenWrt.Env)
    ensures r.user == Scalar(Member(device, "user")) && r.passwd == Scalar(Member(device, "passwd"))
    ensures r.clock == clock && r.router == router
  {
    OpenWrt.Env(Scalar(Member(device, "user")), Scalar(Member(device, "passwd")), clock, router)
  }

  /** One pass of the launch loop over one device entry. */
  function LaunchDevice(device: Node): (r: Decision)
    ensures r == Aborted <==> Nullish(device)
    ensures r.Planned? <==> !Nullish(device) && Valid(device) && |ConfiguredDevices(device)| > 0
    ensures r.Planned? ==>
      && r.refreshMs == RefreshMs(Member(device, "refreshInterval"))
      && r.types == ConfiguredDevices(device)
      && (r.logged.Some? <==> NodeTruthy(Member(Member(device, "log"), "debug")))
      && (r.logged.Some? ==> r.logged.value == SafeConfig(device))
  {
    if Nullish(device) then Aborted
    else if !Valid(device) then Skipped
    else
      var types := ConfiguredDevices(device);
      if |types| == 0 then Skipped
      else
        Planned(RefreshMs(Member(device, "refreshInterval")), types,
                if NodeTruthy(Member(Member(device, "log"), "debug")) then Some(SafeConfig(device)) else None)
  }

  /** The launch loop: one decision per device, stopping after an aborting entry. */
  function LaunchAll(devices: seq<Node>): (r: seq<Decision>)
    ensures |r| <= |devices|
    ensures forall i :: 0 <= i < |r| ==> r[i] == LaunchDevice(devices[i])
    ensures forall i :: 0 <= i < |r| - 1 ==> r[i] != Aborted
    ensures |r| < |devices| ==> |r| > 0 && r[|r| - 1] == Aborted
    ensures (forall i :: 0 <= i < |devices| ==> !Nullish(devices[i])) ==> |r| == |devices|
  {
    if |devices| == 0 then []
    else
      var d := LaunchDevice(devices[0]);
      if d == Aborted then [d]
      else [d] + LaunchAll(devices[1..])
  }

  /**
    The platform constructor and launch: nothing unless `config.devices` is an
    array and the preferences directory could be created (`prefsReady`, the
    outcome of `mkdirSync`, which is not part of this model).
   */
  function Launch(config: Node, prefsReady: bool): (r: Option<seq<Decision>>)
    ensures r.None? <==> !NodeTruthy(config) || !Member(config, "devices").Arr? || !prefsReady
    ensures r.Some? ==> r.value == LaunchAll(Member(config, "devices").items)
  {
    if !NodeTruthy(config) || !Member(config, "devices").Arr? then None
    else if !prefsReady then None
    else Some(LaunchAll(Member(config, "devices").items))
  }

  /** What starting one accessory did: returned an accessory, returned nothing, or threw. */
  datatype StartResult = Published | NoAccessory | Threw

  /** The observable effect of one tick of the start-up task. */
  datatype Outcome = Outcome(poll: Option<Task>, published: seq<nat>, startStopped: bool)

  /** The position of the first start that throws, or the number of types when none does. */
  function FirstThrow(types: seq<nat>, start: nat -> StartResult): (k: nat)
    ensures k <= |types|
    ensures forall i :: 0 <= i < k ==> start(types[i]) != Threw
    ensures k < |types| ==> start(types[k]) == Threw
  {
    if |types| == 0 || start(types[0]) == Threw then 0
    else 1 + FirstThrow(types[1..], start)
  }

  /** Whether starting a device type returns an accessory to publish. */
  function Publishes(start: nat -> StartResult): nat -> bool {
    (t: nat) => start(t) == Published
  }

  /**
    The device loop of the start-up task: publish in order, stop at the first
    start that throws (`StartDevicesInOrder` gives the exact list).
   */
  function StartDevices(types: seq<nat>, start: nat -> StartResult): (r: (seq<nat>, bool))
    ensures r.1 <==> forall i :: 0 <= i < |types| ==> start(types[i]) != Threw
    ensures forall t :: t in r.0 ==> t in types && start(t) == Published
    ensures r.1 ==> forall t :: t in types && start(t) == Published ==> t in r.0
    ensures |r.0| <= |types|
    decreases |types|
  {
    if |types| == 0 then ([], true)
    else match start(types[0])
      case Threw => ([], false)
      case NoAccessory => StartDevices(types[1..], start)
      case Published =>
        var rest := StartDevices(types[1..], start);
        ([types[0]] + rest.0, rest.1)
  }

  /**
    The published types are exactly those before the first throw whose start
    returned an accessory, in device-type order: nothing at or after a throw
    is published.
   */
  lemma {:induction false} StartDevicesInOrder(types: seq<nat>, start: nat -> StartResult)
    ensures StartDevices(types, start).0 == Services.Filter(types[..FirstThrow(types, start)], Publishes(start))
    ensures forall t :: t in StartDevices(types, start).0 ==> t in types[..FirstThrow(types, start)]
    decreases |types|
  {
    if |types| > 0 && start(types[0]) != Threw {
      PublishedStep(types, start);
      StartDevicesInOrder(types[1..], start);
    }
  }

  /** Past a first start that does not throw, the publishable prefix is that type's share plus the rest's. */
  lemma PublishedStep(types: seq<nat>, start: nat -> StartResult)
    requires |types| > 0 && start(types[0]) != Threw
    ensures Services.Filter(types[..FirstThrow(types, start)], Publishes(start))
         == (if start(types[0]) == Published then [types[0]] else [])
            + Services.Filter(types[1..][..FirstThrow(types[1..], start)], Publishes(start))
  {
    var xs := types[..FirstThrow(types, start)];
    PrefixStep(types, start);
    FilterCons(xs, Publishes(start));
  }

  /** Past a first start that does not throw, the prefix before the first throw is that type and the rest's prefix. */
  lemma PrefixStep(types: seq<nat>, start: nat -> StartResult)
    requires |types| > 0 && start(types[0]) != Threw
    ensures var xs := types[..FirstThrow(types, start)];
      |xs| > 0 && xs[0] == types[0] && xs[1..] == types[1..][..FirstThrow(types[1..], start)]
  {
    assert FirstThrow(types, start) == 1 + FirstThrow(types[1..], start);
  }

  /** One unfolding of `Filter` on a non-empty list. */
  lemma FilterCons(xs: seq<nat>, p: nat -> bool)
    requires |xs| > 0
    ensures Services.Filter(xs, p) == (if p(xs[0]) then [xs[0]] else []) + Services.Filter(xs[1..], p)
  {
  }

  /**
    One tick of the start-up task (index.js:75-127): a failed or unsuccessful
    `connect()` changes nothing, so the task runs again; otherwise the poll
    task is started, the accessories are started and published in order,
    and the start-up task is stopped only when no start threw.
   */
  function StartTick(refreshMs: int, types: seq<nat>, connect: Result<OpenWrt.ConnectInfo, OpenWrt.Fault>,
                     start: nat -> StartResult): (r: Outcome)
    ensures r.poll.Some? <==> connect.Ok? && connect.value.state
    ensures r.poll.Some? ==> r.poll.value == Task("connect", refreshMs)
    ensures r.poll.None? ==> r.published == [] && !r.startStopped
    ensures r.startStopped <==> r.poll.Some? && forall i :: 0 <= i < |types| ==> start(types[i]) != Threw
    ensures forall t :: t in r.published ==> t in types && start(t) == Published
  {
    if connect.Err? || !connect.value.state then Outcome(None, [], false)
    else
      var (published, finished) := StartDevices(types, start);
      Outcome(Some(Task("connect", refreshMs)), published, finished)
  }
}
