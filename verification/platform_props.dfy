/**
  Properties of the platform entry point (index.js): what the debug log
  reveals, and how the start-up task depends on the router client's
  `connect()`.
 */
module PlatformProperties {
  import opened Wrappers
  import opened JsValues
  import opened Platform
  import OpenWrt

  /**
    As written, the logged configuration carries the top-level `passwd`
    unchanged, and that is the very password the router client logs in with.
   */
  lemma SafeConfigKeepsLoginPassword(device: Node, clock: nat -> int, router: (nat, OpenWrt.Request) -> OpenWrt.Reply)
    requires device.Obj? && "passwd" in device.fields && device.fields["passwd"].Leaf?
    ensures "passwd" in SafeConfig(device).fields
    ensures SafeConfig(device).fields["passwd"]
         == Leaf(OpenWrt.LoginRequest(ClientEnv(device, clock, router)).call.params.password)
  {
  }

  /** A concrete device whose debug log shows its router password. */
  lemma SafeConfigLeaksExample(clock: nat -> int, router: (nat, OpenWrt.Request) -> OpenWrt.Reply)
    ensures var device := Obj(map["name" := Leaf(Str("Router")), "host" := Leaf(Str("192.168.1.1")),
                                  "displayType" := Leaf(Num(1)), "user" := Leaf(Str("root")),
                                  "passwd" := Leaf(Str("secret")),
                                  "apDevice" := Obj(map["enable" := Leaf(Bool(true))]),
                                  "log" := Obj(map["debug" := Leaf(Bool(true))])]);
            var d := LaunchDevice(device);
            && d.Planned? && d.logged.Some?
            && d.logged.value.Obj? && "passwd" in d.logged.value.fields
            && d.logged.value.fields["passwd"] == Leaf(Str("secret"))
            && OpenWrt.LoginRequest(ClientEnv(device, clock, router)).call.params.password == Str("secret")
  {
    var device := Obj(map["name" := Leaf(Str("Router")), "host" := Leaf(Str("192.168.1.1")),
                          "displayType" := Leaf(Num(1)), "user" := Leaf(Str("root")),
                          "passwd" := Leaf(Str("secret")),
                          "apDevice" := Obj(map["enable" := Leaf(Bool(true))]),
                          "log" := Obj(map["debug" := Leaf(Bool(true))])]);
    assert Enabled(device, "apDevice");
    assert |ConfiguredDevices(device)| > 0;
    assert "passwd" in Spread(device);
  }

  /** The corrected redaction leaves none of the three passwords in the logged configuration. */
  lemma SafeConfigCorrectedHidesPasswords(device: Node)
    ensures var r := SafeConfigCorrected(device);
            && ("passwd" in r.fields ==> r.fields["passwd"] == Removed)
            && r.fields["auth"].Obj? && r.fields["auth"].fields["passwd"] == Removed
            && r.fields["mqtt"].Obj? && r.fields["mqtt"].fields.Keys == {"auth"}
            && r.fields["mqtt"].fields["auth"].Obj? && r.fields["mqtt"].fields["auth"].fields["passwd"] == Removed
  {
    var r := SafeConfigCorrected(device);
    if "passwd" in r.fields {
      assert "passwd" in Spread(device);
    }
  }

  /**
    As written, no tick of the start-up task gets past `connect()`: the
    poll task is never started, nothing is published, and the start-up
    task keeps running.
   */
  lemma StartupNeverPolls(device: Node, clock: nat -> int, router: (nat, OpenWrt.Request) -> OpenWrt.Reply,
                          at: nat, refreshMs: int, types: seq<nat>, start: nat -> StartResult)
    ensures var connect := OpenWrt.Connect(ClientEnv(device, clock, router), OpenWrt.Fresh, at, None);
            StartTick(refreshMs, types, connect.out, start) == Outcome(None, [], false)
  {
  }

  /**
    With the corrected `connect()`, a tick whose reads succeed starts the
    poll task and stops the start-up task once every accessory has started.
   */
  lemma StartupCorrectedPolls(env: OpenWrt.Env, at: nat, refreshMs: int, types: seq<nat>)
    requires OpenWrt.ConnectCorrected(env, OpenWrt.Fresh, at).out.Ok?
    ensures var r := StartTick(refreshMs, types, OpenWrt.ConnectCorrected(env, OpenWrt.Fresh, at).out, _ => Published);
            r == Outcome(Some(Task("connect", refreshMs)), types, true)
  {
    AllPublished(types, _ => Published);
  }

  /** When every accessory starts and returns one, each device type is published, in order. */
  lemma {:induction false} AllPublished(types: seq<nat>, start: nat -> StartResult)
    requires forall i :: 0 <= i < |types| ==> start(types[i]) == Published
    ensures StartDevices(types, start) == (types, true)
  {
    if |types| > 0 {
      AllPublished(types[1..], start);
      assert [types[0]] + types[1..] == types;
    }
  }

  /**
    A start that throws part-way leaves the poll task running but the
    start-up task too, so the next tick builds a second client and a second
    poll task and publishes the earlier accessories again.
   */
  lemma PartialStartRetries(refreshMs: int, types: seq<nat>, start: nat -> StartResult, k: nat)
    requires k < |types| && start(types[k]) == Threw
    requires forall i :: 0 <= i < k ==> start(types[i]) == Published
    ensures var r := StartTick(refreshMs, types, Ok(OpenWrt.BlankInfo.(state := true)), start);
            && r.poll == Some(Task("connect", refreshMs))
            && !r.startStopped
            && r.published == types[..k]
  {
    PublishedPrefix(types, start, k);
  }

  /** The published list when the first `k` starts publish and start `k` throws. */
  lemma {:induction false} PublishedPrefix(types: seq<nat>, start: nat -> StartResult, k: nat)
    requires k < |types| && start(types[k]) == Threw
    requires forall i :: 0 <= i < k ==> start(types[i]) == Published
    ensures StartDevices(types, start) == (types[..k], false)
  {
    if k > 0 {
      PublishedPrefix(types[1..], start, k - 1);
      assert [types[0]] + types[1..][..k - 1] == types[..k];
    }
  }
}
