/**
  The router accessory of src/router.js: the identity-keyed reconciliation of
  its radio and SSID services against each `openWrtInfo` snapshot, the `On`
  getters, the button rules and the external-integration dispatch.

  The accessory framework is abstracted to lists of `Svc` records (subtype,
  configured name, last pushed value); a radio or SSID "family" is its list of
  control services and its list of sensor services.
 */
module Router {
  import opened Wrappers
  import opened JsValues
  import opened Services

  /** A radio of the snapshot router.js reads (`{device, band, disabled}`). */
  datatype Radio = Radio(device: string, band: string, disabled: Json)

  /** An SSID of the snapshot router.js reads (`{name, device, band, disabled}`). */
  datatype Ssid = Ssid(name: string, device: string, band: string, disabled: Json)

  /**
    The `openWrtInfo` object the handler receives; `hasSystemInfo` says whether
    its `systemInfo` is set (neither `null` nor `undefined`).
   */
  datatype Snapshot = Snapshot(hasSystemInfo: bool, wirelessRadios: seq<Radio>, wirelessSsids: seq<Ssid>, linkUp: Json)

  /** The identity of a radio service: `radio:<device>:<band>`. */
  function RadioKey(device: string, band: string): (k: string)
    ensures |k| == 7 + |device| + |band|
    ensures k[..6] == "radio:" && k[6..6 + |device|] == device
    ensures k[6 + |device|] == ':' && k[7 + |device|..] == band
  {
    "radio:" + device + ":" + band
  }

  /** The identity of an SSID service: `ssid:<name>:<device>:<band>`. */
  function SsidKey(name: string, device: string, band: string): (k: string)
    ensures |k| == 7 + |name| + |device| + |band|
    ensures k[..5] == "ssid:" && k[5..5 + |name|] == name && k[5 + |name|] == ':'
    ensures k[6 + |name|..6 + |name| + |device|] == device && k[6 + |name| + |device|] == ':'
    ensures k[7 + |name| + |device|..] == band
  {
    "ssid:" + name + ":" + device + ":" + band
  }

  /** One snapshot item as the reconciler sees it: its key, its `<name> <band>` text, its `disabled`. */
  datatype Entry = Entry(key: string, text: string, disabled: Json)

  function RadioEntry(r: Radio): Entry {
    Entry(RadioKey(r.device, r.band), r.device + " " + r.band, r.disabled)
  }

  function SsidEntry(s: Ssid): Entry {
    Entry(SsidKey(s.name, s.device, s.band), s.name + " " + s.band, s.disabled)
  }

  function RadioEntries(radios: seq<Radio>): (r: seq<Entry>)
    ensures |r| == |radios| && forall i :: 0 <= i < |r| ==> r[i] == RadioEntry(radios[i])
  {
    seq(|radios|, i requires 0 <= i < |radios| => RadioEntry(radios[i]))
  }

  function SsidEntries(ssids: seq<Ssid>): (r: seq<Entry>)
    ensures |r| == |ssids| && forall i :: 0 <= i < |r| ==> r[i] == SsidEntry(ssids[i])
  {
    seq(|ssids|, i requires 0 <= i < |ssids| => SsidEntry(ssids[i]))
  }

  /** The keys of a snapshot list in order (`currentRadios`, `currentSsids`). */
  function Keys(entries: seq<Entry>): (r: seq<string>)
    ensures |r| == |entries| && forall i :: 0 <= i < |r| ==> r[i] == entries[i].key
  {
    seq(|entries|, i requires 0 <= i < |entries| => entries[i].key)
  }

  function KeySet(entries: seq<Entry>): set<string> {
    set e | e in entries :: e.key
  }

  /** The control and sensor blocks of one family (`wireless.radio` or `wireless.ssid`). */
  datatype FamilyConfig = FamilyConfig(control: Display, sensor: Display)

  /** A family's published services: its controls and its sensors. */
  datatype Family = Family(controls: seq<Svc>, sensors: seq<Svc>)

  /** The configured name of a service for entry `e` under block `d`. */
  function ServiceName(d: Display, accessory: string, e: Entry): string {
    PrefixedName(Truthy(d.namePrefix), accessory, e.text)
  }

  /**
    `addRadio` / `addSSID`: push a pushed service, keyed by the entry, onto
    each list whose block is shown. A pushed service has nothing pushed yet.
   */
  function Add(cfg: FamilyConfig, accessory: string, fam: Family, e: Entry): (r: Family)
    ensures r.controls == fam.controls + (if Shown(cfg.control) then [Svc(e.key, ServiceName(cfg.control, accessory, e), None)] else [])
    ensures r.sensors == fam.sensors + (if Shown(cfg.sensor) then [Svc(e.key, ServiceName(cfg.sensor, accessory, e), None)] else [])
  {
    Family(
      fam.controls + (if Shown(cfg.control) then [Svc(e.key, ServiceName(cfg.control, accessory, e), None)] else []),
      fam.sensors + (if Shown(cfg.sensor) then [Svc(e.key, ServiceName(cfg.sensor, accessory, e), None)] else []))
  }

  /**
    `existing.setCharacteristic(ConfiguredName, name).updateCharacteristic(…, on)`
    on the service `find` returns, the first one with subtype `key`.
   */
  function Refresh(svcs: seq<Svc>, key: string, name: string, on: bool): (r: seq<Svc>)
    ensures |r| == |svcs|
    ensures forall i :: 0 <= i < |r| ==> r[i].subtype == svcs[i].subtype
    ensures SubtypeSet(r) == SubtypeSet(svcs)
    ensures key !in SubtypeSet(svcs) ==> r == svcs
    ensures key in SubtypeSet(svcs) ==>
      exists i :: 0 <= i < |svcs| && svcs[i].subtype == key
        && (forall j :: 0 <= j < i ==> svcs[j].subtype != key)
        && r == svcs[i := Svc(key, name, Some(on))]
  {
    match FirstWith(svcs, key)
    case None => svcs
    case Some(i) =>
      var r := svcs[i := Svc(key, name, Some(on))];
      assert SubtypeSet(r) == SubtypeSet(svcs) by {
        forall k ensures k in SubtypeSet(r) <==> k in SubtypeSet(svcs) {
          if k in SubtypeSet(r) {
            var s :| s in r && s.subtype == k;
            var j :| 0 <= j < |r| && r[j] == s;
            assert svcs[j].subtype == k;
          }
          if k in SubtypeSet(svcs) {
            var s :| s in svcs && s.subtype == k;
            var j :| 0 <= j < |svcs| && svcs[j] == s;
            assert r[j].subtype == k;
          }
        }
      }
      FindFirstIsFirst(svcs, key, i);
      r
  }

  lemma FindFirstIsFirst(svcs: seq<Svc>, key: string, i: nat)
    requires FirstWith(svcs, key) == Some(i)
    ensures forall j :: 0 <= j < i ==> svcs[j].subtype != key
  {
    assert FindFirst(svcs, (s: Svc) => s.subtype == key) == Some(i);
  }

  /** The family after one snapshot entry, and how many times `addRadio`/`addSSID` ran for it. */
  datatype Stepped = Stepped(family: Family, adds: nat)

  /** `key` is missing from a shown list. */
  predicate Missing(d: Display, svcs: seq<Svc>, key: string) {
    Shown(d) && key !in SubtypeSet(svcs)
  }

  /** The control branch of the loop body: add when no control has the key, else refresh it. */
  function ControlStep(cfg: FamilyConfig, accessory: string, fam: Family, e: Entry): (r: Stepped)
    ensures !Shown(cfg.control) ==> r == Stepped(fam, 0)
    ensures Missing(cfg.control, fam.controls, e.key) ==> r == Stepped(Add(cfg, accessory, fam, e), 1)
    ensures Shown(cfg.control) && e.key in SubtypeSet(fam.controls) ==>
      r == Stepped(Family(Refresh(fam.controls, e.key, ServiceName(cfg.control, accessory, e), !Truthy(e.disabled)),
                          fam.sensors), 0)
  {
    if !Shown(cfg.control) then Stepped(fam, 0)
    else if e.key !in SubtypeSet(fam.controls) then Stepped(Add(cfg, accessory, fam, e), 1)
    else Stepped(Family(Refresh(fam.controls, e.key, ServiceName(cfg.control, accessory, e), !Truthy(e.disabled)),
                        fam.sensors), 0)
  }

  /**
    The sensor branch, run on the family the control branch left: add when
    no sensor has the key and the control branch did not add, refresh the
    sensor found otherwise.
   */
  function SensorStep(cfg: FamilyConfig, accessory: string, fam: Family, e: Entry, added: bool): (r: Stepped)
    ensures !Shown(cfg.sensor) ==> r == Stepped(fam, 0)
    ensures Missing(cfg.sensor, fam.sensors, e.key) && !added ==> r == Stepped(Add(cfg, accessory, fam, e), 1)
    ensures Shown(cfg.sensor) && e.key in SubtypeSet(fam.sensors) ==>
      r == Stepped(Family(fam.controls,
                          Refresh(fam.sensors, e.key, ServiceName(cfg.sensor, accessory, e), !Truthy(e.disabled))), 0)
    ensures Missing(cfg.sensor, fam.sensors, e.key) && added ==> r == Stepped(fam, 0)
  {
    if !Shown(cfg.sensor) then Stepped(fam, 0)
    else if e.key !in SubtypeSet(fam.sensors) && !added then Stepped(Add(cfg, accessory, fam, e), 1)
    else if e.key in SubtypeSet(fam.sensors) then
      Stepped(Family(fam.controls, Refresh(fam.sensors, e.key, ServiceName(cfg.sensor, accessory, e), !Truthy(e.disabled))), 0)
    else Stepped(fam, 0)
  }

  /** Appending a service keyed `key` to a list without `key` adds exactly `key` to its subtypes. */
  lemma AppendSubtype(svcs: seq<Svc>, s: Svc)
    ensures SubtypeSet(svcs + [s]) == SubtypeSet(svcs) + {s.subtype}
  {
    assert forall x :: x in svcs + [s] <==> x in svcs || x == s;
  }

  /** Refreshing the one service keyed `s.subtype` just appended sets its value. */
  lemma RefreshAppended(svcs: seq<Svc>, s: Svc, name: string, on: bool)
    requires s.subtype !in SubtypeSet(svcs)
    ensures Refresh(svcs + [s], s.subtype, name, on) == svcs + [Svc(s.subtype, name, Some(on))]
  {
    var all := svcs + [s];
    AppendSubtype(svcs, s);
    var i :| 0 <= i < |all| && all[i].subtype == s.subtype
             && (forall j :: 0 <= j < i ==> all[j].subtype != s.subtype)
             && Refresh(all, s.subtype, name, on) == all[i := Svc(s.subtype, name, Some(on))];
  }

  /** Refreshing a key already present is unaffected by services appended after it. */
  lemma RefreshExtend(svcs: seq<Svc>, s: Svc, key: string, name: string, on: bool)
    requires key in SubtypeSet(svcs)
    ensures Refresh(svcs + [s], key, name, on) == Refresh(svcs, key, name, on) + [s]
  {
    FindFirstExtend(svcs, [s], (x: Svc) => x.subtype == key);
    var i := FirstWith(svcs, key).value;
    assert (svcs + [s])[i := Svc(key, name, Some(on))] == svcs[i := Svc(key, name, Some(on))] + [s];
  }

  /**
    The loop body for one radio (router.js:57-94) or SSID (118-156). The
    sensor branch sees the control branch's effects: when the control branch
    added, the sensor just pushed is found and refreshed. When only one of
    the two lists has the key, `addRadio` pushes onto both, so the other
    list gets a second service with that key.
   */
  function Step(cfg: FamilyConfig, accessory: string, fam: Family, e: Entry): (r: Stepped)
    ensures r.adds <= 1
    ensures r.adds == 1 <==> Missing(cfg.control, fam.controls, e.key) || Missing(cfg.sensor, fam.sensors, e.key)
    ensures !Shown(cfg.control) ==> r.family.controls == fam.controls
    ensures !Shown(cfg.sensor) ==> r.family.sensors == fam.sensors
    ensures Missing(cfg.control, fam.controls, e.key) ==>
      r.family.controls == fam.controls + [Svc(e.key, ServiceName(cfg.control, accessory, e), None)]
    ensures (Shown(cfg.control) && e.key in SubtypeSet(fam.controls)) ==>
      r.family.controls
        == Refresh(fam.controls, e.key, ServiceName(cfg.control, accessory, e), !Truthy(e.disabled))
           + (if Missing(cfg.sensor, fam.sensors, e.key) then [Svc(e.key, ServiceName(cfg.control, accessory, e), None)] else [])
    ensures (Shown(cfg.sensor) && e.key in SubtypeSet(fam.sensors)) ==>
      r.family.sensors
        == Refresh(fam.sensors, e.key, ServiceName(cfg.sensor, accessory, e), !Truthy(e.disabled))
           + (if Missing(cfg.control, fam.controls, e.key) then [Svc(e.key, ServiceName(cfg.sensor, accessory, e), None)] else [])
    ensures (Missing(cfg.sensor, fam.sensors, e.key) && Missing(cfg.control, fam.controls, e.key)) ==>
      r.family.sensors == fam.sensors + [Svc(e.key, ServiceName(cfg.sensor, accessory, e), Some(!Truthy(e.disabled)))]
    ensures (Missing(cfg.sensor, fam.sensors, e.key) && !Missing(cfg.control, fam.controls, e.key)) ==>
      r.family.sensors == fam.sensors + [Svc(e.key, ServiceName(cfg.sensor, accessory, e), None)]
  {
    var c := ControlStep(cfg, accessory, fam, e);
    var s := SensorStep(cfg, accessory, c.family, e, c.adds == 1);
    var pushed := Svc(e.key, ServiceName(cfg.sensor, accessory, e), None);
    if Missing(cfg.sensor, fam.sensors, e.key) && Missing(cfg.control, fam.controls, e.key) then
      AppendSubtype(fam.sensors, pushed);
      RefreshAppended(fam.sensors, pushed, ServiceName(cfg.sensor, accessory, e), !Truthy(e.disabled));
      Stepped(s.family, c.adds + s.adds)
    else if Shown(cfg.sensor) && e.key in SubtypeSet(fam.sensors) && Missing(cfg.control, fam.controls, e.key) then
      RefreshExtend(fam.sensors, pushed, e.key, ServiceName(cfg.sensor, accessory, e), !Truthy(e.disabled));
      Stepped(s.family, c.adds + s.adds)
    else
      Stepped(s.family, c.adds + s.adds)
  }

  /** Both a current key list and its set say which subtypes are current. */
  lemma KeysMembership(entries: seq<Entry>)
    ensures forall k :: k in Keys(entries) <==> k in KeySet(entries)
  {
    forall k ensures k in Keys(entries) <==> k in KeySet(entries) {
      if k in Keys(entries) {
        var i :| 0 <= i < |Keys(entries)| && Keys(entries)[i] == k;
        assert entries[i] in entries;
      }
      if k in KeySet(entries) {
        var e :| e in entries && e.key == k;
        var i :| 0 <= i < |entries| && entries[i] == e;
        assert Keys(entries)[i] == k;
      }
    }
  }

  lemma KeySetCons(entries: seq<Entry>)
    requires |entries| > 0
    ensures KeySet(entries) == {entries[0].key} + KeySet(entries[1..])
  {
    assert forall e :: e in entries <==> e == entries[0] || e in entries[1..];
  }

  /** One loop step adds exactly the entry's key to each shown list and leaves a hidden list alone. */
  lemma StepSubtypes(cfg: FamilyConfig, accessory: string, fam: Family, e: Entry)
    ensures var r := Step(cfg, accessory, fam, e).family;
      && (Shown(cfg.control) ==> SubtypeSet(r.controls) == SubtypeSet(fam.controls) + {e.key})
      && (Shown(cfg.sensor) ==> SubtypeSet(r.sensors) == SubtypeSet(fam.sensors) + {e.key})
      && (!Shown(cfg.control) ==> r.controls == fam.controls)
      && (!Shown(cfg.sensor) ==> r.sensors == fam.sensors)
  {
    if Shown(cfg.control) {
      StepControlSubtypes(cfg, accessory, fam, e);
    }
    if Shown(cfg.sensor) {
      StepSensorSubtypes(cfg, accessory, fam, e);
    }
  }

  lemma StepControlSubtypes(cfg: FamilyConfig, accessory: string, fam: Family, e: Entry)
    requires Shown(cfg.control)
    ensures SubtypeSet(Step(cfg, accessory, fam, e).family.controls) == SubtypeSet(fam.controls) + {e.key}
  {
    var r := Step(cfg, accessory, fam, e).family;
    var cname := ServiceName(cfg.control, accessory, e);
    if e.key in SubtypeSet(fam.controls) {
      var refreshed := Refresh(fam.controls, e.key, cname, !Truthy(e.disabled));
      if Missing(cfg.sensor, fam.sensors, e.key) {
        AppendSubtype(refreshed, Svc(e.key, cname, None));
      } else {
        assert r.controls == refreshed + [];
      }
    } else {
      AppendSubtype(fam.controls, Svc(e.key, cname, None));
    }
  }

  lemma StepSensorSubtypes(cfg: FamilyConfig, accessory: string, fam: Family, e: Entry)
    requires Shown(cfg.sensor)
    ensures SubtypeSet(Step(cfg, accessory, fam, e).family.sensors) == SubtypeSet(fam.sensors) + {e.key}
  {
    var r := Step(cfg, accessory, fam, e).family;
    var sname := ServiceName(cfg.sensor, accessory, e);
    var on := !Truthy(e.disabled);
    if e.key in SubtypeSet(fam.sensors) {
      var refreshed := Refresh(fam.sensors, e.key, sname, on);
      if Missing(cfg.control, fam.controls, e.key) {
        AppendSubtype(refreshed, Svc(e.key, sname, None));
      } else {
        assert r.sensors == refreshed + [];
      }
    } else if Missing(cfg.control, fam.controls, e.key) {
      AppendSubtype(fam.sensors, Svc(e.key, sname, Some(on)));
    } else {
      AppendSubtype(fam.sensors, Svc(e.key, sname, None));
    }
  }

  /** The removal loops keep exactly the subtypes that are current. */
  lemma PruneSubtypes(svcs: seq<Svc>, entries: seq<Entry>)
    ensures SubtypeSet(Prune(svcs, Keys(entries))) == SubtypeSet(svcs) * KeySet(entries)
  {
    KeysMembership(entries);
    var kept := Prune(svcs, Keys(entries));
    forall k ensures k in SubtypeSet(kept) <==> k in SubtypeSet(svcs) && k in KeySet(entries) {
      if k in SubtypeSet(kept) {
        var s :| s in kept && s.subtype == k;
        assert s in svcs;
      }
      if k in SubtypeSet(svcs) && k in KeySet(entries) {
        var s :| s in svcs && s.subtype == k;
        assert s in kept;
      }
    }
  }

  lemma KeySetSnoc(entries: seq<Entry>)
    requires |entries| > 0
    ensures KeySet(entries) == KeySet(entries[..|entries| - 1]) + {entries[|entries| - 1].key}
  {
    assert entries == entries[..|entries| - 1] + [entries[|entries| - 1]];
    assert forall e :: e in entries <==> e in entries[..|entries| - 1] || e == entries[|entries| - 1];
  }

  /**
    The reconcile loop over a whole snapshot list, in snapshot order: each
    shown list ends up with its old subtypes plus exactly the snapshot's keys,
    and a hidden list is left alone.
   */
  function Process(cfg: FamilyConfig, accessory: string, fam: Family, entries: seq<Entry>): (r: Family)
    ensures Shown(cfg.control) ==> SubtypeSet(r.controls) == SubtypeSet(fam.controls) + KeySet(entries)
    ensures Shown(cfg.sensor) ==> SubtypeSet(r.sensors) == SubtypeSet(fam.sensors) + KeySet(entries)
    ensures !Shown(cfg.control) ==> r.controls == fam.controls
    ensures !Shown(cfg.sensor) ==> r.sensors == fam.sensors
    decreases |entries|
  {
    if |entries| == 0 then
      assert KeySet(entries) == {};
      fam
    else
      StepSubtypes(cfg, accessory, fam, entries[0]);
      KeySetCons(entries);
      Process(cfg, accessory, Step(cfg, accessory, fam, entries[0]).family, entries[1..])
  }

  /** The backwards `splice` loop: keep, in order, the services whose subtype is a current key. */
  function Prune(svcs: seq<Svc>, keys: seq<string>): (r: seq<Svc>)
    ensures forall s :: s in r <==> s in svcs && s.subtype in keys
    ensures IsSubsequence(r, svcs)
  {
    Filter(svcs, (s: Svc) => s.subtype in keys)
  }

  /**
    A family in step with a snapshot list: each shown list carries exactly the
    list's keys, and no list, shown or hidden, keeps a service whose key is gone.
   */
  predicate Synced(cfg: FamilyConfig, fam: Family, entries: seq<Entry>) {
    && (Shown(cfg.control) ==> SubtypeSet(fam.controls) == KeySet(entries))
    && (Shown(cfg.sensor) ==> SubtypeSet(fam.sensors) == KeySet(entries))
    && (forall s :: s in fam.controls ==> s.subtype in KeySet(entries))
    && (forall s :: s in fam.sensors ==> s.subtype in KeySet(entries))
  }

  /**
    One family's part of the `openWrtInfo` handler: the loop, then the two
    removal loops. Whatever the lists held before, they end in step with the
    snapshot; a hidden list is only filtered; the removals keep the loop's
    services in their relative order.
   */
  function Reconcile(cfg: FamilyConfig, accessory: string, fam: Family, entries: seq<Entry>): (r: Family)
    ensures Synced(cfg, r, entries)
    ensures !Shown(cfg.control) ==> forall s :: s in r.controls <==> s in fam.controls && s.subtype in KeySet(entries)
    ensures !Shown(cfg.sensor) ==> forall s :: s in r.sensors <==> s in fam.sensors && s.subtype in KeySet(entries)
    ensures IsSubsequence(r.controls, Process(cfg, accessory, fam, entries).controls)
    ensures IsSubsequence(r.sensors, Process(cfg, accessory, fam, entries).sensors)
  {
    var f := Process(cfg, accessory, fam, entries);
    PrunedSynced(cfg, f, entries);
    Family(Prune(f.controls, Keys(entries)), Prune(f.sensors, Keys(entries)))
  }

  /** Pruning lists that carry every current key leaves them in step with the snapshot. */
  lemma PrunedSynced(cfg: FamilyConfig, f: Family, entries: seq<Entry>)
    requires Shown(cfg.control) ==> KeySet(entries) <= SubtypeSet(f.controls)
    requires Shown(cfg.sensor) ==> KeySet(entries) <= SubtypeSet(f.sensors)
    ensures Synced(cfg, Family(Prune(f.controls, Keys(entries)), Prune(f.sensors, Keys(entries))), entries)
    ensures forall s :: s in Prune(f.controls, Keys(entries)) <==> s in f.controls && s.subtype in KeySet(entries)
    ensures forall s :: s in Prune(f.sensors, Keys(entries)) <==> s in f.sensors && s.subtype in KeySet(entries)
  {
    KeysMembership(entries);
    PruneSubtypes(f.controls, entries);
    PruneSubtypes(f.sensors, entries);
  }

  /** The shown button, its runtime `state`, and the service published for it. */
  datatype ButtonSlot = ButtonSlot(config: ButtonConfig, state: bool, service: Svc)

  /** The router accessory's reconciled state. */
  datatype RouterConfig = RouterConfig(name: string, radio: FamilyConfig, ssid: FamilyConfig)
  datatype RouterState = RouterState(info: Snapshot, radios: Family, ssids: Family, buttons: seq<ButtonSlot>)

  /** A button's configured service name: `namePrefix ? "<accessory> <label>" : "<label>"`. */
  function ButtonServiceName(accessory: string, b: ButtonConfig, i: nat): string {
    PrefixedName(Truthy(b.namePrefix), accessory, ButtonLabel(b, i))
  }

  /** The button loop of the handler: every state back to false, every service renamed and set off. */
  function ResetButtons(accessory: string, buttons: seq<ButtonSlot>): (r: seq<ButtonSlot>)
    ensures |r| == |buttons|
    ensures forall i :: 0 <= i < |r| ==>
      && !r[i].state
      && r[i].config == buttons[i].config
      && r[i].service.subtype == buttons[i].service.subtype
      && r[i].service.on == Some(false)
  {
    seq(|buttons|, i requires 0 <= i < |buttons| =>
      ButtonSlot(buttons[i].config, false,
                 Svc(buttons[i].service.subtype, ButtonServiceName(accessory, buttons[i].config, i), Some(false))))
  }

  /** The `WiFiSatelliteStatus` value: 1 (connected) when `linkUp` is truthy, else 2 (disconnected). */
  function LinkStatus(linkUp: Json): (r: int)
    ensures r == 1 || r == 2
    ensures r == 1 <==> Truthy(linkUp)
  {
    if Truthy(linkUp) then 1 else 2
  }

  /**
    The `openWrtInfo` handler: store the snapshot, then radios, SSIDs and
    buttons. Reading `systemInfo.release` throws when `systemInfo` is unset,
    which ends the handler right after the snapshot is stored.
   */
  function OnInfo(cfg: RouterConfig, st: RouterState, snap: Snapshot): (r: RouterState)
    ensures r.info == snap
    ensures !snap.hasSystemInfo ==> r.radios == st.radios && r.ssids == st.ssids && r.buttons == st.buttons
    ensures snap.hasSystemInfo ==>
      && Synced(cfg.radio, r.radios, RadioEntries(snap.wirelessRadios))
      && Synced(cfg.ssid, r.ssids, SsidEntries(snap.wirelessSsids))
      && r.radios == Reconcile(cfg.radio, cfg.name, st.radios, RadioEntries(snap.wirelessRadios))
      && r.ssids == Reconcile(cfg.ssid, cfg.name, st.ssids, SsidEntries(snap.wirelessSsids))
    ensures |r.buttons| == |st.buttons|
    ensures snap.hasSystemInfo ==> forall i :: 0 <= i < |r.buttons| ==>
      && !r.buttons[i].state
      && r.buttons[i].config == st.buttons[i].config
      && r.buttons[i].service.subtype == st.buttons[i].service.subtype
      && r.buttons[i].service.on == Some(false)
  {
    if !snap.hasSystemInfo then st.(info := snap)
    else
      RouterState(snap,
                  Reconcile(cfg.radio, cfg.name, st.radios, RadioEntries(snap.wirelessRadios)),
                  Reconcile(cfg.ssid, cfg.name, st.ssids, SsidEntries(snap.wirelessSsids)),
                  ResetButtons(cfg.name, st.buttons))
  }

  /**
    `prepareAccessory`'s radio and SSID loops: `addRadio`/`addSSID` for every
    entry, no lookup. Each shown list holds, in snapshot order, one service
    per entry, keyed and named after it, with nothing pushed yet; a hidden
    list stays empty.
   */
  function Prepare(cfg: FamilyConfig, accessory: string, entries: seq<Entry>): (r: Family)
    ensures Shown(cfg.control) ==> |r.controls| == |entries| && forall i :: 0 <= i < |entries| ==>
      r.controls[i] == Svc(entries[i].key, ServiceName(cfg.control, accessory, entries[i]), None)
    ensures Shown(cfg.sensor) ==> |r.sensors| == |entries| && forall i :: 0 <= i < |entries| ==>
      r.sensors[i] == Svc(entries[i].key, ServiceName(cfg.sensor, accessory, entries[i]), None)
    ensures !Shown(cfg.control) ==> r.controls == []
    ensures !Shown(cfg.sensor) ==> r.sensors == []
    decreases |entries|
  {
    if |entries| == 0 then Family([], [])
    else Add(cfg, accessory, Prepare(cfg, accessory, entries[..|entries| - 1]), entries[|entries| - 1])
  }

  /** The `On` getter of a radio service: `!disabled` of the first radio with this device and band, else false. */
  function RadioOn(snap: Snapshot, device: string, band: string): (r: bool)
    ensures r <==> exists i :: (0 <= i < |snap.wirelessRadios|
      && snap.wirelessRadios[i].device == device && snap.wirelessRadios[i].band == band
      && !Truthy(snap.wirelessRadios[i].disabled)
      && forall j :: 0 <= j < i ==> !(snap.wirelessRadios[j].device == device && snap.wirelessRadios[j].band == band))
  {
    match FindFirst(snap.wirelessRadios, (x: Radio) => x.device == device && x.band == band)
    case None => false
    case Some(i) => !Truthy(snap.wirelessRadios[i].disabled)
  }

  /** The `On` getter of an SSID service: matches on name, device and band. */
  function SsidOn(snap: Snapshot, name: string, device: string, band: string): (r: bool)
    ensures r <==> exists i :: (0 <= i < |snap.wirelessSsids|
      && snap.wirelessSsids[i].name == name && snap.wirelessSsids[i].device == device
      && snap.wirelessSsids[i].band == band
      && !Truthy(snap.wirelessSsids[i].disabled)
      && forall j :: 0 <= j < i ==> !(snap.wirelessSsids[j].name == name && snap.wirelessSsids[j].device == device
                                       && snap.wirelessSsids[j].band == band))
  {
    match FindFirst(snap.wirelessSsids, (x: Ssid) => x.name == name && x.device == device && x.band == band)
    case None => false
    case Some(i) => !Truthy(snap.wirelessSsids[i].disabled)
  }

  /**
    `setOverExternalIntegration(integration, key, value)`: a falsy value is
    ignored, the three known keys forward their button command, any other
    key is warned about.
   */
  function ExternalSet(key: string, value: Json): (r: Dispatch)
    ensures !Truthy(value) <==> r == Ignored
    ensures r.Forwarded? <==> Truthy(value) && key in IntegrationCommands
    ensures r.Forwarded? ==> r.command == IntegrationCommands[key] && 0 <= r.command <= 2
    ensures r == Warned <==> Truthy(value) && key !in IntegrationCommands
  {
    if !Truthy(value) then Ignored
    else if key in IntegrationCommands then Forwarded(IntegrationCommands[key])
    else Warned
  }

  /** The outcome of a button's `onSet`: its new state and the command sent, if any. */
  datatype Press = Press(state: bool, sent: Option<Json>)

  /** A button's `onSet(state)`: `false` does nothing; `true` sets the state and sends the command. */
  function ButtonSet(slot: ButtonSlot, pressed: bool): (r: Press)
    ensures !pressed ==> r == Press(slot.state, None)
    ensures pressed ==> r.state && r.sent == Some(slot.config.command)
  {
    if !pressed then Press(slot.state, None) else Press(true, Some(slot.config.command))
  }

  /** The argument list a service's `onSet` passes to `openWrt.send(type, ssidName, state)`. */
  datatype SendArgs = SendArgs(kind: string, ssidName: Json, state: Json)

  /** A radio control's `onSet`: `send('radio', null, device, state, restart)`. */
  function RadioSetArgs(r: Radio, state: Json): (a: SendArgs)
    ensures a.kind == "radio"
  {
    SendArgs("radio", Null, Str(r.device))
  }

  /**
    An SSID control's `onSet` as written: `send('ssid', radio, name, state)`,
    which binds the device to `ssidName`, the SSID name to `state`, and
    drops the requested state.
   */
  function SsidSetArgsAsWritten(s: Ssid, state: Json): (a: SendArgs)
    ensures a.kind == "ssid"
    ensures a.ssidName == Str(s.device) && a.state == Str(s.name)
  {
    SendArgs("ssid", Str(s.device), Str(s.name))
  }

  /** An SSID control's `onSet` as evidently intended: `send('ssid', name, state)`. */
  function SsidSetArgs(s: Ssid, state: Json): (a: SendArgs)
    ensures a.kind == "ssid"
    ensures a.ssidName == Str(s.name) && a.state == state
  {
    SendArgs("ssid", Str(s.name), state)
  }
}
