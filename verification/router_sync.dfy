/**
  Properties of the router's reconciliation (src/router.js): when a whole
  `openWrtInfo` cycle keeps the published services free of duplicates, and
  how the services' setters reach the client.
 */
module RouterSync {
  import opened Wrappers
  import opened JsValues
  import opened Services
  import opened Router
  import OpenWrt
  import OpenWrtProperties

  /** A radio key and an SSID key never coincide: they differ in their first character. */
  lemma KeysDisjoint(device: string, band: string, name: string, ssidDevice: string, ssidBand: string)
    ensures RadioKey(device, band) != SsidKey(name, ssidDevice, ssidBand)
  {
    assert RadioKey(device, band)[0] == 'r';
    assert SsidKey(name, ssidDevice, ssidBand)[0] == 's';
  }

  /**
    The reconciler's invariant: neither list holds a subtype twice, and when
    both blocks are shown the two lists carry the same subtypes.
   */
  predicate Agreeing(cfg: FamilyConfig, fam: Family) {
    && DistinctSubtypes(fam.controls)
    && DistinctSubtypes(fam.sensors)
    && (Shown(cfg.control) && Shown(cfg.sensor) ==> SubtypeSet(fam.controls) == SubtypeSet(fam.sensors))
  }

  lemma DistinctAppend(svcs: seq<Svc>, s: Svc)
    requires DistinctSubtypes(svcs) && s.subtype !in SubtypeSet(svcs)
    ensures DistinctSubtypes(svcs + [s])
  {
    forall i, j | 0 <= i < j < |svcs + [s]| ensures (svcs + [s])[i].subtype != (svcs + [s])[j].subtype {
      if j == |svcs| {
        assert svcs[i] in svcs;
      }
    }
  }

  lemma DistinctRefresh(svcs: seq<Svc>, key: string, name: string, on: bool)
    requires DistinctSubtypes(svcs)
    ensures DistinctSubtypes(Refresh(svcs, key, name, on))
  {
  }

  /** One loop step keeps the lists agreeing. */
  lemma StepKeepsAgreeing(cfg: FamilyConfig, accessory: string, fam: Family, e: Entry)
    requires Agreeing(cfg, fam)
    ensures Agreeing(cfg, Step(cfg, accessory, fam, e).family)
  {
    var r := Step(cfg, accessory, fam, e).family;
    var on := !Truthy(e.disabled);
    StepSubtypes(cfg, accessory, fam, e);
    var cname := ServiceName(cfg.control, accessory, e);
    var sname := ServiceName(cfg.sensor, accessory, e);
    if Shown(cfg.control) {
      if e.key in SubtypeSet(fam.controls) {
        assert !Missing(cfg.sensor, fam.sensors, e.key);
        DistinctRefresh(fam.controls, e.key, cname, on);
        assert r.controls == Refresh(fam.controls, e.key, cname, on) + [];
      } else {
        DistinctAppend(fam.controls, Svc(e.key, cname, None));
      }
    }
    if Shown(cfg.sensor) {
      if e.key in SubtypeSet(fam.sensors) {
        assert !Missing(cfg.control, fam.controls, e.key);
        DistinctRefresh(fam.sensors, e.key, sname, on);
        assert r.sensors == Refresh(fam.sensors, e.key, sname, on) + [];
      } else if Missing(cfg.control, fam.controls, e.key) {
        DistinctAppend(fam.sensors, Svc(e.key, sname, Some(on)));
      } else {
        DistinctAppend(fam.sensors, Svc(e.key, sname, None));
      }
    }
  }

  lemma {:induction false} ProcessKeepsAgreeing(cfg: FamilyConfig, accessory: string, fam: Family, entries: seq<Entry>)
    requires Agreeing(cfg, fam)
    ensures Agreeing(cfg, Process(cfg, accessory, fam, entries))
    decreases |entries|
  {
    if |entries| > 0 {
      StepKeepsAgreeing(cfg, accessory, fam, entries[0]);
      ProcessKeepsAgreeing(cfg, accessory, Step(cfg, accessory, fam, entries[0]).family, entries[1..]);
    }
  }

  /** Removing services never creates a duplicate. */
  lemma {:induction false} PruneDistinct(svcs: seq<Svc>, keys: seq<string>)
    requires DistinctSubtypes(svcs)
    ensures DistinctSubtypes(Prune(svcs, keys))
    decreases |svcs|
  {
    if |svcs| > 0 {
      var rest := svcs[1..];
      assert DistinctSubtypes(rest) by {
        forall i, j | 0 <= i < j < |rest| ensures rest[i].subtype != rest[j].subtype {
          assert svcs[i + 1].subtype != svcs[j + 1].subtype;
        }
      }
      PruneDistinct(rest, keys);
      if svcs[0].subtype in keys {
        var tail := Prune(rest, keys);
        assert Prune(svcs, keys) == [svcs[0]] + tail;
        forall s | s in tail ensures s.subtype != svcs[0].subtype {
          var j :| 0 <= j < |rest| && rest[j] == s;
          assert svcs[j + 1] == s;
        }
        forall i, j | 0 <= i < j < |[svcs[0]] + tail|
          ensures ([svcs[0]] + tail)[i].subtype != ([svcs[0]] + tail)[j].subtype
        {
          if i == 0 {
            assert tail[j - 1] in tail;
          } else {
            assert tail[i - 1].subtype != tail[j - 1].subtype;
          }
        }
      } else {
        assert Prune(svcs, keys) == Prune(rest, keys);
      }
    }
  }

  /**
    A whole cycle keeps the lists agreeing; so, with control display on, the
    controls after a cycle carry each current key exactly once.
   */
  lemma ReconcileKeepsAgreeing(cfg: FamilyConfig, accessory: string, fam: Family, entries: seq<Entry>)
    requires Agreeing(cfg, fam)
    ensures Agreeing(cfg, Reconcile(cfg, accessory, fam, entries))
    ensures Shown(cfg.control) ==> SubtypeSet(Reconcile(cfg, accessory, fam, entries).controls) == KeySet(entries)
  {
    var looped := Process(cfg, accessory, fam, entries);
    ProcessKeepsAgreeing(cfg, accessory, fam, entries);
    PruneDistinct(looped.controls, Keys(entries));
    PruneDistinct(looped.sensors, Keys(entries));
    PruneSubtypes(looped.controls, entries);
    PruneSubtypes(looped.sensors, entries);
  }

  /** No two entries of a snapshot list share a key. */
  predicate DistinctKeys(entries: seq<Entry>) {
    forall i, j :: 0 <= i < j < |entries| ==> entries[i].key != entries[j].key
  }

  /** Adding a key neither list has keeps the lists agreeing and adds the key to each shown list. */
  lemma AddKeepsAgreeing(cfg: FamilyConfig, accessory: string, fam: Family, e: Entry)
    requires Agreeing(cfg, fam)
    requires e.key !in SubtypeSet(fam.controls) && e.key !in SubtypeSet(fam.sensors)
    ensures var f := Add(cfg, accessory, fam, e);
      && Agreeing(cfg, f)
      && (Shown(cfg.control) ==> SubtypeSet(f.controls) == SubtypeSet(fam.controls) + {e.key})
      && (Shown(cfg.sensor) ==> SubtypeSet(f.sensors) == SubtypeSet(fam.sensors) + {e.key})
      && (!Shown(cfg.control) ==> f.controls == fam.controls)
      && (!Shown(cfg.sensor) ==> f.sensors == fam.sensors)
  {
    if Shown(cfg.control) {
      var s := Svc(e.key, ServiceName(cfg.control, accessory, e), None);
      DistinctAppend(fam.controls, s);
      AppendSubtype(fam.controls, s);
    }
    if Shown(cfg.sensor) {
      var s := Svc(e.key, ServiceName(cfg.sensor, accessory, e), None);
      DistinctAppend(fam.sensors, s);
      AppendSubtype(fam.sensors, s);
    }
  }

  /**
    `prepareAccessory` starts the lists agreeing when the first snapshot has
    no repeated key, each shown list carrying exactly the snapshot's keys.
   */
  lemma {:induction false} PrepareAgrees(cfg: FamilyConfig, accessory: string, entries: seq<Entry>)
    requires DistinctKeys(entries)
    ensures var f := Prepare(cfg, accessory, entries);
      && Agreeing(cfg, f)
      && (Shown(cfg.control) ==> SubtypeSet(f.controls) == KeySet(entries))
      && (Shown(cfg.sensor) ==> SubtypeSet(f.sensors) == KeySet(entries))
      && (!Shown(cfg.control) ==> f.controls == [])
      && (!Shown(cfg.sensor) ==> f.sensors == [])
    decreases |entries|
  {
    if |entries| == 0 {
      assert KeySet(entries) == {};
    } else {
      var init := entries[..|entries| - 1];
      var last := entries[|entries| - 1];
      assert DistinctKeys(init);
      PrepareAgrees(cfg, accessory, init);
      var before := Prepare(cfg, accessory, init);
      assert forall e :: e in init ==> e.key != last.key by {
        forall e | e in init ensures e.key != last.key {
          var i :| 0 <= i < |init| && init[i] == e;
          assert entries[i] == e;
        }
      }
      KeySetSnoc(entries);
      AddKeepsAgreeing(cfg, accessory, before, last);
    }
  }

  /**
    Without the agreement, distinct controls are not enough: a control whose
    sensor is missing gets a second control pushed beside it.
   */
  lemma DuplicateWithoutAgreement()
    ensures var cfg := FamilyConfig(Display(Num(1), Bool(false)), Display(Num(1), Bool(false)));
            var e := Entry("radio:radio0:2g", "radio0 2g", Bool(false));
            var fam := Family([Svc("radio:radio0:2g", "radio0 2g", None)], []);
            var r := Step(cfg, "Router", fam, e).family;
      && DistinctSubtypes(fam.controls)
      && |r.controls| == 2
      && r.controls[0].subtype == r.controls[1].subtype
  {
    var cfg := FamilyConfig(Display(Num(1), Bool(false)), Display(Num(1), Bool(false)));
    var e := Entry("radio:radio0:2g", "radio0 2g", Bool(false));
    var fam := Family([Svc("radio:radio0:2g", "radio0 2g", None)], []);
    assert e.key in SubtypeSet(fam.controls);
    assert Missing(cfg.sensor, fam.sensors, e.key);
  }

  /**
    An existing control whose lists agree is the one `Step` updates: its
    value becomes `!disabled` and its name the configured one.
   */
  lemma StepUpdatesExisting(cfg: FamilyConfig, accessory: string, fam: Family, e: Entry, i: nat)
    requires Agreeing(cfg, fam) && Shown(cfg.control)
    requires i < |fam.controls| && fam.controls[i].subtype == e.key
    ensures var r := Step(cfg, accessory, fam, e).family;
      && |r.controls| == |fam.controls|
      && r.controls[i] == Svc(e.key, ServiceName(cfg.control, accessory, e), Some(!Truthy(e.disabled)))
      && forall j :: 0 <= j < |r.controls| && j != i ==> r.controls[j] == fam.controls[j]
  {
    assert fam.controls[i] in fam.controls;
    var r := Step(cfg, accessory, fam, e).family;
    var refreshed := Refresh(fam.controls, e.key, ServiceName(cfg.control, accessory, e), !Truthy(e.disabled));
    assert r.controls == refreshed + [];
    var k :| 0 <= k < |fam.controls| && fam.controls[k].subtype == e.key
             && (forall j :: 0 <= j < k ==> fam.controls[j].subtype != e.key)
             && refreshed == fam.controls[k := Svc(e.key, ServiceName(cfg.control, accessory, e), Some(!Truthy(e.disabled)))];
    assert k == i;
  }

  /**
    The whole `openWrtInfo` handler keeps both families agreeing, and, when
    it runs to the end, each shown control list then carries exactly the
    snapshot's keys.
   */
  lemma OnInfoKeepsAgreeing(cfg: RouterConfig, st: RouterState, snap: Snapshot)
    requires Agreeing(cfg.radio, st.radios) && Agreeing(cfg.ssid, st.ssids)
    ensures var r := OnInfo(cfg, st, snap);
      && Agreeing(cfg.radio, r.radios)
      && Agreeing(cfg.ssid, r.ssids)
      && (snap.hasSystemInfo && Shown(cfg.radio.control) ==>
            SubtypeSet(r.radios.controls) == KeySet(RadioEntries(snap.wirelessRadios)))
      && (snap.hasSystemInfo && Shown(cfg.ssid.control) ==>
            SubtypeSet(r.ssids.controls) == KeySet(SsidEntries(snap.wirelessSsids)))
  {
    ReconcileKeepsAgreeing(cfg.radio, cfg.name, st.radios, RadioEntries(snap.wirelessRadios));
    ReconcileKeepsAgreeing(cfg.ssid, cfg.name, st.ssids, SsidEntries(snap.wirelessSsids));
  }

  /** When no two radios share a device and band, the radio getter is `!disabled` of that radio. */
  lemma RadioOnUnique(snap: Snapshot, device: string, band: string)
    requires forall i, j :: 0 <= i < j < |snap.wirelessRadios| ==>
      !(snap.wirelessRadios[i].device == snap.wirelessRadios[j].device
        && snap.wirelessRadios[i].band == snap.wirelessRadios[j].band)
    ensures RadioOn(snap, device, band) <==>
      exists i :: 0 <= i < |snap.wirelessRadios| && snap.wirelessRadios[i].device == device
        && snap.wirelessRadios[i].band == band && !Truthy(snap.wirelessRadios[i].disabled)
  {
    if exists i :: 0 <= i < |snap.wirelessRadios| && snap.wirelessRadios[i].device == device
        && snap.wirelessRadios[i].band == band && !Truthy(snap.wirelessRadios[i].disabled) {
      var i :| 0 <= i < |snap.wirelessRadios| && snap.wirelessRadios[i].device == device
        && snap.wirelessRadios[i].band == band && !Truthy(snap.wirelessRadios[i].disabled);
      assert forall j :: 0 <= j < i ==> !(snap.wirelessRadios[j].device == device && snap.wirelessRadios[j].band == band);
    }
  }

  /** A forwarded integration command reaches `send('button', …)`, which issues no router call. */
  lemma ExternalSetIssuesNoCalls(env: OpenWrt.Env, c: OpenWrt.Client, at: nat, key: string, value: Json,
                                 find: (Option<OpenWrt.Payload>, Json) -> Option<OpenWrt.IfaceRef>)
    requires ExternalSet(key, value).Forwarded?
    ensures OpenWrt.Send(env, c, at, "button", Null, Null, find) == OpenWrt.Run(c, [], Ok(()))
    ensures DispatchResult(ExternalSet(key, value)) == Undefined
  {
  }

  /** A radio control's setter reaches `send('radio', …)`, which issues no router call. */
  lemma RadioSetIssuesNoCalls(env: OpenWrt.Env, c: OpenWrt.Client, at: nat, radio: Radio, state: Json,
                              find: (Option<OpenWrt.Payload>, Json) -> Option<OpenWrt.IfaceRef>)
    ensures var a := RadioSetArgs(radio, state);
            OpenWrt.Send(env, c, at, a.kind, a.ssidName, a.state, find) == OpenWrt.Run(c, [], Ok(()))
  {
  }

  /**
    As written, switching a named SSID off writes `disabled = "0"` (on):
    the SSID name lands in `state`, and a non-empty name is truthy.
   */
  lemma SsidSetAsWrittenEnables(env: OpenWrt.Env, c: OpenWrt.Client, at: nat, ssid: Ssid,
                                find: (Option<OpenWrt.Payload>, Json) -> Option<OpenWrt.IfaceRef>)
    requires ssid.name != "" && !c.lock
    requires var a := SsidSetArgsAsWritten(ssid, Bool(false));
             OpenWrt.ToggleSsid(env, c.(lock := true), at, a.ssidName, a.state, find).out.Ok?
    ensures var a := SsidSetArgsAsWritten(ssid, Bool(false));
            var section := OpenWrt.ToggleSsid(env, c.(lock := true), at, a.ssidName, a.state, find).out.value;
            OpenWrt.ServiceCalls(OpenWrt.Send(env, c, at, a.kind, a.ssidName, a.state, find).events)
              == [OpenWrt.StatusCall, OpenWrt.SetCall(section, "0"), OpenWrt.CommitCall, OpenWrt.ReloadCall]
  {
    var a := SsidSetArgsAsWritten(ssid, Bool(false));
    OpenWrtProperties.SendSuccessSequence(env, c, at, a.ssidName, a.state, find);
  }

  /** The corrected setter writes `disabled = "1"` exactly when the requested state is falsy. */
  lemma SsidSetWritesRequest(env: OpenWrt.Env, c: OpenWrt.Client, at: nat, ssid: Ssid, state: Json,
                             find: (Option<OpenWrt.Payload>, Json) -> Option<OpenWrt.IfaceRef>)
    requires !c.lock
    requires var a := SsidSetArgs(ssid, state);
             OpenWrt.ToggleSsid(env, c.(lock := true), at, a.ssidName, a.state, find).out.Ok?
    ensures var a := SsidSetArgs(ssid, state);
            var section := OpenWrt.ToggleSsid(env, c.(lock := true), at, a.ssidName, a.state, find).out.value;
            OpenWrt.ServiceCalls(OpenWrt.Send(env, c, at, a.kind, a.ssidName, a.state, find).events)
              == [OpenWrt.StatusCall, OpenWrt.SetCall(section, if Truthy(state) then "0" else "1"),
                  OpenWrt.CommitCall, OpenWrt.ReloadCall]
  {
    var a := SsidSetArgs(ssid, state);
    OpenWrtProperties.SendSuccessSequence(env, c, at, a.ssidName, a.state, find);
  }
}
