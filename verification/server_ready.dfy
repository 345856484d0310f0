/** What each stage of a server pass records, and the resize under immediate transitions
    (internal/controller/hcloudserver_controller.go:166-206, 321-403, 466-498). */
module ServerReady {
  import opened Prelude
  import opened ServerCloud
  import opened ServerController
  import opened ServerRuns

  // ---------- the recorded status, stage by stage ----------

  lemma RefreshedRecords(h: Host, d: Did<()>, b: Beat, id: nat, st: Status, reason: Reason, stage: Stage, sc: Script)
    requires Refreshed(d, b, id, st, reason, stage, sc).end.Finished?
    ensures var o := Refreshed(d, b, id, st, reason, stage, sc);
            && o.end == Finished(stage) && o.host.server.Some?
            && o.status == st.(serverID := id, power := o.host.server.value.power, ready := Some(Ready(false, reason)))
  {
  }

  /** After a resize step, whether it waited or made a call, and after a power-on, the status
      shows the server as last seen and not ready, with the step's reason; nothing else of it
      changes. */
  lemma ResizeRecords(spec: Spec, h: Host, id: nat, st: Status, s: Server, sc: Script)
    requires h.server == Some(s)
    requires var e := ReconcileExisting(spec, h, id, st, s, sc).end; e == Finished(Resize) || e == Finished(PowerUp)
    ensures var o := ReconcileExisting(spec, h, id, st, s, sc);
            && o.host.server.Some?
            && o.status == st.(serverID := id, power := o.host.server.value.power,
                               ready := Some(Ready(false, if o.end == Finished(Resize) then Resizing else PoweringOn)))
            && (o.end == Finished(Resize) <==> Wrong(spec, s))
  {
    if Wrong(spec, s) {
      if s.power.Running? {
        RefreshedRecords(h, HostPowerOff(h, sc.beat(AtPowerOff)), sc.beat(AfterPowerOff), id, st, Resizing, Resize, sc);
      } else if s.power.Off? {
        RefreshedRecords(h, HostChangeType(h, spec.kind, spec.upgradeDisk, sc.beat(AtChange)), sc.beat(AfterChange),
                         id, st, Resizing, Resize, sc);
      }
    } else if st.appliedKind != spec.kind && s.power.Off? {
      RefreshedRecords(h, HostPowerOn(h, sc.beat(AtPowerOn)), sc.beat(AfterPowerOn), id, st, PoweringOn, PowerUp, sc);
    } else {
      LaterStages(spec, EnsureNetwork(spec, h, st, s, sc), id, sc);
    }
  }

  lemma LaterStages(spec: Spec, n: NetStep, id: nat, sc: Script)
    ensures var e := AfterNetwork(spec, n, id, sc).end;
            e.Finished? ==> e.stage.NetworkChanged? || e.stage.Blocked? || e.stage.Synced?
  {
  }

  /** The reason that a pass that changed the network gives. */
  lemma NetworkRecords(spec: Spec, h: Host, id: nat, st: Status, s: Server, sc: Script)
    requires h.server == Some(s) && Steady(sc)
    requires ReconcileExisting(spec, h, id, st, s, sc).end == Finished(NetworkChanged)
    ensures var o := ReconcileExisting(spec, h, id, st, s, sc);
            && o.host.server.Some? && o.status.serverID == id && o.status.power == o.host.server.value.power
            && o.status.appliedKind == st.appliedKind && o.status.appliedPG == st.appliedPG
            && match spec.net
               case NoRef => o.status.appliedNet == 0 && o.status.ready == Some(Ready(true, NetworkDetached))
               case Broken => false
               case Refers(n) =>
                 && o.status.appliedNet == n
                 && o.status.ready == Some(Ready(true, if st.appliedNet == 0 || st.appliedNet == n
                                                       then NetworkAttached else NetworkMigrated))
  {
    NotEarlier(spec, h, id, st, s, sc);
    NetworkStepRecords(spec, h, st, s, sc);
  }

  /** A pass that ends in one of the later stages went through the network step. */
  lemma NotEarlier(spec: Spec, h: Host, id: nat, st: Status, s: Server, sc: Script)
    requires h.server == Some(s)
    requires var e := ReconcileExisting(spec, h, id, st, s, sc).end;
             e.Finished? && !e.stage.Resize? && !e.stage.PowerUp?
    ensures !Wrong(spec, s)
    ensures ReconcileExisting(spec, h, id, st, s, sc) == AfterNetwork(spec, EnsureNetwork(spec, h, st, s, sc), id, sc)
  {
  }

  lemma NetworkStepRecords(spec: Spec, h: Host, st: Status, s: Server, sc: Script)
    requires h.server == Some(s) && Steady(sc) && EnsureNetwork(spec, h, st, s, sc).reply == Got(true)
    ensures var n := EnsureNetwork(spec, h, st, s, sc);
            && Some(n.s) == n.host.server && !spec.net.Broken?
            && n.status == st.(appliedNet := if spec.net.NoRef? then 0 else spec.net.id,
                               ready := Some(Ready(true, if spec.net.NoRef? then NetworkDetached
                                                         else if st.appliedNet == 0 || st.appliedNet == spec.net.id
                                                         then NetworkAttached else NetworkMigrated)))
  {
    if st.appliedNet != 0 { DropFacts(h, st, s, sc); }
    if spec.net.Refers? {
      if Leaves(spec, st) {
        var d := DropNetwork(h, st, s, sc);
        if d.reply.Got? { JoinFacts(d.host, d.status, d.s, spec.net.id, true, sc); }
      } else {
        JoinFacts(h, st, s, spec.net.id, false, sc);
      }
    }
  }

  /** A server outside its placement group: the group it is in is recorded, Ready is false, and
      the rest is left as the network step has it. */
  lemma BlockedRecords(spec: Spec, h: Host, id: nat, st: Status, s: Server, sc: Script)
    requires h.server == Some(s) && Steady(sc)
    requires ReconcileExisting(spec, h, id, st, s, sc).end == Finished(Blocked)
    ensures var o := ReconcileExisting(spec, h, id, st, s, sc);
            && o.host.server.Some?
            && spec.pg.Refers? && spec.pg.id != o.host.server.value.pg
            && o.status.appliedPG == o.host.server.value.pg
            && o.status.ready == Some(Ready(false, PlacementGroupMismatch))
            && o.status.serverID == st.serverID && o.status.power == st.power && o.status.appliedKind == st.appliedKind
  {
    NotEarlier(spec, h, id, st, s, sc);
    var made := EnsureFacts(spec, h, st, s, sc);
    NetworkStepKeeps(spec, h, st, s, sc);
  }

  lemma NetworkStepKeeps(spec: Spec, h: Host, st: Status, s: Server, sc: Script)
    ensures var n := EnsureNetwork(spec, h, st, s, sc).status;
            n == st.(appliedNet := n.appliedNet, ready := n.ready)
  {
  }

  predicate ReadyWith(st: Status, reason: Reason) { st.ready == Some(Ready(true, reason)) }

  /** What the network step says of a target that was attached already: the note of an earlier
      pass stays if it was about this attachment; after leaving another network it is the
      migration, and otherwise the attachment. */
  function NoteFor(net: nat, st: Status): Ready {
    var reason := if st.ready.Some? then Some(st.ready.value.reason) else None;
    var migrated := st.appliedNet != 0 && st.appliedNet != net;
    if reason == Some(NetworkMigrated) || (!migrated && reason == Some(NetworkAttached)) then st.ready.value
    else Ready(true, if migrated then NetworkMigrated else NetworkAttached)
  }

  /** The status sync records the server as last seen with its group; the recorded type follows
      exactly when the server runs as wanted.  A server that does not is "not ready"; that a
      resize is pending is never the reason, since a wrong type does not get this far.  One that
      does is ready for the network's reason, if the network step or an earlier pass left one,
      and otherwise because it is running. */
  lemma SyncRecords(spec: Spec, h: Host, id: nat, st: Status, s: Server, sc: Script)
    requires h.server == Some(s) && Steady(sc)
    requires ReconcileExisting(spec, h, id, st, s, sc).end == Finished(Synced)
    ensures var o := ReconcileExisting(spec, h, id, st, s, sc);
            && o.host.server.Some? && o.status.serverID == id
            && var t := o.host.server.value;
            && o.status.appliedPG == t.pg && (spec.pg.Refers? ==> spec.pg.id == t.pg)
            && var done := t.kind == spec.kind && o.status.power.Running?;
            && o.status.appliedKind == (if done then spec.kind else st.appliedKind)
            && (!done ==> o.status.ready == Some(Ready(false, ServerNotReady)))
            && (done && spec.net.NoRef? ==>
                  if st.ready.Some? && st.ready.value.yes && NetworkReason(st.ready.value.reason)
                  then o.status.ready == st.ready else ReadyWith(o.status, ServerRunning))
            && (done && spec.net.Refers? ==>
                  if NoteFor(spec.net.id, st).yes
                  then o.status.ready == Some(NoteFor(spec.net.id, st)) else ReadyWith(o.status, ServerRunning))
  {
    NotEarlier(spec, h, id, st, s, sc);
    var made := EnsureFacts(spec, h, st, s, sc);
    NetworkStepKeeps(spec, h, st, s, sc);
    NetworkStepNotes(spec, h, st, s, sc);
    SettleRecords(spec, EnsureNetwork(spec, h, st, s, sc), id, sc);
  }

  lemma SettleRecords(spec: Spec, n: NetStep, id: nat, sc: Script)
    requires AfterNetwork(spec, n, id, sc).end == Finished(Synced) && !Wrong(spec, n.s)
    ensures var o, done := AfterNetwork(spec, n, id, sc), n.s.kind == spec.kind && n.s.power.Running?;
            && n.reply == Got(false) && o.host == n.host
            && o.status.serverID == id && o.status.power == n.s.power && o.status.appliedPG == n.s.pg
            && (spec.pg.Refers? ==> spec.pg.id == n.s.pg)
            && o.status.appliedKind == (if done then spec.kind else n.status.appliedKind)
            && (!done ==> o.status.ready == Some(Ready(false, ServerNotReady)))
            && (done ==> var r := n.status.ready;
                  if r.Some? && r.value.yes && NetworkReason(r.value.reason)
                  then o.status.ready == r else ReadyWith(o.status, ServerRunning))
  {
  }

  /** The sync on its own would call a running server of another type pending. */
  lemma PendingIsSynced(spec: Spec, id: nat, st: Status, s: Server)
    requires Wrong(spec, s) && s.power.Running?
    ensures SyncStatus(spec, id, st, s)
            == st.(serverID := id, power := Running, ready := Some(Ready(false, ResizePending)))
  {
  }

  /** A network step that leaves the network as it is notes why the server is ready. */
  lemma NetworkStepNotes(spec: Spec, h: Host, st: Status, s: Server, sc: Script)
    requires h.server == Some(s) && Steady(sc) && EnsureNetwork(spec, h, st, s, sc).reply == Got(false)
    ensures var n := EnsureNetwork(spec, h, st, s, sc);
            && (spec.net.NoRef? ==> n.status.ready == st.ready)
            && (spec.net.Refers? ==> n.status.ready == Some(NoteFor(spec.net.id, st)))
  {
    if spec.net.Refers? && Leaves(spec, st) {
      DropFacts(h, st, s, sc);
      var d := DropNetwork(h, st, s, sc);
      if d.reply.Got? { JoinFacts(d.host, d.status, d.s, spec.net.id, true, sc); }
    }
  }

  /** Whether the status write works decides how a pass ends and nothing else. */
  ghost predicate OnlyTheEnd(o: Outcome, p: Outcome) {
    && o.host == p.host && o.status == p.status && !p.end.Finished?
    && (o.end.Finished? ==> p.end == Errored(StatusWrite)) && (!o.end.Finished? ==> p.end == o.end)
  }

  lemma RefreshedWrites(d: Did<()>, b: Beat, id: nat, st: Status, reason: Reason, stage: Stage, sc: Script)
    ensures OnlyTheEnd(Refreshed(d, b, id, st, reason, stage, sc.(writes := true)),
                       Refreshed(d, b, id, st, reason, stage, sc.(writes := false)))
  {
  }

  lemma AfterNetworkWrites(spec: Spec, n: NetStep, id: nat, sc: Script)
    ensures OnlyTheEnd(AfterNetwork(spec, n, id, sc.(writes := true)), AfterNetwork(spec, n, id, sc.(writes := false)))
  {
  }

  lemma NetworkIgnoresWrites(spec: Spec, h: Host, st: Status, s: Server, sc: Script)
    ensures EnsureNetwork(spec, h, st, s, sc.(writes := true)) == EnsureNetwork(spec, h, st, s, sc.(writes := false))
  {
  }

  lemma WritesDecideTheEnd(spec: Spec, h: Host, id: nat, st: Status, s: Server, sc: Script)
    ensures OnlyTheEnd(ReconcileExisting(spec, h, id, st, s, sc.(writes := true)),
                       ReconcileExisting(spec, h, id, st, s, sc.(writes := false)))
  {
    if Wrong(spec, s) {
      RefreshedWrites(HostPowerOff(h, sc.beat(AtPowerOff)), sc.beat(AfterPowerOff), id, st, Resizing, Resize, sc);
      RefreshedWrites(HostChangeType(h, spec.kind, spec.upgradeDisk, sc.beat(AtChange)), sc.beat(AfterChange),
                      id, st, Resizing, Resize, sc);
    } else if st.appliedKind != spec.kind && s.power.Off? {
      RefreshedWrites(HostPowerOn(h, sc.beat(AtPowerOn)), sc.beat(AfterPowerOn), id, st, PoweringOn, PowerUp, sc);
    } else {
      NetworkIgnoresWrites(spec, h, st, s, sc);
      AfterNetworkWrites(spec, EnsureNetwork(spec, h, st, s, sc.(writes := true)), id, sc);
    }
  }

  /** A network step that fails gives no new reason for being ready. */
  lemma FailedStepNotesNothing(spec: Spec, h: Host, st: Status, s: Server, sc: Script)
    requires EnsureNetwork(spec, h, st, s, sc).reply.Failed?
    ensures var n := EnsureNetwork(spec, h, st, s, sc);
            n.status == st || (Leaves(spec, st) && n.status == st.(appliedNet := 0))
  {
  }

  /** A pass that fails before its status write changes the recorded network and the Ready note
      at most. */
  lemma FailuresRecordNothing(spec: Spec, h: Host, id: nat, st: Status, s: Server, sc: Script)
    requires !ReconcileExisting(spec, h, id, st, s, sc).end.Finished?
    requires ReconcileExisting(spec, h, id, st, s, sc).end != Errored(StatusWrite)
    ensures var o := ReconcileExisting(spec, h, id, st, s, sc);
            && o.status == st.(appliedNet := o.status.appliedNet, ready := o.status.ready)
            && (Wrong(spec, s) || (st.appliedKind != spec.kind && s.power.Off?) ==> o.status == st)
  {
    if !Wrong(spec, s) { NetworkStepKeeps(spec, h, st, s, sc); }
  }

  /** A type change of a server that is being deleted, or in a state the controller does not know,
      is an error before any call; nothing else is that error. */
  lemma UnsupportedIff(spec: Spec, h: Host, id: nat, st: Status, s: Server, sc: Script)
    ensures var o := ReconcileExisting(spec, h, id, st, s, sc);
            && (o.end == Errored(UnsupportedState) <==> Wrong(spec, s) && (s.power.Deleting? || s.power.Unknown?))
            && (o.end == Errored(UnsupportedState) ==> o.host == h && o.status == st)
  {
    if !Wrong(spec, s) { NetworkNeverUnsupported(spec, h, st, s, sc); }
  }

  lemma NetworkNeverUnsupported(spec: Spec, h: Host, st: Status, s: Server, sc: Script)
    ensures EnsureNetwork(spec, h, st, s, sc).reply != Failed(UnsupportedState)
  {
  }

  // ---------- immediate transitions ----------

  /** Every call is answered at once and power changes take no time, as in the in-memory cloud. */
  ghost predicate Immediate(sc: Script) { sc.writes && forall site :: sc.beat(site) == Beat(Still, Works, false) }

  /** Then a resize takes three passes: off, changed, running again, each recorded as such. */
  lemma ImmediateResize(w: World, sc: Script)
    requires Immediate(sc) && Steady(sc)
    requires w.host.server.Some? && w.host.server.value.power.Running? && Wrong(w.spec, w.host.server.value)
    requires w.stored.appliedKind != w.spec.kind
    ensures var s := w.host.server.value;
            var x := Step(w, Passed(sc, true));
            var y := Step(x, Passed(sc, true));
            var z := Step(y, Passed(sc, true));
            && x.host == w.host.(server := Some(s.(power := Off)), log := w.host.log + [PowerOff])
            && y.host == x.host.(server := Some(s.(power := Off, kind := w.spec.kind)),
                                 log := x.host.log + [ChangeType(w.spec.kind, w.spec.upgradeDisk)])
            && z.host == y.host.(server := Some(s.(power := Running, kind := w.spec.kind)),
                                 log := y.host.log + [PowerOn])
            && x.stored.ready == y.stored.ready == Some(Ready(false, Resizing))
            && x.stored.power == y.stored.power == Off
            && z.stored.ready == Some(Ready(false, PoweringOn)) && z.stored.power == Running
            && z.stored.appliedKind == w.stored.appliedKind
  {
    ImmediateStep(w, sc);
    var x := Step(w, Passed(sc, true));
    ImmediateStep(x, sc);
    ImmediateStep(Step(x, Passed(sc, true)), sc);
  }

  lemma ImmediateStep(w: World, sc: Script)
    requires Immediate(sc) && Steady(sc) && w.host.server.Some?
    requires Wrong(w.spec, w.host.server.value) || w.stored.appliedKind != w.spec.kind
    ensures var s, w' := w.host.server.value, Step(w, Passed(sc, true));
            && w'.host.networks == w.host.networks && w'.spec == w.spec
            && (Wrong(w.spec, s) && s.power.Running? ==>
                  Recorded(w, w', s.(power := Off), PowerOff, Resizing))
            && (Wrong(w.spec, s) && s.power.Off? ==>
                  Recorded(w, w', s.(kind := w.spec.kind), ChangeType(w.spec.kind, w.spec.upgradeDisk), Resizing))
            && (!Wrong(w.spec, s) && s.power.Off? ==>
                  Recorded(w, w', s.(power := Running), PowerOn, PoweringOn))
  {
    assert sc.beat(AtFetch) == Beat(Still, Works, false);
    assert sc.beat(AtPowerOff) == sc.beat(AfterPowerOff) == Beat(Still, Works, false);
    assert sc.beat(AtChange) == sc.beat(AfterChange) == Beat(Still, Works, false);
    assert sc.beat(AtPowerOn) == sc.beat(AfterPowerOn) == Beat(Still, Works, false);
    if !Wrong(w.spec, w.host.server.value) && !w.host.server.value.power.Off? {
      var made := PassFacts(w, sc);
    }
  }

  ghost predicate Recorded(w: World, w': World, t: Server, c: Call, reason: Reason) {
    && w'.host == w.host.(server := Some(t), log := w.host.log + [c])
    && w'.stored == w.stored.(serverID := w.id, power := t.power, ready := Some(Ready(false, reason)))
  }
}
