/** A recovery pass is itself a run of known steps: every world between two of them is reachable, so a crash anywhere inside
    the pass, and everything the service does after it, is covered by what holds of all runs. */
module Restarts {
  import opened Domain
  import opened Vaults
  import opened Ledgers
  import opened Engines
  import opened Coupling
  import opened Runs
  import opened Safety
  import opened Recovery
  import opened Convergence

  /** The steps recovery takes for one dump; a step that finds its work done refuses and changes nothing. */
  function RecoverySteps(d: Dump, id: DumpId, at: Time): seq<Act> {
    match d.phase
    case Receiving => [DropStaging(id), Run(FailUpload(id), at)]
    case Sealed =>
      (if d.blob == InStaging then [Run(PromoteObject(id), at)] else []) +
      [Run(MarkQuarantined(id), at), Run(AcceptDump(id), at), Run(RejectDump(id), at)]
    case Quarantined => [Run(AcceptDump(id), at), Run(RejectDump(id), at)]
    case Deleting => [Run(FinishPurge(id), at)]
    case _ => []
  }

  /** The steps for the rows of a snapshot, dump by dump. */
  function PassSteps(snapshot: map<DumpId, Dump>, ids: seq<DumpId>, at: Time): seq<Act>
    requires forall id :: id in ids ==> id in snapshot
  {
    if ids == [] then [] else RecoverySteps(snapshot[ids[0]], ids[0], at) + PassSteps(snapshot, ids[1..], at)
  }

  /** The steps of the orphan sweep. */
  function SweepSteps(v: Vault, ids: seq<DumpId>, known: set<DumpId>, now: int, grace: int): seq<Act>
    decreases |ids|
  {
    if ids == [] then []
    else
      (if Doomed(v, ids[0], known, now, grace) then [DropStaging(ids[0])] else []) +
      SweepSteps(SweepOne(v, ids[0], known, now, grace).0, ids[1..], known, now, grace)
  }

  function ReconcileSteps(s: Store, at: Time, now: int, grace: int): seq<Act> {
    SweepSteps(s.vault, SortedIds(s.vault.staging.Keys), s.ledger.dumps.Keys, now, grace) +
    PassSteps(s.ledger.dumps, SortedIds(s.ledger.dumps.Keys), at)
  }

  /** Where steps lead. */
  function After(ports: Ports, w: World, acts: seq<Act>): World
    decreases |acts|
  {
    if acts == [] then w else After(ports, acts[0].Next(ports, w), acts[1..])
  }

  lemma ReachesStep(ports: Ports, w: World, act: Act, rest: seq<Act>, end: World)
    requires act.Enabled(w) && Reaches(ports, act.Next(ports, w), rest, end)
    ensures Reaches(ports, w, [act] + rest, end)
  {
    assert ([act] + rest)[1..] == rest;
  }

  lemma {:induction false} ReachesJoin(ports: Ports, w: World, first: seq<Act>, mid: World, second: seq<Act>, end: World)
    requires Reaches(ports, w, first, mid) && Reaches(ports, mid, second, end)
    ensures Reaches(ports, w, first + second, end)
    decreases |first|
  {
    if first == [] {
      assert first + second == second;
    } else {
      ReachesJoin(ports, first[0].Next(ports, w), first[1..], mid, second, end);
      ReachesStep(ports, w, first[0], first[1..] + second, end);
      assert [first[0]] + (first[1..] + second) == first + second;
    }
  }

  function Holding(w: World, s: Store): World {
    w.(store := s)
  }

  /** A dump that was accepted can no longer be rejected, so recovery may as well always try both. */
  lemma BothInspections(ports: Ports, s: Store, id: DumpId, at: Time)
    requires Coupled(ports, s) && id in s.ledger.dumps && s.ledger.dumps[id].phase == Quarantined
    ensures var r := AcceptOrReject(ports, s, id, at);
            r.Recovered? && r.store == s.AcceptDump(ports, id, at).0.RejectDump(ports, id, at).0
  {
    assert RowCoupled(ports, s.ledger.dumps[id], s.vault, id);
    match s.Inspected(ports, id)
    case Sound(coverage, facts) => assert s.ledger.TransitionDump(id, AcceptEdge(coverage, facts), at).Ok?;
    case Unsound(reason) => assert s.ledger.TransitionDump(id, RejectEdge(reason), at).Ok?;
  }

  lemma TwoSteps(ports: Ports, w: World, first: Command, second: Command, at: Time)
    requires Run(first, at).Enabled(w) && Run(second, at).Enabled(w) && !second.ImportAuditEvent?
    ensures Reaches(ports, w, [Run(first, at), Run(second, at)],
                    Holding(w, w.store.Execute(ports, first, at).0.Execute(ports, second, at).0))
  {
    hide Store.Execute;
    var mid := Run(first, at).Next(ports, w);
    var end := Run(second, at).Next(ports, mid);
    ReachesStep(ports, mid, Run(second, at), [], end);
    ReachesStep(ports, w, Run(first, at), [Run(second, at)], end);
    assert [Run(first, at)] + [Run(second, at)] == [Run(first, at), Run(second, at)];
  }

  lemma InspectionIsRun(ports: Ports, w: World, id: DumpId, at: Time)
    requires Coupled(ports, w.store) && id in w.store.ledger.dumps && w.store.ledger.dumps[id].phase == Quarantined
    ensures var r := AcceptOrReject(ports, w.store, id, at);
            r.Recovered? && Reaches(ports, w, [Run(AcceptDump(id), at), Run(RejectDump(id), at)], Holding(w, r.store))
  {
    hide AcceptOrReject, Store.AcceptDump, Store.RejectDump, Coupled;
    BothInspections(ports, w.store, id, at);
    TwoSteps(ports, w, AcceptDump(id), RejectDump(id), at);
  }

  lemma MarkResumes(ports: Ports, s: Store, id: DumpId, at: Time)
    requires Coupled(ports, s) && id in s.ledger.dumps && s.ledger.dumps[id].phase == Sealed && s.ledger.dumps[id].blob == InVault
    ensures var (marked, m) := s.MarkQuarantined(id, at);
            && m == Done && Coupled(ports, marked)
            && id in marked.ledger.dumps && marked.ledger.dumps[id].phase == Quarantined
  {
    assert RowCoupled(ports, s.ledger.dumps[id], s.vault, id);
    assert s.ledger.TransitionDump(id, QuarantinedEdge, at).Ok?;
    QuarantineKeepsCoupled(ports, s, id, at);
  }

  lemma ResumeIsRun(ports: Ports, w: World, id: DumpId, at: Time)
    requires Coupled(ports, w.store) && id in w.store.ledger.dumps
    requires w.store.ledger.dumps[id].phase == Sealed && w.store.ledger.dumps[id].blob == InVault
    ensures var r := ResumeSealed(ports, w.store, id, at);
            r.Recovered? && Reaches(ports, w, [Run(MarkQuarantined(id), at), Run(AcceptDump(id), at), Run(RejectDump(id), at)], Holding(w, r.store))
  {
    hide AcceptOrReject, Store.MarkQuarantined, Coupled;
    MarkResumes(ports, w.store, id, at);
    var marked := Holding(w, w.store.MarkQuarantined(id, at).0);
    InspectionIsRun(ports, marked, id, at);
    var r := AcceptOrReject(ports, marked.store, id, at);
    ReachesStep(ports, w, Run(MarkQuarantined(id), at), [Run(AcceptDump(id), at), Run(RejectDump(id), at)], Holding(w, r.store));
    assert [Run(MarkQuarantined(id), at)] + [Run(AcceptDump(id), at), Run(RejectDump(id), at)]
        == [Run(MarkQuarantined(id), at), Run(AcceptDump(id), at), Run(RejectDump(id), at)];
  }

  lemma PromoteResumes(ports: Ports, s: Store, id: DumpId, at: Time)
    requires Coupled(ports, s) && id in s.ledger.dumps && s.ledger.dumps[id].phase == Sealed && s.ledger.dumps[id].blob == InStaging
    ensures (id in s.vault.staging) != (id in s.vault.objects)
    ensures var (promoted, p) := s.PromoteObject(id, at);
            && p == Done && Coupled(ports, promoted) && id in promoted.ledger.dumps
            && promoted.ledger.dumps[id].phase == Sealed && promoted.ledger.dumps[id].blob == InVault
  {
    assert RowCoupled(ports, s.ledger.dumps[id], s.vault, id);
    assert s.vault.Promote(id).Ok? && s.ledger.TransitionDump(id, PromotedEdge, at).Ok?;
    PromoteKeepsCoupled(ports, s, id, at);
  }

  lemma SealedIsRun(ports: Ports, w: World, id: DumpId, at: Time)
    requires Coupled(ports, w.store) && id in w.store.ledger.dumps && w.store.ledger.dumps[id].phase == Sealed
    ensures var r := RecoverDump(ports, w.store, id, w.store.ledger.dumps[id], at);
            r.Recovered? && Reaches(ports, w, RecoverySteps(w.store.ledger.dumps[id], id, at), Holding(w, r.store))
  {
    hide ResumeSealed, Store.PromoteObject, Coupled;
    var d := w.store.ledger.dumps[id];
    var resume := [Run(MarkQuarantined(id), at), Run(AcceptDump(id), at), Run(RejectDump(id), at)];
    if d.blob == InStaging {
      PromoteResumes(ports, w.store, id, at);
      var promoted := Holding(w, w.store.PromoteObject(id, at).0);
      ResumeIsRun(ports, promoted, id, at);
      var r := ResumeSealed(ports, promoted.store, id, at);
      ReachesStep(ports, w, Run(PromoteObject(id), at), resume, Holding(w, r.store));
      assert RecoverySteps(d, id, at) == [Run(PromoteObject(id), at)] + resume;
    } else {
      SealedInVault(ports, w.store, id);
      ResumeIsRun(ports, w, id, at);
      assert RecoverySteps(d, id, at) == resume;
    }
  }

  lemma SealedInVault(ports: Ports, s: Store, id: DumpId)
    requires Coupled(ports, s) && id in s.ledger.dumps && s.ledger.dumps[id].phase == Sealed && s.ledger.dumps[id].blob != InStaging
    ensures s.ledger.dumps[id].blob == InVault && id in s.vault.objects && id !in s.vault.staging
  {
    assert RowCoupled(ports, s.ledger.dumps[id], s.vault, id);
  }

  lemma ReceivingIsRun(ports: Ports, w: World, id: DumpId, at: Time)
    requires Coupled(ports, w.store) && id in w.store.ledger.dumps && w.store.ledger.dumps[id].phase == Receiving
    requires w.sessions == map[]
    ensures var r := RecoverDump(ports, w.store, id, w.store.ledger.dumps[id], at);
            r.Recovered? && Reaches(ports, w, RecoverySteps(w.store.ledger.dumps[id], id, at), Holding(w, r.store))
  {
    assert w.store.ledger.TransitionDump(id, FailEdge, at).Ok?;
    var dropped := DropStaging(id).Next(ports, w);
    var failed := Holding(w, dropped.store.FailUpload(id, at).0);
    ReachesStep(ports, dropped, Run(FailUpload(id), at), [], failed);
    ReachesStep(ports, w, DropStaging(id), [Run(FailUpload(id), at)], failed);
    assert [DropStaging(id)] + [Run(FailUpload(id), at)] == [DropStaging(id), Run(FailUpload(id), at)];
  }

  lemma RowIsRun(ports: Ports, w: World, id: DumpId, at: Time)
    requires Coupled(ports, w.store) && id in w.store.ledger.dumps && w.sessions == map[]
    ensures var r := RecoverDump(ports, w.store, id, w.store.ledger.dumps[id], at);
            r.Recovered? && Reaches(ports, w, RecoverySteps(w.store.ledger.dumps[id], id, at), Holding(w, r.store))
  {
    var d := w.store.ledger.dumps[id];
    assert RowCoupled(ports, d, w.store.vault, id);
    match d.phase
    case Receiving => ReceivingIsRun(ports, w, id, at);
    case Sealed => SealedIsRun(ports, w, id, at);
    case Quarantined => InspectionIsRun(ports, w, id, at);
    case Deleting =>
      assert w.store.ledger.TransitionDump(id, FinishPurgeEdge, at).Ok?;
      var finished := Holding(w, w.store.FinishPurge(id, at).0);
      ReachesStep(ports, w, Run(FinishPurge(id), at), [], finished);
    case _ =>
  }

  lemma {:induction false} PassIsRun(ports: Ports, w: World, ids: seq<DumpId>, snapshot: map<DumpId, Dump>, at: Time)
    requires Inv(ports, w) && w.sessions == map[] && StrictlyAscending(ids)
    requires forall id :: id in ids ==> id in snapshot && id in w.store.ledger.dumps && snapshot[id] == w.store.ledger.dumps[id]
    requires forall id :: id in ids && id in w.store.vault.staging ==> !w.store.vault.staging[id].open
    ensures Reaches(ports, w, PassSteps(snapshot, ids, at), Holding(w, RecoverDumps(ports, w.store, ids, snapshot, at).store))
    decreases |ids|
  {
    hide RecoverDump, RecoverySteps, Coupled, SessionOwns, WithinGrant, Recoverable;
    if ids != [] {
      var id := ids[0];
      assert id in ids;
      RowIsRun(ports, w, id, at);
      var first := RecoverySteps(w.store.ledger.dumps[id], id, at);
      var r := RecoverDump(ports, w.store, id, w.store.ledger.dumps[id], at);
      var t := Holding(w, r.store);
      RunKeepsInv(ports, w, first, t);
      CoupledRecoverable(ports, w.store, id);
      RowPasses(ports, w.store, id, at);
      forall x | x in ids[1..] ensures x in snapshot && x in t.store.ledger.dumps && snapshot[x] == t.store.ledger.dumps[x]
        ensures x in t.store.vault.staging ==> !t.store.vault.staging[x].open
      {
        assert x in ids && x != id;
      }
      PassIsRun(ports, t, ids[1..], snapshot, at);
      ReachesJoin(ports, w, first, t, PassSteps(snapshot, ids[1..], at), Holding(t, RecoverDumps(ports, t.store, ids[1..], snapshot, at).store));
    }
  }

  lemma CoupledRecoverable(ports: Ports, s: Store, id: DumpId)
    requires Coupled(ports, s) && id in s.ledger.dumps
    requires s.ledger.dumps[id].phase == Receiving ==> id in s.vault.staging ==> !s.vault.staging[id].open
    ensures Recoverable(ports, s, id)
  {
    assert RowCoupled(ports, s.ledger.dumps[id], s.vault, id);
  }

  lemma {:induction false} SweepIsRun(ports: Ports, w: World, ids: seq<DumpId>, now: int, grace: int)
    requires w.sessions == map[]
    ensures var known := w.store.ledger.dumps.Keys;
            Reaches(ports, w, SweepSteps(w.store.vault, ids, known, now, grace),
                    Holding(w, w.store.(vault := RemoveOrphans(w.store.vault, ids, known, now, grace).0)))
    decreases |ids|
  {
    if ids == [] {
      assert Holding(w, w.store.(vault := w.store.vault)) == w;
    } else {
      var known := w.store.ledger.dumps.Keys;
      var (swept, _) := SweepOne(w.store.vault, ids[0], known, now, grace);
      var t := Holding(w, w.store.(vault := swept));
      SweepIsRun(ports, t, ids[1..], now, grace);
      if Doomed(w.store.vault, ids[0], known, now, grace) {
        ReachesStep(ports, w, DropStaging(ids[0]), SweepSteps(swept, ids[1..], known, now, grace),
                    Holding(t, t.store.(vault := RemoveOrphans(swept, ids[1..], known, now, grace).0)));
      } else {
        assert t == w;
        assert SweepSteps(w.store.vault, ids, known, now, grace) == SweepSteps(swept, ids[1..], known, now, grace);
      }
    }
  }

  /** A run passes through every world its steps lead to, each step being enabled where it is taken. */
  lemma {:induction false} ReachesPrefix(ports: Ports, w: World, acts: seq<Act>, end: World, k: nat)
    requires Reaches(ports, w, acts, end) && k <= |acts|
    ensures Reaches(ports, w, acts[..k], After(ports, w, acts[..k]))
    ensures After(ports, w, acts) == end
    ensures k < |acts| ==> acts[k].Enabled(After(ports, w, acts[..k]))
    decreases |acts|
  {
    if acts != [] {
      var next := acts[0].Next(ports, w);
      if k == 0 {
        ReachesPrefix(ports, next, acts[1..], end, 0);
        assert acts[..0] == [] && After(ports, w, []) == w && Reaches(ports, w, [], w);
      } else {
        ReachesPrefix(ports, next, acts[1..], end, k - 1);
        assert acts[..k] == [acts[0]] + acts[1..][..k - 1];
        assert acts[..k][1..] == acts[1..][..k - 1];
        ReachesStep(ports, w, acts[0], acts[1..][..k - 1], After(ports, next, acts[1..][..k - 1]));
      }
    }
  }

  lemma ReachesReachable(ports: Ports, w: World, acts: seq<Act>, end: World)
    requires Reachable(ports, w) && Reaches(ports, w, acts, end)
    ensures Reachable(ports, end)
  {
    var origin, before :| Reaches(ports, EmptyWorld(origin), before, w);
    ReachesJoin(ports, EmptyWorld(origin), before, w, acts, end);
  }

  /** The whole pass, step by step. */
  lemma ReconcileIsRun(ports: Ports, w: World, at: Time, now: int, grace: int)
    requires Reachable(ports, w)
    ensures var r := Restart(w);
            && Reachable(ports, r)
            && Reaches(ports, r, ReconcileSteps(r.store, at, now, grace), Holding(r, Reconcile(ports, r.store, at, now, grace).store))
  {
    hide Inv, RecoverDumps, RemoveOrphans, Reconcile, Coupled, RecoverDump, Reaches;
    CutReaches(ports, w, Crash);
    ReachesReachable(ports, w, [Crash], Restart(w));
    var r := Restart(w);
    var known := r.store.ledger.dumps.Keys;
    SweepIsRun(ports, r, SortedIds(r.store.vault.staging.Keys), now, grace);
    var orphans := SweepSteps(r.store.vault, SortedIds(r.store.vault.staging.Keys), known, now, grace);
    var swept := Holding(r, Swept(r.store, now, grace));
    ReachesReachable(ports, r, orphans, swept);
    ReachableInv(ports, swept);
    SweepIsExact(r.store.vault, SortedIds(r.store.vault.staging.Keys), known, now, grace);
    PassIsRun(ports, swept, SortedIds(known), r.store.ledger.dumps, at);
    ReconcileShape(ports, r.store, at, now, grace);
    ReachesJoin(ports, r, orphans, swept, PassSteps(r.store.ledger.dumps, SortedIds(known), at),
                Holding(r, Reconcile(ports, r.store, at, now, grace).store));
  }

  /** The service that comes up after recovery is again in a reachable world: whatever holds of all runs keeps holding
      across any number of crashes and recoveries. */
  lemma RecoveredIsReachable(ports: Ports, w: World, at: Time, now: int, grace: int)
    requires Reachable(ports, w)
    ensures Reachable(ports, Holding(Restart(w), Reconcile(ports, Restart(w).store, at, now, grace).store))
  {
    hide Reachable, Reaches, Reconcile, ReconcileSteps;
    ReconcileIsRun(ports, w, at, now, grace);
    var r := Restart(w);
    ReachesReachable(ports, r, ReconcileSteps(r.store, at, now, grace), Holding(r, Reconcile(ports, r.store, at, now, grace).store));
  }

  /** What a crash after `k` steps leaves, or, with a half-done vault, one inside the command after them. */
  function Interrupted(ports: Ports, w: World, steps: seq<Act>, k: nat, half: Option<Vault>): World
    requires k <= |steps| && (half.Some? ==> k < |steps| && steps[k].Run?)
  {
    var mid := After(ports, w, steps[..k]);
    if half.None? then Restart(mid) else CrashIn(steps[k].command, steps[k].at, half.value).Next(ports, mid)
  }

  /** A recovery pass may itself be cut short, after any of its steps or inside any of its commands: the world is still
      reachable, and the next pass, at whatever time, settles every dump without an alarm and leaves the one after it nothing to do. */
  lemma InterruptedRecoveryConverges(ports: Ports, w: World, at: Time, now: int, grace: int, k: nat, half: Option<Vault>,
                                     later: Time, nowLater: int, graceLater: int, again: Time)
    requires Reachable(ports, w) && k <= |ReconcileSteps(Restart(w).store, at, now, grace)|
    requires var steps := ReconcileSteps(Restart(w).store, at, now, grace);
             half.Some? ==> k < |steps| && steps[k].Run? &&
                            half.value in After(ports, Restart(w), steps[..k]).store.HalfDone(steps[k].command, steps[k].at)
    ensures var dead := Interrupted(ports, Restart(w), ReconcileSteps(Restart(w).store, at, now, grace), k, half);
            && Reachable(ports, dead)
            && var pass := Reconcile(ports, Restart(dead).store, later, nowLater, graceLater);
               && !pass.thrown && NoAlarm(pass.actions) && pass.store.ledger.dumps.Keys == dead.store.ledger.dumps.Keys
               && (forall id :: id in pass.store.ledger.dumps ==> SettledRow(ports, pass.store, id))
               && Reconcile(ports, pass.store, again, nowLater, graceLater) == Pass(pass.store, [], false)
  {
    hide Reachable, Reaches, Reconcile, ReconcileSteps, NoAlarm, SettledRow, After, Store.HalfDone;
    var r := Restart(w);
    var steps := ReconcileSteps(r.store, at, now, grace);
    ReconcileIsRun(ports, w, at, now, grace);
    ReachesPrefix(ports, r, steps, Holding(r, Reconcile(ports, r.store, at, now, grace).store), k);
    var mid := After(ports, r, steps[..k]);
    ReachesReachable(ports, r, steps[..k], mid);
    var dead := Interrupted(ports, r, steps, k, half);
    CutReaches(ports, mid, if half.None? then Crash else CrashIn(steps[k].command, steps[k].at, half.value));
    ReachesReachable(ports, mid, [if half.None? then Crash else CrashIn(steps[k].command, steps[k].at, half.value)], dead);
    RecoveryConverges(ports, dead, later, nowLater, graceLater, again);
  }

  lemma CutReaches(ports: Ports, w: World, act: Act)
    requires act.Enabled(w)
    ensures Reaches(ports, w, [act], act.Next(ports, w))
  {
    ReachesStep(ports, w, act, [], act.Next(ports, w));
  }
}
