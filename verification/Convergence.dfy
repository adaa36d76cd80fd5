/** Recovery converges: after any crash one pass settles every dump without an alarm, a second pass is the identity,
    and no loss of vault objects lets a dump stay available without its bytes. */
module Convergence {
  import opened Domain
  import opened Vaults
  import opened Ledgers
  import opened Engines
  import opened Coupling
  import opened Runs
  import opened Safety
  import opened Recovery

  /** The row is coupled to the vault, or would be had its object not been lost. */
  ghost predicate LossyRow(ports: Ports, d: Dump, v: Vault, id: DumpId) {
    || RowCoupled(ports, d, v, id)
    || (id !in v.objects && exists bytes :: CoupledHolding(ports, d, v, id, bytes))
  }

  predicate CoupledHolding(ports: Ports, d: Dump, v: Vault, id: DumpId, bytes: seq<byte>) {
    RowCoupled(ports, d, v.(objects := v.objects[id := bytes]), id)
  }

  predicate Settled(d: Dump) {
    d.phase == Available || d.phase == Rejected || d.phase == Deleted
  }

  predicate HandlesClosed(v: Vault) {
    forall id :: id in v.staging ==> !v.staging[id].open
  }

  /** What recovering one dump achieves. */
  ghost predicate RecoversRow(ports: Ports, s: Store, id: DumpId, at: Time)
    requires id in s.ledger.dumps
  {
    var r := RecoverDump(ports, s, id, s.ledger.dumps[id], at);
    && r.Recovered?
    && SameElsewhere(s, r.store, id) && id in r.store.ledger.dumps
    && r.store.ledger.cases == s.ledger.cases && r.store.ledger.dumps[id].caseId == s.ledger.dumps[id].caseId
    && (r.store.ledger.dumps[id].phase == Available ==> RowCoupled(ports, r.store.ledger.dumps[id], r.store.vault, id))
    && (RowCoupled(ports, s.ledger.dumps[id], s.vault, id) ==>
          && RowCoupled(ports, r.store.ledger.dumps[id], r.store.vault, id)
          && Settled(r.store.ledger.dumps[id]) && r.outcome != Some(IntegrityAlarm))
  }

  ghost predicate Recoverable(ports: Ports, s: Store, id: DumpId) {
    && id in s.ledger.dumps && s.ledger.dumps[id].caseId in s.ledger.cases
    && LossyRow(ports, s.ledger.dumps[id], s.vault, id)
    && (id in s.vault.staging ==> !s.vault.staging[id].open)
  }

  lemma InspectionSettles(ports: Ports, s: Store, id: DumpId, at: Time)
    requires id in s.ledger.dumps && s.ledger.dumps[id].caseId in s.ledger.cases
    requires s.ledger.dumps[id].phase == Quarantined && RowCoupled(ports, s.ledger.dumps[id], s.vault, id)
    ensures var r := AcceptOrReject(ports, s, id, at);
            && r.Recovered? && SameElsewhere(s, r.store, id) && id in r.store.ledger.dumps
            && r.store.ledger.cases == s.ledger.cases && r.store.ledger.dumps[id].caseId == s.ledger.dumps[id].caseId
            && RowCoupled(ports, r.store.ledger.dumps[id], r.store.vault, id)
            && Settled(r.store.ledger.dumps[id]) && r.outcome != Some(IntegrityAlarm)
  {
    match s.Inspected(ports, id)
    case Sound(coverage, facts) => assert s.ledger.TransitionDump(id, AcceptEdge(coverage, facts), at).Ok?;
    case Unsound(reason) => assert s.ledger.TransitionDump(id, RejectEdge(reason), at).Ok?;
  }

  lemma ResumeSettles(ports: Ports, s: Store, id: DumpId, at: Time)
    requires id in s.ledger.dumps && s.ledger.dumps[id].caseId in s.ledger.cases
    requires s.ledger.dumps[id].phase == Sealed && s.ledger.dumps[id].blob == InVault
    requires RowCoupled(ports, s.ledger.dumps[id], s.vault, id)
    ensures var r := ResumeSealed(ports, s, id, at);
            && r.Recovered? && SameElsewhere(s, r.store, id) && id in r.store.ledger.dumps
            && r.store.ledger.cases == s.ledger.cases && r.store.ledger.dumps[id].caseId == s.ledger.dumps[id].caseId
            && RowCoupled(ports, r.store.ledger.dumps[id], r.store.vault, id)
            && Settled(r.store.ledger.dumps[id]) && r.outcome != Some(IntegrityAlarm)
  {
    var (marked, m) := s.MarkQuarantined(id, at);
    assert s.ledger.TransitionDump(id, QuarantinedEdge, at).Ok?;
    assert RowCoupled(ports, marked.ledger.dumps[id], marked.vault, id);
    InspectionSettles(ports, marked, id, at);
  }

  lemma SealedRecovers(ports: Ports, s: Store, id: DumpId, at: Time)
    requires Recoverable(ports, s, id) && s.ledger.dumps[id].phase == Sealed
    ensures RecoversRow(ports, s, id, at)
  {
    var d := s.ledger.dumps[id];
    var presence := s.vault.Inspect(id);
    if presence.staging == presence.vault {
    } else if d.blob == InStaging {
      assert s.vault.Promote(id).Ok?;
      var (promoted, p) := s.PromoteObject(id, at);
      assert s.ledger.TransitionDump(id, PromotedEdge, at).Ok?;
      assert p == Done && RowCoupled(ports, promoted.ledger.dumps[id], promoted.vault, id);
      ResumeSettles(ports, promoted, id, at);
    } else if d.blob == InVault && presence.vault {
      ResumeSettles(ports, s, id, at);
    }
  }

  lemma QuarantinedRecovers(ports: Ports, s: Store, id: DumpId, at: Time)
    requires Recoverable(ports, s, id) && s.ledger.dumps[id].phase == Quarantined
    ensures RecoversRow(ports, s, id, at)
  {
    if id in s.vault.objects {
      InspectionSettles(ports, s, id, at);
    }
  }

  lemma ReceivingRecovers(ports: Ports, s: Store, id: DumpId, at: Time)
    requires Recoverable(ports, s, id) && s.ledger.dumps[id].phase == Receiving
    ensures RecoversRow(ports, s, id, at)
  {
    assert s.ledger.TransitionDump(id, FailEdge, at).Ok?;
  }

  lemma PurgesRecover(ports: Ports, s: Store, id: DumpId, at: Time)
    requires Recoverable(ports, s, id) && (s.ledger.dumps[id].phase == Available || s.ledger.dumps[id].phase == Deleting)
    ensures RecoversRow(ports, s, id, at)
  {
    if s.ledger.dumps[id].phase == Deleting {
      assert s.ledger.TransitionDump(id, FinishPurgeEdge, at).Ok?;
    } else if id !in s.vault.objects {
      assert s.ledger.TransitionDump(id, BeginPurgeEdge, at).Ok?;
      var begun := s.BeginPurge(id, at).0;
      assert begun.ledger.TransitionDump(id, FinishPurgeEdge, at).Ok?;
    }
  }

  lemma RestRecover(ports: Ports, s: Store, id: DumpId, at: Time)
    requires Recoverable(ports, s, id) && (s.ledger.dumps[id].phase == Rejected || s.ledger.dumps[id].phase == Deleted)
    ensures RecoversRow(ports, s, id, at)
  {}

  lemma RowRecovers(ports: Ports, s: Store, id: DumpId, at: Time)
    requires Recoverable(ports, s, id)
    ensures RecoversRow(ports, s, id, at)
  {
    match s.ledger.dumps[id].phase
    case Receiving => ReceivingRecovers(ports, s, id, at);
    case Sealed => SealedRecovers(ports, s, id, at);
    case Quarantined => QuarantinedRecovers(ports, s, id, at);
    case Available => PurgesRecover(ports, s, id, at);
    case Deleting => PurgesRecover(ports, s, id, at);
    case Rejected => RestRecover(ports, s, id, at);
    case Deleted => RestRecover(ports, s, id, at);
  }

  /** The rows outside `ids` are as they were. */
  ghost predicate UntouchedRows(s: Store, t: Store, ids: seq<DumpId>) {
    && t.ledger.dumps.Keys == s.ledger.dumps.Keys && t.ledger.cases == s.ledger.cases
    && (forall x :: x !in ids ==> (x in s.vault.staging <==> x in t.vault.staging) && (x in s.vault.objects <==> x in t.vault.objects))
    && (forall x :: x !in ids && x in s.ledger.dumps ==> t.ledger.dumps[x] == s.ledger.dumps[x])
    && (forall x :: x !in ids && x in s.vault.staging ==> t.vault.staging[x] == s.vault.staging[x])
    && (forall x :: x !in ids && x in s.vault.objects ==> t.vault.objects[x] == s.vault.objects[x])
  }

  ghost predicate SettledRow(ports: Ports, t: Store, id: DumpId) {
    id in t.ledger.dumps && RowCoupled(ports, t.ledger.dumps[id], t.vault, id) && Settled(t.ledger.dumps[id])
  }

  ghost predicate PassKeeps(ports: Ports, s: Store, t: Store, id: DumpId) {
    && id in s.ledger.dumps && id in t.ledger.dumps
    && t.ledger.dumps[id].caseId == s.ledger.dumps[id].caseId
    && (t.ledger.dumps[id].phase == Available ==> RowCoupled(ports, t.ledger.dumps[id], t.vault, id))
    && (RowCoupled(ports, s.ledger.dumps[id], s.vault, id) ==> SettledRow(ports, t, id))
  }

  predicate CoupledRow(ports: Ports, s: Store, id: DumpId) {
    id in s.ledger.dumps && RowCoupled(ports, s.ledger.dumps[id], s.vault, id)
  }

  predicate NoAlarm(actions: seq<Report>) {
    forall k :: 0 <= k < |actions| ==> actions[k].outcome != IntegrityAlarm
  }

  /** Rows depend on nothing but their own vault entries. */
  lemma RowLocal(ports: Ports, s: Store, t: Store, id: DumpId, x: DumpId)
    requires SameElsewhere(s, t, id) && x != id && x in s.ledger.dumps
    ensures RowCoupled(ports, s.ledger.dumps[x], s.vault, x) <==> RowCoupled(ports, t.ledger.dumps[x], t.vault, x)
    ensures t.ledger.cases == s.ledger.cases && Recoverable(ports, s, x) ==> Recoverable(ports, t, x)
  {
    if Recoverable(ports, s, x) && !RowCoupled(ports, s.ledger.dumps[x], s.vault, x) {
      var bytes :| CoupledHolding(ports, s.ledger.dumps[x], s.vault, x, bytes);
      assert CoupledHolding(ports, t.ledger.dumps[x], t.vault, x, bytes);
    }
  }

  lemma UntouchedStep(ports: Ports, s: Store, t: Store, end: Store, id: DumpId, rest: seq<DumpId>)
    requires SameElsewhere(s, t, id) && s.ledger.cases == t.ledger.cases && id in s.ledger.dumps && id in t.ledger.dumps
    requires id !in rest && UntouchedRows(t, end, rest)
    ensures UntouchedRows(s, end, [id] + rest)
  {
    assert forall x :: x in [id] + rest <==> x == id || x in rest;
    assert s.ledger.dumps.Keys == t.ledger.dumps.Keys by {
      assert forall x :: x in s.ledger.dumps <==> x in t.ledger.dumps;
    }
  }

  /** One recovered row followed by a pass over the rest. */
  lemma PassStep(ports: Ports, s: Store, t: Store, end: Store, id: DumpId, rest: seq<DumpId>)
    requires SameElsewhere(s, t, id) && s.ledger.cases == t.ledger.cases && PassKeeps(ports, s, t, id)
    requires id !in rest && UntouchedRows(t, end, rest)
    requires forall x :: x in rest ==> PassKeeps(ports, t, end, x)
    ensures UntouchedRows(s, end, [id] + rest)
    ensures forall x :: x in [id] + rest ==> PassKeeps(ports, s, end, x)
  {
    hide RowCoupled, Recoverable;
    assert forall x :: x in [id] + rest <==> x == id || x in rest;
    UntouchedStep(ports, s, t, end, id, rest);
    forall x | x in [id] + rest ensures PassKeeps(ports, s, end, x) {
      if x != id {
        assert PassKeeps(ports, t, end, x);
        RowLocal(ports, s, t, id, x);
      } else {
        RowStays(ports, s, t, end, id, rest);
      }
    }
  }

  lemma RowStays(ports: Ports, s: Store, t: Store, end: Store, id: DumpId, rest: seq<DumpId>)
    requires PassKeeps(ports, s, t, id) && id !in rest && UntouchedRows(t, end, rest)
    ensures PassKeeps(ports, s, end, id)
  {}

  /** One row's recovery, in the terms a whole pass is described in. */
  lemma RowPasses(ports: Ports, s: Store, id: DumpId, at: Time)
    requires Recoverable(ports, s, id)
    ensures var r := RecoverDump(ports, s, id, s.ledger.dumps[id], at);
            && r.Recovered? && SameElsewhere(s, r.store, id) && r.store.ledger.cases == s.ledger.cases
            && PassKeeps(ports, s, r.store, id)
            && (CoupledRow(ports, s, id) ==> NoAlarm(Reported(id, r.outcome)))
  {
    RowRecovers(ports, s, id, at);
  }

  ghost predicate Pending(ports: Ports, s: Store, snapshot: map<DumpId, Dump>, id: DumpId) {
    Recoverable(ports, s, id) && id in snapshot && snapshot[id] == s.ledger.dumps[id]
  }

  lemma PendingElsewhere(ports: Ports, s: Store, t: Store, snapshot: map<DumpId, Dump>, id: DumpId, x: DumpId)
    requires SameElsewhere(s, t, id) && t.ledger.cases == s.ledger.cases && x != id && Pending(ports, s, snapshot, x)
    ensures Pending(ports, t, snapshot, x)
    ensures CoupledRow(ports, s, x) ==> CoupledRow(ports, t, x)
  {
    RowLocal(ports, s, t, id, x);
  }

  lemma {:induction false} PassSettles(ports: Ports, s: Store, ids: seq<DumpId>, snapshot: map<DumpId, Dump>, at: Time)
    requires StrictlyAscending(ids)
    requires forall id :: id in ids ==> id in snapshot && Pending(ports, s, snapshot, id)
    ensures var pass := RecoverDumps(ports, s, ids, snapshot, at);
            && !pass.thrown && UntouchedRows(s, pass.store, ids)
            && (forall id :: id in ids ==> PassKeeps(ports, s, pass.store, id))
            && ((forall id :: id in ids ==> CoupledRow(ports, s, id)) ==> NoAlarm(pass.actions))
    decreases |ids|
  {
    hide RecoverDump, Recoverable, PassKeeps, RowCoupled, LossyRow, SettledRow, UntouchedRows;
    if ids == [] {
      assert UntouchedRows(s, s, ids) by { NothingTouched(s); }
    } else {
      var id, rest := ids[0], ids[1..];
      assert ids == [id] + rest && id !in rest && id in ids;
      assert Pending(ports, s, snapshot, id);
      RowPasses(ports, s, id, at);
      var r := RecoverDump(ports, s, id, snapshot[id], at);
      var t := r.store;
      forall x | x in rest
        ensures x in snapshot && Pending(ports, t, snapshot, x)
        ensures CoupledRow(ports, s, x) ==> CoupledRow(ports, t, x)
      {
        assert x in ids && x != id && Pending(ports, s, snapshot, x);
        PendingElsewhere(ports, s, t, snapshot, id, x);
      }
      PassSettles(ports, t, rest, snapshot, at);
      var pass := RecoverDumps(ports, t, rest, snapshot, at);
      PassStep(ports, s, t, pass.store, id, rest);
      assert RecoverDumps(ports, s, ids, snapshot, at) == pass.(actions := Reported(id, r.outcome) + pass.actions);
      if forall x :: x in ids ==> CoupledRow(ports, s, x) {
        assert CoupledRow(ports, s, id);
        assert forall x :: x in rest ==> x in ids;
        NoAlarmJoin(Reported(id, r.outcome), pass.actions);
      }
    }
  }

  lemma NothingTouched(s: Store)
    ensures UntouchedRows(s, s, [])
  {}

  lemma NoAlarmJoin(a: seq<Report>, b: seq<Report>)
    requires NoAlarm(a) && NoAlarm(b)
    ensures NoAlarm(a + b)
  {}

  /** Sweeping removes exactly the aged staging objects that no dump row names. */
  lemma {:induction false} SweepIsExact(v: Vault, ids: seq<DumpId>, known: set<DumpId>, now: int, grace: int)
    requires StrictlyAscending(ids)
    ensures var (swept, actions) := RemoveOrphans(v, ids, known, now, grace);
            && swept.objects == v.objects && NoAlarm(actions)
            && (forall x :: x in swept.staging <==> x in v.staging && !(x in ids && Doomed(v, x, known, now, grace)))
            && (forall x :: x in swept.staging ==> swept.staging[x] == v.staging[x])
            && (actions == [] <==> forall x :: x in ids ==> !Doomed(v, x, known, now, grace))
    decreases |ids|
  {
    if ids != [] {
      var (one, outcome) := SweepOne(v, ids[0], known, now, grace);
      assert ids[0] !in ids[1..];
      SweepIsExact(one, ids[1..], known, now, grace);
      assert forall x :: x in ids <==> x == ids[0] || x in ids[1..];
      assert forall x :: x != ids[0] ==> (Doomed(one, x, known, now, grace) <==> Doomed(v, x, known, now, grace));
    }
  }

  /** A store in which recovery finds nothing to do. */
  ghost predicate Quiescent(ports: Ports, s: Store, now: int, grace: int) {
    && (forall id :: id in s.ledger.dumps ==> SettledRow(ports, s, id))
    && (forall id :: id in s.vault.staging ==> !Doomed(s.vault, id, s.ledger.dumps.Keys, now, grace))
  }

  lemma {:induction false} QuiescentPass(ports: Ports, s: Store, ids: seq<DumpId>, at: Time)
    requires forall id :: id in ids ==> id in s.ledger.dumps && SettledRow(ports, s, id)
    ensures RecoverDumps(ports, s, ids, s.ledger.dumps, at) == Pass(s, [], false)
    decreases |ids|
  {
    if ids != [] {
      assert SettledRow(ports, s, ids[0]);
      QuiescentPass(ports, s, ids[1..], at);
    }
  }

  /** Recovery leaves a quiescent store alone: no command runs, no byte moves, nothing is reported. */
  lemma QuiescentIsFixed(ports: Ports, s: Store, at: Time, now: int, grace: int)
    requires Quiescent(ports, s, now, grace)
    ensures Reconcile(ports, s, at, now, grace) == Pass(s, [], false)
  {
    hide RecoverDump, RecoverDumps, RemoveOrphans, RowCoupled, SettledRow, Doomed;
    SweepIsExact(s.vault, SortedIds(s.vault.staging.Keys), s.ledger.dumps.Keys, now, grace);
    var (swept, _) := RemoveOrphans(s.vault, SortedIds(s.vault.staging.Keys), s.ledger.dumps.Keys, now, grace);
    assert swept.staging == s.vault.staging;
    QuiescentPass(ports, s, SortedIds(s.ledger.dumps.Keys), at);
  }

  function Swept(s: Store, now: int, grace: int): Store {
    s.(vault := RemoveOrphans(s.vault, SortedIds(s.vault.staging.Keys), s.ledger.dumps.Keys, now, grace).0)
  }

  lemma SweepKeepsRows(ports: Ports, s: Store, now: int, grace: int)
    requires References(s.ledger) && HandlesClosed(s.vault)
    requires forall id :: id in s.ledger.dumps ==> LossyRow(ports, s.ledger.dumps[id], s.vault, id)
    ensures forall id :: id in s.ledger.dumps ==> Recoverable(ports, Swept(s, now, grace), id)
    ensures forall id :: CoupledRow(ports, s, id) ==> CoupledRow(ports, Swept(s, now, grace), id)
    ensures forall id :: id in Swept(s, now, grace).vault.staging ==> !Doomed(Swept(s, now, grace).vault, id, s.ledger.dumps.Keys, now, grace)
  {
    var t := Swept(s, now, grace);
    SweepIsExact(s.vault, SortedIds(s.vault.staging.Keys), s.ledger.dumps.Keys, now, grace);
    forall id | id in s.ledger.dumps
      ensures Recoverable(ports, t, id) && (CoupledRow(ports, s, id) ==> CoupledRow(ports, t, id))
    {
      SweptRow(ports, s, t, id);
    }
  }

  lemma SettledQuiescent(ports: Ports, t: Store, end: Store, ids: seq<DumpId>, now: int, grace: int)
    requires UntouchedRows(t, end, ids) && forall id :: id in ids <==> id in t.ledger.dumps
    requires forall id :: id in ids ==> PassKeeps(ports, t, end, id) && CoupledRow(ports, t, id)
    requires forall id :: id in t.vault.staging ==> !Doomed(t.vault, id, t.ledger.dumps.Keys, now, grace)
    ensures Quiescent(ports, end, now, grace)
  {
    forall id | id in end.ledger.dumps ensures SettledRow(ports, end, id) {
      assert PassKeeps(ports, t, end, id) && CoupledRow(ports, t, id);
    }
    forall id | id in end.vault.staging ensures !Doomed(end.vault, id, end.ledger.dumps.Keys, now, grace) {
      if id !in end.ledger.dumps {
        assert id in t.vault.staging && !Doomed(t.vault, id, t.ledger.dumps.Keys, now, grace);
      }
    }
  }

  /** After any loss of vault objects, recovery still finishes, and whatever stays available still has its sealed bytes.
      With nothing lost, it raises no alarm and every dump ends available, rejected or deleted. */
  lemma ReconcileSettles(ports: Ports, s: Store, at: Time, now: int, grace: int)
    requires References(s.ledger) && HandlesClosed(s.vault)
    requires forall id :: id in s.ledger.dumps ==> LossyRow(ports, s.ledger.dumps[id], s.vault, id)
    ensures var pass := Reconcile(ports, s, at, now, grace);
            && !pass.thrown && pass.store.ledger.dumps.Keys == s.ledger.dumps.Keys
            && (forall id :: id in s.ledger.dumps && pass.store.ledger.dumps[id].phase == Available ==>
                  SealedObject(ports, pass.store.ledger.dumps[id], pass.store.vault, id))
            && (Coupled(ports, s) ==> NoAlarm(pass.actions) && Quiescent(ports, pass.store, now, grace))
  {
    hide RecoverDump, Recoverable, PassKeeps, RowCoupled, LossyRow, RemoveOrphans, Reconcile, RecoverDumps, Quiescent;
    var ids := SortedIds(s.ledger.dumps.Keys);
    var t := Swept(s, now, grace);
    SweepIsExact(s.vault, SortedIds(s.vault.staging.Keys), s.ledger.dumps.Keys, now, grace);
    SweepKeepsRows(ports, s, now, grace);
    forall id | id in ids ensures id in s.ledger.dumps && Pending(ports, t, s.ledger.dumps, id) {
      assert id in s.ledger.dumps && Recoverable(ports, t, id);
    }
    PassSettles(ports, t, ids, s.ledger.dumps, at);
    var pass := RecoverDumps(ports, t, ids, s.ledger.dumps, at);
    ReconcileShape(ports, s, at, now, grace);
    forall id | id in s.ledger.dumps && pass.store.ledger.dumps[id].phase == Available
      ensures SealedObject(ports, pass.store.ledger.dumps[id], pass.store.vault, id)
    {
      assert id in ids && PassKeeps(ports, t, pass.store, id);
      AvailableRow(ports, t, pass.store, id);
    }
    if Coupled(ports, s) {
      forall id | id in ids ensures CoupledRow(ports, t, id) {
        assert CoupledRow(ports, s, id);
      }
      SettledQuiescent(ports, t, pass.store, ids, now, grace);
      NoAlarmJoin(RemoveOrphans(s.vault, SortedIds(s.vault.staging.Keys), s.ledger.dumps.Keys, now, grace).1, pass.actions);
    }
  }

  lemma AvailableRow(ports: Ports, s: Store, t: Store, id: DumpId)
    requires PassKeeps(ports, s, t, id) && t.ledger.dumps[id].phase == Available
    ensures SealedObject(ports, t.ledger.dumps[id], t.vault, id)
  {}

  lemma ReconcileShape(ports: Ports, s: Store, at: Time, now: int, grace: int)
    ensures var pass := RecoverDumps(ports, Swept(s, now, grace), SortedIds(s.ledger.dumps.Keys), s.ledger.dumps, at);
            var removed := RemoveOrphans(s.vault, SortedIds(s.vault.staging.Keys), s.ledger.dumps.Keys, now, grace).1;
            Reconcile(ports, s, at, now, grace) == pass.(actions := removed + pass.actions)
  {}

  lemma SweptRow(ports: Ports, s: Store, t: Store, id: DumpId)
    requires t.ledger == s.ledger && t.vault.objects == s.vault.objects && id in s.ledger.dumps
    requires id in t.vault.staging <==> id in s.vault.staging
    requires id in t.vault.staging ==> t.vault.staging[id] == s.vault.staging[id]
    ensures RowCoupled(ports, s.ledger.dumps[id], s.vault, id) ==> RowCoupled(ports, t.ledger.dumps[id], t.vault, id)
    ensures LossyRow(ports, s.ledger.dumps[id], s.vault, id) ==> LossyRow(ports, t.ledger.dumps[id], t.vault, id)
  {
    if LossyRow(ports, s.ledger.dumps[id], s.vault, id) && !RowCoupled(ports, s.ledger.dumps[id], s.vault, id) {
      var bytes :| CoupledHolding(ports, s.ledger.dumps[id], s.vault, id, bytes);
      assert CoupledHolding(ports, t.ledger.dumps[id], t.vault, id, bytes);
    }
  }

  /** Startup recovery of any reachable world: no error, no alarm, every dump settled, and a second pass is the identity. */
  lemma RecoveryConverges(ports: Ports, w: World, at: Time, now: int, grace: int, again: Time)
    requires Reachable(ports, w)
    ensures var pass := Reconcile(ports, Restart(w).store, at, now, grace);
            && !pass.thrown && NoAlarm(pass.actions)
            && pass.store.ledger.dumps.Keys == w.store.ledger.dumps.Keys
            && (forall id :: id in pass.store.ledger.dumps ==> SettledRow(ports, pass.store, id))
            && Reconcile(ports, pass.store, again, now, grace) == Pass(pass.store, [], false)
  {
    ReachableInv(ports, w);
    RestartKeepsInv(ports, w);
    var s := Restart(w).store;
    ReconcileSettles(ports, s, at, now, grace);
    QuiescentIsFixed(ports, Reconcile(ports, s, at, now, grace).store, again, now, grace);
  }

  // ---- what a pass reports ----

  /** The sealed bytes of a row that has exactly one file. */
  function Held(v: Vault, id: DumpId): seq<byte> {
    if id in v.objects then v.objects[id] else if id in v.staging then v.staging[id].Bytes() else []
  }

  /** The row's bytes are not where its phase needs them, or are where its phase forbids them. */
  predicate Alarming(d: Dump, v: Vault, id: DumpId) {
    match d.phase
    case Sealed => id in v.staging <==> id in v.objects
    case Quarantined => id !in v.objects
    case Available => id !in v.objects
    case Deleted => id in v.staging || id in v.objects
    case _ => false
  }

  /** What a pass owes one row: its phase afterwards, and its report. */
  predicate Owes(ports: Ports, d: Dump, v: Vault, id: DumpId, end: Phase, report: Option<Outcome>) {
    var sound := ports.inspect(Held(v, id)).Sound?;
    if Alarming(d, v, id) then report == Some(IntegrityAlarm) && end == if d.phase == Available then Deleted else d.phase
    else
      match d.phase
      case Receiving => report == Some(UploadFailed) && end == Rejected
      case Sealed => if sound then report == Some(BecameAvailable) && end == Available else report == Some(BecameRejected) && end == Rejected
      case Quarantined => if sound then report == Some(BecameAvailable) && end == Available else report == Some(BecameRejected) && end == Rejected
      case Available => report == None && end == Available
      case Rejected => report == (if id in v.staging then Some(BecameRejected) else None) && end == Rejected
      case Deleting => report == Some(FinishedDelete) && end == Deleted
      case Deleted => report == None && end == Deleted
  }

  ghost predicate PaysRow(ports: Ports, s: Store, id: DumpId, at: Time)
    requires id in s.ledger.dumps
  {
    var r := RecoverDump(ports, s, id, s.ledger.dumps[id], at);
    && r.Recovered? && id in r.store.ledger.dumps
    && Owes(ports, s.ledger.dumps[id], s.vault, id, r.store.ledger.dumps[id].phase, r.outcome)
  }

  lemma InspectionPays(ports: Ports, s: Store, id: DumpId, at: Time)
    requires id in s.ledger.dumps && s.ledger.dumps[id].caseId in s.ledger.cases && id in s.vault.objects
    requires s.ledger.dumps[id].phase == Quarantined && s.ledger.dumps[id].blob == InVault && s.ledger.dumps[id].sha256.Some?
    ensures var r := AcceptOrReject(ports, s, id, at);
            && r.Recovered? && id in r.store.ledger.dumps
            && if ports.inspect(s.vault.objects[id]).Sound?
               then r.outcome == Some(BecameAvailable) && r.store.ledger.dumps[id].phase == Available
               else r.outcome == Some(BecameRejected) && r.store.ledger.dumps[id].phase == Rejected
  {
    match s.Inspected(ports, id)
    case Sound(coverage, facts) => assert s.ledger.TransitionDump(id, AcceptEdge(coverage, facts), at).Ok?;
    case Unsound(reason) => assert s.ledger.TransitionDump(id, RejectEdge(reason), at).Ok?;
  }

  lemma ResumePays(ports: Ports, s: Store, id: DumpId, at: Time)
    requires id in s.ledger.dumps && s.ledger.dumps[id].caseId in s.ledger.cases && id in s.vault.objects && id !in s.vault.staging
    requires s.ledger.dumps[id].phase == Sealed && s.ledger.dumps[id].blob == InVault && s.ledger.dumps[id].sha256.Some?
    ensures var r := ResumeSealed(ports, s, id, at);
            && r.Recovered? && id in r.store.ledger.dumps
            && if ports.inspect(s.vault.objects[id]).Sound?
               then r.outcome == Some(BecameAvailable) && r.store.ledger.dumps[id].phase == Available
               else r.outcome == Some(BecameRejected) && r.store.ledger.dumps[id].phase == Rejected
  {
    hide AcceptOrReject;
    assert s.ledger.TransitionDump(id, QuarantinedEdge, at).Ok?;
    InspectionPays(ports, s.MarkQuarantined(id, at).0, id, at);
  }

  lemma SealedPays(ports: Ports, s: Store, id: DumpId, at: Time)
    requires Recoverable(ports, s, id) && s.ledger.dumps[id].phase == Sealed
    ensures PaysRow(ports, s, id, at)
  {
    hide ResumeSealed;
    var d := s.ledger.dumps[id];
    if id in s.vault.staging && id !in s.vault.objects {
      assert d.blob == InStaging && d.sha256.Some?;
      assert s.vault.Promote(id).Ok?;
      assert s.ledger.TransitionDump(id, PromotedEdge, at).Ok?;
      ResumePays(ports, s.PromoteObject(id, at).0, id, at);
    } else if id in s.vault.objects && id !in s.vault.staging {
      if d.blob == InStaging {
        assert s.vault.Promote(id) == Ok(s.vault);
        assert s.ledger.TransitionDump(id, PromotedEdge, at).Ok?;
        ResumePays(ports, s.PromoteObject(id, at).0, id, at);
      } else {
        ResumePays(ports, s, id, at);
      }
    }
  }

  lemma RowPays(ports: Ports, s: Store, id: DumpId, at: Time)
    requires Recoverable(ports, s, id)
    ensures PaysRow(ports, s, id, at)
  {
    match s.ledger.dumps[id].phase
    case Receiving => assert s.ledger.TransitionDump(id, FailEdge, at).Ok?;
    case Sealed => SealedPays(ports, s, id, at);
    case Quarantined => if id in s.vault.objects { InspectionPays(ports, s, id, at); }
    case Available => AvailablePays(ports, s, id, at);
    case Deleting => assert s.ledger.TransitionDump(id, FinishPurgeEdge, at).Ok?;
    case Rejected =>
    case Deleted =>
  }

  lemma AvailablePays(ports: Ports, s: Store, id: DumpId, at: Time)
    requires Recoverable(ports, s, id) && s.ledger.dumps[id].phase == Available
    ensures PaysRow(ports, s, id, at)
  {
    if id !in s.vault.objects {
      assert s.ledger.TransitionDump(id, BeginPurgeEdge, at).Ok?;
      var begun := s.BeginPurge(id, at).0;
      assert begun.ledger.TransitionDump(id, FinishPurgeEdge, at).Ok?;
    }
  }

  /** The rows of `ids` got what they were owed, each with its report, and nothing else was reported. */
  ghost predicate PaysAll(ports: Ports, s: Store, ids: seq<DumpId>, t: Store, actions: seq<Report>) {
    && (forall id :: id in ids ==> id in s.ledger.dumps && id in t.ledger.dumps && PaidIn(ports, s, id, t, actions))
    && (forall k :: 0 <= k < |actions| ==> actions[k].dumpId in ids && actions[k].outcome != OrphanRemoved)
    && (forall j, k :: 0 <= j < k < |actions| ==> actions[j].dumpId < actions[k].dumpId)
  }

  ghost predicate PaidIn(ports: Ports, s: Store, id: DumpId, t: Store, actions: seq<Report>)
    requires id in s.ledger.dumps && id in t.ledger.dumps
  {
    exists report: Option<Outcome> ::
      && Owes(ports, s.ledger.dumps[id], s.vault, id, t.ledger.dumps[id].phase, report)
      && forall o :: Report(id, o) in actions <==> report == Some(o)
  }

  lemma PaysElsewhere(ports: Ports, s: Store, t: Store, id: DumpId, x: DumpId, end: Phase, report: Option<Outcome>)
    requires SameElsewhere(s, t, id) && x != id && x in s.ledger.dumps
    requires Owes(ports, t.ledger.dumps[x], t.vault, x, end, report)
    ensures Owes(ports, s.ledger.dumps[x], s.vault, x, end, report)
  {}

  /** One row's report in front of the others'. */
  lemma ReportsJoin(id: DumpId, rest: seq<DumpId>, report: Option<Outcome>, actions: seq<Report>)
    requires StrictlyAscending([id] + rest) && report != Some(OrphanRemoved)
    requires forall k :: 0 <= k < |actions| ==> actions[k].dumpId in rest && actions[k].outcome != OrphanRemoved
    requires forall j, k :: 0 <= j < k < |actions| ==> actions[j].dumpId < actions[k].dumpId
    ensures var all := Reported(id, report) + actions;
            && (forall x, o :: Report(x, o) in all <==> if x == id then report == Some(o) else Report(x, o) in actions)
            && (forall k :: 0 <= k < |all| ==> all[k].dumpId in [id] + rest && all[k].outcome != OrphanRemoved)
            && (forall j, k :: 0 <= j < k < |all| ==> all[j].dumpId < all[k].dumpId)
  {
    var ids := [id] + rest;
    forall x | x in rest ensures id < x {
      var k :| 0 <= k < |rest| && rest[k] == x;
      assert ids[0] < ids[k + 1];
    }
    assert forall k :: 0 <= k < |actions| ==> actions[k].dumpId != id;
  }

  lemma PaidElsewhere(ports: Ports, s: Store, t: Store, end: Store, id: DumpId, x: DumpId, actions: seq<Report>, all: seq<Report>)
    requires SameElsewhere(s, t, id) && x != id && x in s.ledger.dumps && x in t.ledger.dumps && x in end.ledger.dumps
    requires PaidIn(ports, t, x, end, actions) && forall o :: Report(x, o) in all <==> Report(x, o) in actions
    ensures PaidIn(ports, s, x, end, all)
  {
    hide Owes;
    var paid: Option<Outcome> :|
      && Owes(ports, t.ledger.dumps[x], t.vault, x, end.ledger.dumps[x].phase, paid)
      && forall o :: Report(x, o) in actions <==> paid == Some(o);
    PaysElsewhere(ports, s, t, id, x, end.ledger.dumps[x].phase, paid);
  }

  lemma PaysFirst(ports: Ports, s: Store, t: Store, end: Store, id: DumpId, rest: seq<DumpId>, report: Option<Outcome>, actions: seq<Report>)
    requires SameElsewhere(s, t, id) && id in s.ledger.dumps && id in t.ledger.dumps && UntouchedRows(t, end, rest)
    requires StrictlyAscending([id] + rest) && report != Some(OrphanRemoved)
    requires Owes(ports, s.ledger.dumps[id], s.vault, id, t.ledger.dumps[id].phase, report)
    requires PaysAll(ports, t, rest, end, actions)
    ensures PaysAll(ports, s, [id] + rest, end, Reported(id, report) + actions)
  {
    hide Owes, PaidIn, Reported;
    var ids, all := [id] + rest, Reported(id, report) + actions;
    assert forall x :: x in ids <==> x == id || x in rest;
    ReportsJoin(id, rest, report, actions);
    assert id !in rest by {
      forall k | 0 <= k < |rest| ensures rest[k] != id {
        assert ids[0] < ids[k + 1];
      }
    }
    assert end.ledger.dumps[id] == t.ledger.dumps[id];
    assert PaidIn(ports, s, id, end, all) by { PaidNow(ports, s, end, id, report, all); }
    forall x | x in rest ensures x in s.ledger.dumps && x in end.ledger.dumps && PaidIn(ports, s, x, end, all) {
      PaidElsewhere(ports, s, t, end, id, x, actions, all);
    }
  }

  lemma PaidNow(ports: Ports, s: Store, end: Store, id: DumpId, report: Option<Outcome>, all: seq<Report>)
    requires id in s.ledger.dumps && id in end.ledger.dumps
    requires Owes(ports, s.ledger.dumps[id], s.vault, id, end.ledger.dumps[id].phase, report)
    requires forall o :: Report(id, o) in all <==> report == Some(o)
    ensures PaidIn(ports, s, id, end, all)
  {}

  lemma {:induction false} PassPays(ports: Ports, s: Store, ids: seq<DumpId>, snapshot: map<DumpId, Dump>, at: Time)
    requires StrictlyAscending(ids)
    requires forall id :: id in ids ==> id in snapshot && Pending(ports, s, snapshot, id)
    ensures var pass := RecoverDumps(ports, s, ids, snapshot, at);
            PaysAll(ports, s, ids, pass.store, pass.actions)
    decreases |ids|
  {
    hide RecoverDump, Recoverable, PassKeeps, RowCoupled, LossyRow, SettledRow, UntouchedRows, Owes, PaysAll;
    if ids == [] {
      NothingPaid(ports, s);
    } else {
      var id, rest := ids[0], ids[1..];
      assert ids == [id] + rest && id !in rest && id in ids;
      assert Pending(ports, s, snapshot, id);
      RowPasses(ports, s, id, at);
      RowPays(ports, s, id, at);
      var r := RecoverDump(ports, s, id, snapshot[id], at);
      var t := r.store;
      forall x | x in rest ensures x in snapshot && Pending(ports, t, snapshot, x) {
        assert x in ids && x != id && Pending(ports, s, snapshot, x);
        PendingElsewhere(ports, s, t, snapshot, id, x);
      }
      PassSettles(ports, t, rest, snapshot, at);
      PassPays(ports, t, rest, snapshot, at);
      var pass := RecoverDumps(ports, t, rest, snapshot, at);
      NotAnOrphan(ports, s.ledger.dumps[id], s.vault, id, t.ledger.dumps[id].phase, r.outcome);
      PaysFirst(ports, s, t, pass.store, id, rest, r.outcome, pass.actions);
    }
  }

  lemma NotAnOrphan(ports: Ports, d: Dump, v: Vault, id: DumpId, end: Phase, report: Option<Outcome>)
    requires Owes(ports, d, v, id, end, report)
    ensures report != Some(OrphanRemoved)
  {}

  lemma NothingPaid(ports: Ports, s: Store)
    ensures PaysAll(ports, s, [], s, [])
  {}

  lemma {:induction false} SweepReports(v: Vault, ids: seq<DumpId>, known: set<DumpId>, now: int, grace: int)
    requires StrictlyAscending(ids)
    ensures var actions := RemoveOrphans(v, ids, known, now, grace).1;
            && (forall x, o :: Report(x, o) in actions <==> o == OrphanRemoved && x in ids && Doomed(v, x, known, now, grace))
            && (forall k :: 0 <= k < |actions| ==> actions[k].dumpId in ids)
            && (forall j, k :: 0 <= j < k < |actions| ==> actions[j].dumpId < actions[k].dumpId)
    decreases |ids|
  {
    if ids != [] {
      hide Doomed, SweepOne, StrictlyAscending;
      var id, rest := ids[0], ids[1..];
      var (one, outcome) := SweepOne(v, id, known, now, grace);
      assert StrictlyAscending(rest) && id !in rest && (forall x :: x in rest ==> id < x) by { AscendingTail(ids); }
      SweepReports(one, rest, known, now, grace);
      SweptOnce(v, id, known, now, grace);
      var others := RemoveOrphans(one, rest, known, now, grace).1;
      assert RemoveOrphans(v, ids, known, now, grace).1 == Reported(id, outcome) + others;
      assert forall x :: x in ids <==> x == id || x in rest;
      assert forall x, o :: Report(x, o) in Reported(id, outcome) + others <==> Report(x, o) in Reported(id, outcome) || Report(x, o) in others;
    }
  }

  lemma AscendingTail(ids: seq<DumpId>)
    requires StrictlyAscending(ids) && ids != []
    ensures StrictlyAscending(ids[1..]) && ids[0] !in ids[1..] && forall x :: x in ids[1..] ==> ids[0] < x
  {
    forall k | 0 <= k < |ids| - 1 ensures ids[0] < ids[1..][k] {
      assert ids[1..][k] == ids[k + 1];
    }
  }

  lemma SweptOnce(v: Vault, id: DumpId, known: set<DumpId>, now: int, grace: int)
    ensures var (one, outcome) := SweepOne(v, id, known, now, grace);
            && (forall o :: outcome == Some(o) <==> o == OrphanRemoved && Doomed(v, id, known, now, grace))
            && forall x :: x != id ==> (Doomed(one, x, known, now, grace) <==> Doomed(v, x, known, now, grace))
  {}

  /** What a pass over a store coupled up to lost objects reports: at most one line per id, and these. */
  ghost predicate ReportsExactly(ports: Ports, s: Store, t: Store, actions: seq<Report>, now: int, grace: int) {
    && (forall j, k :: 0 <= j < k < |actions| ==> actions[j].dumpId != actions[k].dumpId)
    && (forall id :: id in s.ledger.dumps ==> id in t.ledger.dumps && PaidIn(ports, s, id, t, actions))
    && (forall id, o :: Report(id, o) in actions && id !in s.ledger.dumps ==> o == OrphanRemoved)
    && (forall id :: Report(id, OrphanRemoved) in actions <==>
          id !in s.ledger.dumps && id in s.vault.staging && now - s.vault.staging[id].createdAt >= grace)
  }

  lemma ReconcileReports(ports: Ports, s: Store, at: Time, now: int, grace: int)
    requires References(s.ledger) && HandlesClosed(s.vault)
    requires forall id :: id in s.ledger.dumps ==> LossyRow(ports, s.ledger.dumps[id], s.vault, id)
    ensures var pass := Reconcile(ports, s, at, now, grace);
            ReportsExactly(ports, s, pass.store, pass.actions, now, grace)
  {
    hide RecoverDump, Recoverable, PassKeeps, RowCoupled, LossyRow, RemoveOrphans, Reconcile, RecoverDumps, Owes, PaidIn;
    var ids, staged := SortedIds(s.ledger.dumps.Keys), SortedIds(s.vault.staging.Keys);
    var t := Swept(s, now, grace);
    SweepIsExact(s.vault, staged, s.ledger.dumps.Keys, now, grace);
    SweepReports(s.vault, staged, s.ledger.dumps.Keys, now, grace);
    SweepKeepsRows(ports, s, now, grace);
    forall id | id in ids ensures id in s.ledger.dumps && Pending(ports, t, s.ledger.dumps, id) {
      assert id in s.ledger.dumps && Recoverable(ports, t, id);
    }
    PassPays(ports, t, ids, s.ledger.dumps, at);
    ReconcileShape(ports, s, at, now, grace);
    var pass := RecoverDumps(ports, t, ids, s.ledger.dumps, at);
    var removed := RemoveOrphans(s.vault, staged, s.ledger.dumps.Keys, now, grace).1;
    ReportsAppend(ports, s, t, pass.store, ids, removed, pass.actions, now, grace);
  }

  lemma ReportsAppend(ports: Ports, s: Store, t: Store, end: Store, ids: seq<DumpId>, removed: seq<Report>, actions: seq<Report>,
                      now: int, grace: int)
    requires t.ledger == s.ledger && t.vault.objects == s.vault.objects && PaysAll(ports, t, ids, end, actions)
    requires forall id :: id in ids <==> id in s.ledger.dumps
    requires forall id :: id in s.ledger.dumps ==> (id in t.vault.staging <==> id in s.vault.staging)
    requires forall id :: id in s.ledger.dumps && id in t.vault.staging ==> t.vault.staging[id] == s.vault.staging[id]
    requires forall x, o :: Report(x, o) in removed <==>
               o == OrphanRemoved && x in s.vault.staging && Doomed(s.vault, x, s.ledger.dumps.Keys, now, grace)
    requires forall j, k :: 0 <= j < k < |removed| ==> removed[j].dumpId < removed[k].dumpId
    ensures ReportsExactly(ports, s, end, removed + actions, now, grace)
  {
    hide Owes, PaidIn;
    var all := removed + actions;
    forall k | 0 <= k < |removed| ensures removed[k].dumpId !in s.ledger.dumps {
      assert Report(removed[k].dumpId, removed[k].outcome) in removed;
    }
    forall id | id in s.ledger.dumps ensures id in end.ledger.dumps && PaidIn(ports, s, id, end, all) {
      assert id in ids && PaidIn(ports, t, id, end, actions);
      assert forall o :: Report(id, o) !in removed;
      PaidSame(ports, s, t, end, id, actions, all);
    }
    forall id, o | Report(id, o) in actions ensures id in s.ledger.dumps && o != OrphanRemoved {
      var k :| 0 <= k < |actions| && actions[k] == Report(id, o);
    }
  }

  lemma PaidSame(ports: Ports, s: Store, t: Store, end: Store, id: DumpId, actions: seq<Report>, all: seq<Report>)
    requires t.ledger == s.ledger && id in s.ledger.dumps && id in end.ledger.dumps && t.vault.objects == s.vault.objects
    requires (id in t.vault.staging <==> id in s.vault.staging) && (id in t.vault.staging ==> t.vault.staging[id] == s.vault.staging[id])
    requires PaidIn(ports, t, id, end, actions) && forall o :: Report(id, o) in all <==> Report(id, o) in actions
    ensures PaidIn(ports, s, id, end, all)
  {
    var paid: Option<Outcome> :|
      && Owes(ports, t.ledger.dumps[id], t.vault, id, end.ledger.dumps[id].phase, paid)
      && forall o :: Report(id, o) in actions <==> paid == Some(o);
    assert Owes(ports, s.ledger.dumps[id], s.vault, id, end.ledger.dumps[id].phase, paid);
  }

  /** What the report says of one row, whichever row it is. */
  lemma RowReported(ports: Ports, s: Store, t: Store, actions: seq<Report>, id: DumpId)
    requires id in s.ledger.dumps && id in t.ledger.dumps && PaidIn(ports, s, id, t, actions)
    ensures var d, end, v := s.ledger.dumps[id], t.ledger.dumps[id].phase, s.vault;
            && (Report(id, IntegrityAlarm) in actions <==>
                  || ((d.phase == Available || d.phase == Quarantined) && id !in v.objects)
                  || (d.phase == Sealed && (id in v.staging <==> id in v.objects))
                  || (d.phase == Deleted && (id in v.staging || id in v.objects)))
            && (Report(id, UploadFailed) in actions <==> d.phase == Receiving)
            && (Report(id, FinishedDelete) in actions <==> d.phase == Deleting)
            && (Report(id, BecameAvailable) in actions <==> (d.phase == Sealed || d.phase == Quarantined) && end == Available)
            && (Report(id, BecameRejected) in actions <==>
                  ((d.phase == Sealed || d.phase == Quarantined) && end == Rejected) || (d.phase == Rejected && id in v.staging))
            && Report(id, OrphanRemoved) !in actions
            && (d.phase == Receiving ==> end == Rejected)
            && (d.phase == Available ==> end == if id in v.objects then Available else Deleted)
            && (d.phase == Deleting ==> end == Deleted)
            && (d.phase == Rejected || d.phase == Deleted ==> end == d.phase)
            && (d.phase == Sealed ==>
                  end == if id in v.staging <==> id in v.objects then Sealed else if ports.inspect(Held(v, id)).Sound? then Available else Rejected)
            && (d.phase == Quarantined ==>
                  end == if id !in v.objects then Quarantined else if ports.inspect(v.objects[id]).Sound? then Available else Rejected)
  {}

  /** What a pass reports from any reachable world, whatever objects were lost behind the service's back: one line at most for
      an id, an alarm exactly for a row whose bytes are gone or are found after the tombstone, and each other outcome exactly
      for the rows it happened to. */
  lemma RecoveryReports(ports: Ports, w: World, lost: set<DumpId>, at: Time, now: int, grace: int)
    requires Reachable(ports, w)
    ensures var s := Damaged(w, lost);
            var pass := Reconcile(ports, s, at, now, grace);
            && pass.store.ledger.dumps.Keys == s.ledger.dumps.Keys
            && (forall j, k :: 0 <= j < k < |pass.actions| ==> pass.actions[j].dumpId != pass.actions[k].dumpId)
            && (forall id :: id in s.ledger.dumps ==>
                  var d, end, actions := s.ledger.dumps[id], pass.store.ledger.dumps[id].phase, pass.actions;
                  && (Report(id, IntegrityAlarm) in actions <==>
                        || ((d.phase == Available || d.phase == Quarantined) && id !in s.vault.objects)
                        || (d.phase == Sealed && (id in s.vault.staging <==> id in s.vault.objects))
                        || (d.phase == Deleted && (id in s.vault.staging || id in s.vault.objects)))
                  && (Report(id, UploadFailed) in actions <==> d.phase == Receiving)
                  && (Report(id, FinishedDelete) in actions <==> d.phase == Deleting)
                  && (Report(id, BecameAvailable) in actions <==> (d.phase == Sealed || d.phase == Quarantined) && end == Available)
                  && (Report(id, BecameRejected) in actions <==>
                        ((d.phase == Sealed || d.phase == Quarantined) && end == Rejected) || (d.phase == Rejected && id in s.vault.staging))
                  && Report(id, OrphanRemoved) !in actions)
            && (forall id, o :: Report(id, o) in pass.actions && id !in s.ledger.dumps ==> o == OrphanRemoved)
            && (forall id :: Report(id, OrphanRemoved) in pass.actions <==>
                  id !in s.ledger.dumps && id in s.vault.staging && now - s.vault.staging[id].createdAt >= grace)
  {
    hide Reconcile, LossyRow, PaidIn, Damaged;
    var s := Damaged(w, lost);
    DamagedIsLossy(ports, w, lost);
    ReconcileSettles(ports, s, at, now, grace);
    ReconcileReports(ports, s, at, now, grace);
    var pass := Reconcile(ports, s, at, now, grace);
    forall id | id in s.ledger.dumps { RowReported(ports, s, pass.store, pass.actions, id); }
  }

  /** Where the same pass leaves each row: what was being received is rejected, bytes that wait for inspection are judged by the
      inspection of those bytes, and a row whose object was lost is not available any more. */
  lemma RecoveryOutcomes(ports: Ports, w: World, lost: set<DumpId>, at: Time, now: int, grace: int)
    requires Reachable(ports, w)
    ensures var s := Damaged(w, lost);
            var t := Reconcile(ports, s, at, now, grace).store;
            && t.ledger.dumps.Keys == s.ledger.dumps.Keys
            && forall id :: id in s.ledger.dumps ==>
                 var d, end := s.ledger.dumps[id], t.ledger.dumps[id].phase;
                 && (d.phase == Receiving ==> end == Rejected)
                 && (d.phase == Available ==> end == if id in s.vault.objects then Available else Deleted)
                 && (d.phase == Deleting ==> end == Deleted)
                 && (d.phase == Rejected || d.phase == Deleted ==> end == d.phase)
                 && (d.phase == Sealed ==>
                       end == if id in s.vault.staging <==> id in s.vault.objects then Sealed
                              else if ports.inspect(Held(s.vault, id)).Sound? then Available else Rejected)
                 && (d.phase == Quarantined ==>
                       end == if id !in s.vault.objects then Quarantined
                              else if ports.inspect(s.vault.objects[id]).Sound? then Available else Rejected)
  {
    hide Reconcile, LossyRow, PaidIn, Damaged, Held;
    var s := Damaged(w, lost);
    DamagedIsLossy(ports, w, lost);
    ReconcileSettles(ports, s, at, now, grace);
    ReconcileReports(ports, s, at, now, grace);
    var pass := Reconcile(ports, s, at, now, grace);
    forall id | id in s.ledger.dumps { RowReported(ports, s, pass.store, pass.actions, id); }
  }

  /** After a restart, with some vault objects gone. */
  function Damaged(w: World, lost: set<DumpId>): Store {
    var s := Restart(w).store;
    s.(vault := s.vault.(objects := s.vault.objects - lost))
  }

  lemma DamagedIsLossy(ports: Ports, w: World, lost: set<DumpId>)
    requires Reachable(ports, w)
    ensures var s := Damaged(w, lost);
            && References(s.ledger) && HandlesClosed(s.vault)
            && (forall id :: id in s.ledger.dumps ==> LossyRow(ports, s.ledger.dumps[id], s.vault, id))
            && (forall id :: id in s.ledger.dumps && !(id in lost && id in w.store.vault.objects) ==>
                  RowCoupled(ports, s.ledger.dumps[id], s.vault, id))
            && (forall id :: id in s.ledger.dumps && id in lost && id in w.store.vault.objects ==>
                  CoupledHolding(ports, s.ledger.dumps[id], s.vault, id, w.store.vault.objects[id]))
  {
    hide RowCoupled, CoupledHolding, LossyRow, Inv, Reachable;
    RestartedFacts(ports, w);
    var s, damaged := Restart(w).store, Damaged(w, lost);
    forall id | id in damaged.ledger.dumps
      ensures LossyRow(ports, damaged.ledger.dumps[id], damaged.vault, id)
      ensures !(id in lost && id in s.vault.objects) ==> RowCoupled(ports, damaged.ledger.dumps[id], damaged.vault, id)
      ensures id in lost && id in s.vault.objects ==>
                CoupledHolding(ports, damaged.ledger.dumps[id], damaged.vault, id, s.vault.objects[id])
    {
      DamagedRow(ports, s, damaged, id, lost);
    }
  }

  lemma RestartedFacts(ports: Ports, w: World)
    requires Reachable(ports, w)
    ensures var s := Restart(w).store;
            && References(s.ledger) && HandlesClosed(s.vault) && s.ledger == w.store.ledger && s.vault.objects == w.store.vault.objects
            && forall id :: id in s.ledger.dumps ==> RowCoupled(ports, s.ledger.dumps[id], s.vault, id)
  {
    hide RowCoupled;
    ReachableInv(ports, w);
    RestartKeepsInv(ports, w);
  }

  lemma SameEntry(ports: Ports, d: Dump, v: Vault, u: Vault, id: DumpId)
    requires (id in v.staging <==> id in u.staging) && (id in v.staging ==> v.staging[id] == u.staging[id])
    requires (id in v.objects <==> id in u.objects) && (id in v.objects ==> v.objects[id] == u.objects[id])
    ensures RowCoupled(ports, d, v, id) <==> RowCoupled(ports, d, u, id)
  {}

  lemma DamagedRow(ports: Ports, s: Store, damaged: Store, id: DumpId, lost: set<DumpId>)
    requires id in s.ledger.dumps && RowCoupled(ports, s.ledger.dumps[id], s.vault, id)
    requires damaged == s.(vault := s.vault.(objects := s.vault.objects - lost))
    ensures var d, v := s.ledger.dumps[id], damaged.vault;
            && LossyRow(ports, d, v, id)
            && (!(id in lost && id in s.vault.objects) ==> RowCoupled(ports, d, v, id))
            && (id in lost && id in s.vault.objects ==> CoupledHolding(ports, d, v, id, s.vault.objects[id]))
  {
    hide RowCoupled;
    var d, v := s.ledger.dumps[id], damaged.vault;
    if id in lost && id in s.vault.objects {
      SameEntry(ports, d, s.vault, v.(objects := v.objects[id := s.vault.objects[id]]), id);
      assert CoupledHolding(ports, d, v, id, s.vault.objects[id]);
    } else {
      SameEntry(ports, d, s.vault, v, id);
    }
  }

  /** Objects vanished behind the service's back: recovery still completes, every dump it leaves available holds exactly its
      sealed bytes, and it raises an alarm for exactly the sealed, quarantined and available dumps that lost theirs. */
  lemma RecoverySurvivesLoss(ports: Ports, w: World, lost: set<DumpId>, at: Time, now: int, grace: int)
    requires Reachable(ports, w)
    ensures var pass := Reconcile(ports, Damaged(w, lost), at, now, grace);
            && !pass.thrown
            && (forall id :: id in pass.store.ledger.dumps && pass.store.ledger.dumps[id].phase == Available ==>
                  SealedObject(ports, pass.store.ledger.dumps[id], pass.store.vault, id))
            && (forall id :: Report(id, IntegrityAlarm) in pass.actions <==>
                  && id in w.store.ledger.dumps && w.store.ledger.dumps[id].phase in {Sealed, Quarantined, Available}
                  && id in lost && id in w.store.vault.objects)
  {
    hide Reconcile, LossyRow, PaidIn, Reachable, RowCoupled, CoupledHolding, Damaged;
    var s := Damaged(w, lost);
    DamagedIsLossy(ports, w, lost);
    ReconcileSettles(ports, s, at, now, grace);
    RecoveryReports(ports, w, lost, at, now, grace);
    DamagedStore(w, lost);
    forall id | id in s.ledger.dumps
      ensures Alarming(s.ledger.dumps[id], s.vault, id) <==>
              s.ledger.dumps[id].phase in {Sealed, Quarantined, Available} && id in lost && id in w.store.vault.objects
    {
      AlarmIsLoss(ports, s, w.store.vault, id, lost);
    }
  }

  lemma DamagedStore(w: World, lost: set<DumpId>)
    ensures Damaged(w, lost).ledger == w.store.ledger && Damaged(w, lost).vault.objects == w.store.vault.objects - lost
  {}

  /** Among rows that were coupled before the loss, the lost ones are those with an alarm to raise. */
  lemma AlarmIsLoss(ports: Ports, s: Store, before: Vault, id: DumpId, lost: set<DumpId>)
    requires id in s.ledger.dumps && s.vault.objects == before.objects - lost
    requires !(id in lost && id in before.objects) ==> RowCoupled(ports, s.ledger.dumps[id], s.vault, id)
    requires id in lost && id in before.objects ==> CoupledHolding(ports, s.ledger.dumps[id], s.vault, id, before.objects[id])
    ensures Alarming(s.ledger.dumps[id], s.vault, id) <==>
            s.ledger.dumps[id].phase in {Sealed, Quarantined, Available} && id in lost && id in before.objects
  {}
}
