/** Startup reconciliation: the per-phase decision over ledger phase and vault presence.
    From any crash it settles every dump without an alarm, and a second pass does nothing. */
module Recovery {
  import opened Domain
  import opened Vaults
  import opened Ledgers
  import opened Engines
  import opened Runs

  datatype Outcome = BecameAvailable | BecameRejected | FinishedDelete | UploadFailed | OrphanRemoved | IntegrityAlarm

  datatype Report = Report(dumpId: DumpId, outcome: Outcome)

  /** One dump's recovery: the new store and report, or the error that `requireSuccess` throws. */
  datatype Recovered = Recovered(store: Store, outcome: Option<Outcome>) | Thrown(store: Store)

  function AcceptOrReject(ports: Ports, s: Store, id: DumpId, at: Time): Recovered {
    var (accepted, a) := s.AcceptDump(ports, id, at);
    if !a.Refused? then Recovered(accepted, Some(BecameAvailable))
    else if a.code != InspectionOutcomeMismatch then Thrown(accepted)
    else
      var (rejected, r) := accepted.RejectDump(ports, id, at);
      if r.Refused? then Thrown(rejected) else Recovered(rejected, Some(BecameRejected))
  }

  function ResumeSealed(ports: Ports, s: Store, id: DumpId, at: Time): Recovered {
    var (marked, m) := s.MarkQuarantined(id, at);
    if m.Refused? then Thrown(marked) else AcceptOrReject(ports, marked, id, at)
  }

  function RecoverDump(ports: Ports, s: Store, id: DumpId, d: Dump, at: Time): Recovered {
    var presence := s.vault.Inspect(id);
    match d.phase
    case Receiving =>
      var (failed, f) := s.(vault := s.vault.RemoveStaging(id)).FailUpload(id, at);
      if f.Refused? then Thrown(failed) else Recovered(failed, Some(UploadFailed))
    case Sealed =>
      if presence.staging == presence.vault then Recovered(s, Some(IntegrityAlarm))
      else if d.blob == InStaging then
        var (promoted, p) := s.PromoteObject(id, at);
        if p.Refused? then Thrown(promoted) else ResumeSealed(ports, promoted, id, at)
      else if d.blob != InVault || !presence.vault then Recovered(s, Some(IntegrityAlarm))
      else ResumeSealed(ports, s, id, at)
    case Quarantined =>
      if !presence.vault then Recovered(s, Some(IntegrityAlarm)) else AcceptOrReject(ports, s, id, at)
    case Available =>
      if presence.vault then Recovered(s, None)
      else
        var (begun, b) := s.BeginPurge(id, at);
        if b.Refused? then Thrown(begun)
        else
          var (finished, f) := begun.FinishPurge(id, at);
          if f.Refused? then Thrown(finished) else Recovered(finished, Some(IntegrityAlarm))
    case Rejected =>
      if presence.staging then Recovered(s.(vault := s.vault.RemoveStaging(id)), Some(BecameRejected)) else Recovered(s, None)
    case Deleting =>
      var (finished, f) := s.FinishPurge(id, at);
      if f.Refused? then Thrown(finished) else Recovered(finished, Some(FinishedDelete))
    case Deleted =>
      if presence.staging || presence.vault then Recovered(s.(vault := s.vault.Remove(id)), Some(IntegrityAlarm))
      else Recovered(s, None)
  }

  datatype Pass = Pass(store: Store, actions: seq<Report>, thrown: bool)

  function Reported(id: DumpId, outcome: Option<Outcome>): seq<Report> {
    if outcome.Some? then [Report(id, outcome.value)] else []
  }

  function RecoverDumps(ports: Ports, s: Store, ids: seq<DumpId>, snapshot: map<DumpId, Dump>, at: Time): Pass
    requires forall id :: id in ids ==> id in snapshot
    decreases |ids|
  {
    if ids == [] then Pass(s, [], false)
    else
      match RecoverDump(ports, s, ids[0], snapshot[ids[0]], at)
      case Thrown(t) => Pass(t, [], true)
      case Recovered(t, outcome) =>
        var rest := RecoverDumps(ports, t, ids[1..], snapshot, at);
        rest.(actions := Reported(ids[0], outcome) + rest.actions)
  }

  predicate Aged(v: Vault, id: DumpId, now: int, grace: int)
    requires id in v.staging
  {
    now - v.staging[id].createdAt >= grace
  }

  predicate Doomed(v: Vault, id: DumpId, known: set<DumpId>, now: int, grace: int) {
    id !in known && id in v.staging && Aged(v, id, now, grace)
  }

  function SweepOne(v: Vault, id: DumpId, known: set<DumpId>, now: int, grace: int): (Vault, Option<Outcome>) {
    if Doomed(v, id, known, now, grace) then (v.RemoveStaging(id), Some(OrphanRemoved)) else (v, None)
  }

  function RemoveOrphans(v: Vault, ids: seq<DumpId>, known: set<DumpId>, now: int, grace: int): (Vault, seq<Report>)
    decreases |ids|
  {
    if ids == [] then (v, [])
    else
      var (swept, outcome) := SweepOne(v, ids[0], known, now, grace);
      var (rest, actions) := RemoveOrphans(swept, ids[1..], known, now, grace);
      (rest, Reported(ids[0], outcome) + actions)
  }

  function Reconcile(ports: Ports, s: Store, at: Time, now: int, grace: int): Pass {
    var snapshot := s.ledger.dumps;
    var (swept, removed) := RemoveOrphans(s.vault, SortedIds(s.vault.staging.Keys), snapshot.Keys, now, grace);
    var pass := RecoverDumps(ports, s.(vault := swept), SortedIds(snapshot.Keys), snapshot, at);
    pass.(actions := removed + pass.actions)
  }

  method InspectQuarantined(engine: Engine, id: DumpId, at: Time) returns (thrown: bool, outcome: Outcome)
    modifies engine.ledger, engine.vault
    ensures match AcceptOrReject(engine.ports, old(engine.State()), id, at)
            case Recovered(t, o) => !thrown && engine.State() == t && o == Some(outcome)
            case Thrown(t) => thrown && engine.State() == t
  {
    thrown, outcome := false, BecameAvailable;
    var accepted := engine.AcceptDump(id, at);
    if !accepted.Refused? { return; }
    if accepted.code != InspectionOutcomeMismatch { thrown := true; return; }
    var rejected := engine.RejectDump(id, at);
    thrown, outcome := rejected.Refused?, BecameRejected;
  }

  method RecoverSealed(engine: Engine, id: DumpId, d: Dump, at: Time) returns (thrown: bool, outcome: Option<Outcome>)
    requires d.phase == Sealed
    modifies engine.ledger, engine.vault
    ensures match RecoverDump(engine.ports, old(engine.State()), id, d, at)
            case Recovered(t, o) => !thrown && engine.State() == t && o == outcome
            case Thrown(t) => thrown && engine.State() == t
  {
    var staged, stored := id in engine.vault.staging, id in engine.vault.objects;
    if staged == stored { return false, Some(IntegrityAlarm); }
    if d.blob == InStaging {
      var promoted := engine.PromoteObject(id, at);
      if promoted.Refused? { return true, None; }
    } else if d.blob != InVault || !stored {
      return false, Some(IntegrityAlarm);
    }
    var marked := engine.MarkQuarantined(id, at);
    if marked.Refused? { return true, None; }
    var result: Outcome;
    thrown, result := InspectQuarantined(engine, id, at);
    outcome := Some(result);
  }

  method FailInterrupted(engine: Engine, id: DumpId, d: Dump, at: Time) returns (thrown: bool, outcome: Option<Outcome>)
    requires d.phase == Receiving
    modifies engine.ledger, engine.vault
    ensures match RecoverDump(engine.ports, old(engine.State()), id, d, at)
            case Recovered(t, o) => !thrown && engine.State() == t && o == outcome
            case Thrown(t) => thrown && engine.State() == t
  {
    engine.vault.RemoveStaging(id);
    var failed := engine.FailUpload(id, at);
    thrown, outcome := failed.Refused?, Some(UploadFailed);
  }

  method TombstoneMissing(engine: Engine, id: DumpId, d: Dump, at: Time) returns (thrown: bool, outcome: Option<Outcome>)
    requires d.phase == Available
    modifies engine.ledger, engine.vault
    ensures match RecoverDump(engine.ports, old(engine.State()), id, d, at)
            case Recovered(t, o) => !thrown && engine.State() == t && o == outcome
            case Thrown(t) => thrown && engine.State() == t
  {
    if id in engine.vault.objects { return false, None; }
    var begun := engine.BeginPurge(id, at);
    if begun.Refused? { return true, None; }
    var finished := engine.FinishPurge(id, at);
    thrown, outcome := finished.Refused?, Some(IntegrityAlarm);
  }

  method RecoverOne(engine: Engine, id: DumpId, d: Dump, at: Time) returns (thrown: bool, outcome: Option<Outcome>)
    modifies engine.ledger, engine.vault
    ensures match RecoverDump(engine.ports, old(engine.State()), id, d, at)
            case Recovered(t, o) => !thrown && engine.State() == t && o == outcome
            case Thrown(t) => thrown && engine.State() == t
  {
    thrown, outcome := false, None;
    match d.phase {
      case Receiving => thrown, outcome := FailInterrupted(engine, id, d, at);
      case Sealed => thrown, outcome := RecoverSealed(engine, id, d, at);
      case Quarantined =>
        if id !in engine.vault.objects { return false, Some(IntegrityAlarm); }
        var result: Outcome;
        thrown, result := InspectQuarantined(engine, id, at);
        outcome := Some(result);
      case Available => thrown, outcome := TombstoneMissing(engine, id, d, at);
      case Rejected =>
        if id in engine.vault.staging {
          engine.vault.RemoveStaging(id);
          outcome := Some(BecameRejected);
        }
      case Deleting =>
        var finished := engine.FinishPurge(id, at);
        thrown, outcome := finished.Refused?, Some(FinishedDelete);
      case Deleted =>
        if id in engine.vault.staging || id in engine.vault.objects {
          engine.vault.Remove(id);
          outcome := Some(IntegrityAlarm);
        }
    }
  }

  method SweepOrphans(vault: MemoryVault, orphans: seq<DumpId>, known: set<DumpId>, now: int, grace: int)
    returns (actions: seq<Report>)
    modifies vault
    ensures var (swept, expected) := RemoveOrphans(old(vault.State()), orphans, known, now, grace);
            vault.State() == swept && actions == expected
  {
    actions := [];
    ghost var sweep := RemoveOrphans(vault.State(), orphans, known, now, grace);
    assert orphans[0..] == orphans;
    for k := 0 to |orphans|
      invariant var (v, rest) := RemoveOrphans(vault.State(), orphans[k..], known, now, grace);
                sweep.0 == v && sweep.1 == actions + rest
    {
      var id := orphans[k];
      assert orphans[k..][0] == id && orphans[k..][1..] == orphans[k + 1..];
      ghost var (swept, expected) := SweepOne(vault.State(), id, known, now, grace);
      var outcome: Option<Outcome> := None;
      if id !in known && id in vault.staging && now - vault.staging[id].createdAt >= grace {
        vault.RemoveStaging(id);
        outcome := Some(OrphanRemoved);
      }
      assert vault.State() == swept && outcome == expected;
      actions := actions + Reported(id, outcome);
    }
    assert orphans[|orphans|..] == [];
    assert actions + [] == actions;
  }

  method RecoverEach(engine: Engine, ids: seq<DumpId>, snapshot: map<DumpId, Dump>, at: Time) returns (pass: Pass)
    requires forall id :: id in ids ==> id in snapshot
    modifies engine.ledger, engine.vault
    ensures pass == RecoverDumps(engine.ports, old(engine.State()), ids, snapshot, at)
    ensures engine.State() == pass.store
  {
    var actions: seq<Report> := [];
    ghost var whole := RecoverDumps(engine.ports, engine.State(), ids, snapshot, at);
    assert ids[0..] == ids;
    for k := 0 to |ids|
      invariant var rest := RecoverDumps(engine.ports, engine.State(), ids[k..], snapshot, at);
                whole.store == rest.store && whole.thrown == rest.thrown && whole.actions == actions + rest.actions
    {
      var id := ids[k];
      assert ids[k..][0] == id && ids[k..][1..] == ids[k + 1..];
      var thrown, outcome := RecoverOne(engine, id, snapshot[id], at);
      if thrown { return Pass(engine.State(), actions, true); }
      actions := actions + Reported(id, outcome);
    }
    pass := Pass(engine.State(), actions, false);
  }

  /** `reconcile`: sweep aged unreferenced staging, then settle every dump of the initial snapshot in id order. */
  method ReconcileAll(engine: Engine, at: Time, now: int, grace: int) returns (pass: Pass)
    modifies engine.ledger, engine.vault
    ensures pass == Reconcile(engine.ports, old(engine.State()), at, now, grace)
    ensures engine.State() == pass.store
  {
    var initial := engine.ledger.dumps;
    var removed := SweepOrphans(engine.vault, SortedIds(engine.vault.staging.Keys), initial.Keys, now, grace);
    pass := RecoverEach(engine, SortedIds(initial.Keys), initial, at);
    pass := pass.(actions := removed + pass.actions);
  }
}
