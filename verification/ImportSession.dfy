/** The stepwise import session and its one-shot composition, in place over an engine. */
module ImportSessions {
  import opened Domain
  import opened Vaults
  import opened Ledgers
  import opened Engines
  import opened Runs
  import opened TarArchive
  import opened Manifests
  import opened Exports
  import opened Imports

  datatype SessionPhase = NotBegun | Began | Completed | Abandoned

  /** One available dump streamed into staging, chunk by chunk, and closed. */
  method StreamIn(vault: MemoryVault, id: DumpId, chunks: seq<seq<byte>>, at: Time) returns (problem: Option<ErrorCode>)
    modifies vault
    ensures match old(vault.State()).CreateStaging(id, at)
            case Err(e) => problem == Some(e) && vault.State() == old(vault.State())
            case Ok(_) => problem.None? && vault.objects == old(vault.objects) &&
                          vault.staging == old(vault.staging)[id := StagingObject(chunks, at, false)]
  {
    var created := vault.CreateStaging(id, at);
    if created.Err? { return Some(created.code); }
    ghost var before := old(vault.staging);
    for k := 0 to |chunks|
      invariant vault.staging == before[id := StagingObject(chunks[..k], at, true)]
      invariant vault.objects == old(vault.objects)
    {
      var appended := vault.Append(id, chunks[k]);
      assert chunks[..k + 1] == chunks[..k] + [chunks[k]];
    }
    assert chunks[..|chunks|] == chunks;
    var closed := vault.SyncAndClose(id);
    problem := None;
  }

  method LandRow(engine: Engine, id: DumpId, row: Dump, at: Time, done: Disposition) returns (disposition: Disposition)
    modifies engine.ledger, engine.vault
    ensures var landed := Landed(old(engine.State()).Execute(engine.ports, ImportDump(id, row), at), done);
            engine.State() == landed.0 && disposition == landed.1
  {
    var receipt := engine.Execute(ImportDump(id, row), at);
    disposition := if receipt.Refused? then Failed(receipt.code) else done;
  }

  /** `stageDump`, after its guards. */
  method Stage(engine: Engine, id: DumpId, row: Dump, bytes: seq<byte>, at: Time) returns (disposition: Disposition)
    modifies engine.ledger, engine.vault
    ensures var staged := StageDump(engine.ports, old(engine.State()), id, row, Chunked(bytes), at);
            engine.State() == staged.0 && disposition == staged.1
  {
    hide Store.Execute, Chunked;
    var chunks := Chunked(bytes);
    if row.phase == Available {
      if row.byteSize.None? || row.sha256.None? { return Failed(IntegrityFailure); }
      if |bytes| != row.byteSize.value {
        disposition := LandRow(engine, id, MismatchRecord(row), at, Mismatch);
        return;
      }
      ghost var before := engine.vault.State();
      var problem := StreamIn(engine.vault, id, chunks, at);
      if problem.Some? { return Failed(problem.value); }
      if engine.ports.hash(bytes) != row.sha256.value {
        engine.vault.RemoveStaging(id);
        assert engine.vault.State() == before.RemoveStaging(id);
        disposition := LandRow(engine, id, MismatchRecord(row), at, Mismatch);
        return;
      }
      disposition := LandRow(engine, id, row, at, Staged);
    } else if row.phase == Rejected {
      disposition := LandRow(engine, id, row, at, TombstoneRejected);
    } else if row.phase == Deleted {
      disposition := LandRow(engine, id, row, at, TombstoneDeleted);
    } else {
      disposition := Failed(InvalidTransition);
    }
  }

  class ImportSession {
    const engine: Engine
    const bundle: Bundle
    const mismatch: bool
    const at: Time
    var phase: SessionPhase
    var importId: Option<EventId>
    var customers: set<CustomerId>
    var cases: set<CaseId>
    var grants: set<GrantId>
    var dumps: set<DumpId>

    constructor (engine: Engine, bundle: Bundle, mismatch: bool, at: Time)
      requires Opens(bundle)
      ensures this.engine == engine && this.bundle == bundle && this.mismatch == mismatch && this.at == at
      ensures phase == NotBegun && importId.None? && customers == {} && cases == {} && grants == {} && dumps == {}
    {
      this.engine, this.bundle, this.mismatch, this.at := engine, bundle, mismatch, at;
      phase, importId, customers, cases, grants, dumps := NotBegun, None, {}, {}, {}, {};
    }

    method Step(command: Command) returns (ok: bool)
      modifies engine.ledger, engine.vault
      ensures var (s, receipt) := old(engine.State()).Execute(engine.ports, command, at);
              engine.State() == s && ok == !receipt.Refused?
    {
      var receipt := engine.Execute(command, at);
      ok := !receipt.Refused?;
    }

    method Begin(digest: Digest) returns (ok: bool)
      modifies this, engine.ledger, engine.vault
      ensures ok <==> old(phase) == NotBegun &&
                      old(engine.State()).Execute(engine.ports, BeginImport(digest, bundle.manifest.counts), at).1.ImportBegun?
      ensures old(phase) != NotBegun ==> engine.State() == old(engine.State())
      ensures old(phase) == NotBegun ==>
                engine.State() == old(engine.State()).Execute(engine.ports, BeginImport(digest, bundle.manifest.counts), at).0
      ensures ok ==> phase == Began && importId.Some?
      ensures ok ==> old(engine.State()).Execute(engine.ports, BeginImport(digest, bundle.manifest.counts), at).1 == ImportBegun(importId.value)
      ensures !ok ==> phase == old(phase) && importId == old(importId)
      ensures customers == old(customers) && cases == old(cases) && grants == old(grants) && dumps == old(dumps)
    {
      hide Store.Execute;
      if phase != NotBegun { return false; }
      var receipt := engine.Execute(BeginImport(digest, bundle.manifest.counts), at);
      if !receipt.ImportBegun? { return false; }
      phase, importId := Began, Some(receipt.importId);
      ok := true;
    }

    method ImportCustomerRow(id: CustomerId) returns (ok: bool)
      modifies this`customers, engine.ledger, engine.vault
      ensures if phase == Began && id in bundle.rows.customers && id !in old(customers)
              then var (s, receipt) := old(engine.State()).Execute(engine.ports, ImportCustomer(id, bundle.rows.customers[id]), at);
                   engine.State() == s && ok == !receipt.Refused? && customers == old(customers) + if ok then {id} else {}
              else !ok && engine.State() == old(engine.State()) && customers == old(customers)
    {
      hide Store.Execute;
      if phase != Began || id !in bundle.rows.customers || id in customers { return false; }
      ok := Step(ImportCustomer(id, bundle.rows.customers[id]));
      if ok { customers := customers + {id}; }
    }

    method ImportCaseRow(id: CaseId) returns (ok: bool)
      modifies this`cases, engine.ledger, engine.vault
      ensures if phase == Began && id in bundle.rows.cases && id !in old(cases)
              then var (s, receipt) := old(engine.State()).Execute(engine.ports, ImportCase(id, bundle.rows.cases[id]), at);
                   engine.State() == s && ok == !receipt.Refused? && cases == old(cases) + if ok then {id} else {}
              else !ok && engine.State() == old(engine.State()) && cases == old(cases)
    {
      hide Store.Execute;
      if phase != Began || id !in bundle.rows.cases || id in cases { return false; }
      ok := Step(ImportCase(id, bundle.rows.cases[id]));
      if ok { cases := cases + {id}; }
    }

    method ImportGrantRow(id: GrantId) returns (ok: bool)
      modifies this`grants, engine.ledger, engine.vault
      ensures if phase == Began && id in bundle.rows.grants && id !in old(grants)
              then var (s, receipt) := old(engine.State()).Execute(engine.ports, ImportGrant(id, bundle.rows.grants[id], mismatch), at);
                   engine.State() == s && ok == !receipt.Refused? && grants == old(grants) + if ok then {id} else {}
              else !ok && engine.State() == old(engine.State()) && grants == old(grants)
    {
      hide Store.Execute;
      if phase != Began || id !in bundle.rows.grants || id in grants { return false; }
      ok := Step(ImportGrant(id, bundle.rows.grants[id], mismatch));
      if ok { grants := grants + {id}; }
    }

    method StageRow(id: DumpId) returns (disposition: Disposition)
      modifies this`dumps, engine.ledger, engine.vault
      ensures if phase == Began && id in DeclaredIds(bundle.manifest) && id in bundle.rows.dumps && id !in old(dumps)
              then var (s, expected) := StageDump(engine.ports, old(engine.State()), id, bundle.rows.dumps[id], Chunked(FileOf(bundle, id)), at);
                   engine.State() == s && disposition == expected && dumps == old(dumps) + if expected.Failed? then {} else {id}
              else disposition.Failed? && engine.State() == old(engine.State()) && dumps == old(dumps)
    {
      hide StageDump;
      if phase != Began { return Failed(InvalidTransition); }
      if id !in DeclaredIds(bundle.manifest) || id in dumps { return Failed(InvalidInput); }
      if id !in bundle.rows.dumps { return Failed(IntegrityFailure); }
      disposition := Stage(engine, id, bundle.rows.dumps[id], FileOf(bundle, id), at);
      if !disposition.Failed? { dumps := dumps + {id}; }
    }

    predicate EverythingStepped()
      reads this
    {
      && |customers| == |bundle.rows.customers| && |cases| == |bundle.rows.cases| && |grants| == |bundle.rows.grants|
      && |dumps| == |DeclaredIds(bundle.manifest)|
    }

    /** Replays the history and writes FinishImport, once every declared row has been stepped. */
    method Finish() returns (ok: bool)
      modifies this`phase, engine.ledger, engine.vault
      ensures if old(phase) == Began && EverythingStepped() && importId.Some?
              then var (s, finished) := RunAll(engine.ports, old(engine.State()), FinishSteps(bundle, importId.value), at);
                   engine.State() == s && ok == finished && phase == if ok then Completed else Began
              else !ok && engine.State() == old(engine.State()) && phase == old(phase)
    {
      hide Store.Execute;
      if phase != Began || !EverythingStepped() || importId.None? { return false; }
      var declared := DeclaredIds(bundle.manifest);
      var imported := 0;
      ghost var s := engine.State();
      ghost var events := Kept(bundle.rows.audit, declared);
      ghost var last := FinishImport(importId.value, Summary(bundle, |events|), |bundle.manifest.skipped|);
      ghost var steps := ReplaySteps(events) + [last];
      assert bundle.rows.audit[0..] == bundle.rows.audit;
      for k := 0 to |bundle.rows.audit|
        invariant imported + |Kept(bundle.rows.audit[k..], declared)| == |events|
        invariant RunAll(engine.ports, s, steps, at) ==
                  RunAll(engine.ports, engine.State(), ReplaySteps(Kept(bundle.rows.audit[k..], declared)) + [last], at)
        invariant phase == Began && importId == old(importId)
      {
        var e := bundle.rows.audit[k];
        assert bundle.rows.audit[k..][0] == e && bundle.rows.audit[k..][1..] == bundle.rows.audit[k + 1..];
        ghost var rest := Kept(bundle.rows.audit[k + 1..], declared);
        assert Kept(bundle.rows.audit[k..], declared) == (if Travels(e, declared) then [e] else []) + rest;
        assert [] + rest == rest;
        if Travels(e, declared) {
          FirstReplayed(engine.ports, engine.State(), e, rest, last, at);
          var landed := Step(ImportAuditEvent(e));
          if !landed { return false; }
          imported := imported + 1;
        }
      }
      assert ReplaySteps([]) + [last] == [last] && [last][1..] == [];
      ok := Step(FinishImport(importId.value, Summary(bundle, imported), |bundle.manifest.skipped|));
      if ok { phase := Completed; }
    }

    method Abandon()
      modifies this`phase
      ensures phase == if old(phase) == Completed then Completed else Abandoned
    {
      if phase != Completed { phase := Abandoned; }
    }
  }

  lemma FirstReplayed(ports: Ports, s: Store, e: AuditEvent, rest: seq<AuditEvent>, last: Command, at: Time)
    ensures var steps := ReplaySteps([e] + rest) + [last];
            var (t, receipt) := s.Execute(ports, ImportAuditEvent(e), at);
            RunAll(ports, s, steps, at) == if receipt.Refused? then (t, false) else RunAll(ports, t, ReplaySteps(rest) + [last], at)
  {
    hide Store.Execute;
    assert ([e] + rest)[1..] == rest;
    var steps := ReplaySteps([e] + rest) + [last];
    assert steps[0] == ImportAuditEvent(e) && steps[1..] == ReplaySteps(rest) + [last];
  }

  lemma NoSteps(ports: Ports, s: Store, rows: Ledger, at: Time)
    ensures RunAll(ports, s, CustomerSteps(rows, []), at) == (s, true)
    ensures RunAll(ports, s, CaseSteps(rows, []), at) == (s, true)
    ensures forall mismatch :: RunAll(ports, s, GrantSteps(rows, [], mismatch), at) == (s, true)
  {}

  lemma CustomerStep(ports: Ports, s: Store, rows: Ledger, ids: seq<CustomerId>, k: nat, at: Time)
    requires k < |ids| && forall id :: id in ids ==> id in rows.customers
    ensures var (t, receipt) := s.Execute(ports, ImportCustomer(ids[k], rows.customers[ids[k]]), at);
            RunAll(ports, s, CustomerSteps(rows, ids[k..]), at) ==
            if receipt.Refused? then (t, false) else RunAll(ports, t, CustomerSteps(rows, ids[k + 1..]), at)
  {
    hide Store.Execute;
    assert ids[k..][1..] == ids[k + 1..];
    assert CustomerSteps(rows, ids[k..])[1..] == CustomerSteps(rows, ids[k + 1..]);
  }

  method ImportCustomers(session: ImportSession) returns (ok: bool)
    requires session.phase == Began && session.customers == {}
    modifies session`customers, session.engine.ledger, session.engine.vault
    ensures var ids := SortedIds(session.bundle.rows.customers.Keys);
            var ran := RunAll(session.engine.ports, old(session.engine.State()), CustomerSteps(session.bundle.rows, ids), session.at);
            session.engine.State() == ran.0 && ok == ran.1
    ensures ok ==> session.customers == session.bundle.rows.customers.Keys
  {
    hide Store.Execute, RunAll, CustomerSteps, SortedIds;
    var rows := session.bundle.rows;
    var ids := SortedIds(rows.customers.Keys);
    ghost var s := session.engine.State();
    assert ids[0..] == ids;
    for k := 0 to |ids|
      invariant session.phase == Began && forall id :: id in session.customers <==> id in ids[..k]
      invariant RunAll(session.engine.ports, s, CustomerSteps(rows, ids), session.at) ==
                RunAll(session.engine.ports, session.engine.State(), CustomerSteps(rows, ids[k..]), session.at)
    {
      assert ids[..k + 1] == ids[..k] + [ids[k]];
      CustomerStep(session.engine.ports, session.engine.State(), rows, ids, k, session.at);
      var landed := session.ImportCustomerRow(ids[k]);
      if !landed { return false; }
    }
    assert ids[|ids|..] == [] && ids[..|ids|] == ids;
    NoSteps(session.engine.ports, session.engine.State(), rows, session.at);
    ok := true;
  }

  lemma CaseStep(ports: Ports, s: Store, rows: Ledger, ids: seq<CaseId>, k: nat, at: Time)
    requires k < |ids| && forall id :: id in ids ==> id in rows.cases
    ensures var (t, receipt) := s.Execute(ports, ImportCase(ids[k], rows.cases[ids[k]]), at);
            RunAll(ports, s, CaseSteps(rows, ids[k..]), at) ==
            if receipt.Refused? then (t, false) else RunAll(ports, t, CaseSteps(rows, ids[k + 1..]), at)
  {
    hide Store.Execute;
    assert ids[k..][1..] == ids[k + 1..];
    assert CaseSteps(rows, ids[k..])[1..] == CaseSteps(rows, ids[k + 1..]);
  }

  method ImportCases(session: ImportSession) returns (ok: bool)
    requires session.phase == Began && session.cases == {}
    modifies session`cases, session.engine.ledger, session.engine.vault
    ensures var ids := SortedIds(session.bundle.rows.cases.Keys);
            var ran := RunAll(session.engine.ports, old(session.engine.State()), CaseSteps(session.bundle.rows, ids), session.at);
            session.engine.State() == ran.0 && ok == ran.1
    ensures ok ==> session.cases == session.bundle.rows.cases.Keys
  {
    hide Store.Execute, RunAll, CaseSteps, SortedIds;
    var rows := session.bundle.rows;
    var ids := SortedIds(rows.cases.Keys);
    ghost var s := session.engine.State();
    assert ids[0..] == ids;
    for k := 0 to |ids|
      invariant session.phase == Began && forall id :: id in session.cases <==> id in ids[..k]
      invariant RunAll(session.engine.ports, s, CaseSteps(rows, ids), session.at) ==
                RunAll(session.engine.ports, session.engine.State(), CaseSteps(rows, ids[k..]), session.at)
    {
      assert ids[..k + 1] == ids[..k] + [ids[k]];
      CaseStep(session.engine.ports, session.engine.State(), rows, ids, k, session.at);
      var landed := session.ImportCaseRow(ids[k]);
      if !landed { return false; }
    }
    assert ids[|ids|..] == [] && ids[..|ids|] == ids;
    NoSteps(session.engine.ports, session.engine.State(), rows, session.at);
    ok := true;
  }

  lemma GrantStep(ports: Ports, s: Store, rows: Ledger, ids: seq<GrantId>, k: nat, mismatch: bool, at: Time)
    requires k < |ids| && forall id :: id in ids ==> id in rows.grants
    ensures var (t, receipt) := s.Execute(ports, ImportGrant(ids[k], rows.grants[ids[k]], mismatch), at);
            RunAll(ports, s, GrantSteps(rows, ids[k..], mismatch), at) ==
            if receipt.Refused? then (t, false) else RunAll(ports, t, GrantSteps(rows, ids[k + 1..], mismatch), at)
  {
    hide Store.Execute;
    assert ids[k..][1..] == ids[k + 1..];
    assert GrantSteps(rows, ids[k..], mismatch)[1..] == GrantSteps(rows, ids[k + 1..], mismatch);
  }

  method ImportGrants(session: ImportSession) returns (ok: bool)
    requires session.phase == Began && session.grants == {}
    modifies session`grants, session.engine.ledger, session.engine.vault
    ensures var ids := SortedIds(session.bundle.rows.grants.Keys);
            var ran := RunAll(session.engine.ports, old(session.engine.State()), GrantSteps(session.bundle.rows, ids, session.mismatch), session.at);
            session.engine.State() == ran.0 && ok == ran.1
    ensures ok ==> session.grants == session.bundle.rows.grants.Keys
  {
    hide Store.Execute, RunAll, GrantSteps, SortedIds;
    var rows := session.bundle.rows;
    var ids := SortedIds(rows.grants.Keys);
    ghost var s := session.engine.State();
    assert ids[0..] == ids;
    for k := 0 to |ids|
      invariant session.phase == Began && forall id :: id in session.grants <==> id in ids[..k]
      invariant RunAll(session.engine.ports, s, GrantSteps(rows, ids, session.mismatch), session.at) ==
                RunAll(session.engine.ports, session.engine.State(), GrantSteps(rows, ids[k..], session.mismatch), session.at)
    {
      assert ids[..k + 1] == ids[..k] + [ids[k]];
      GrantStep(session.engine.ports, session.engine.State(), rows, ids, k, session.mismatch, session.at);
      var landed := session.ImportGrantRow(ids[k]);
      if !landed { return false; }
    }
    assert ids[|ids|..] == [] && ids[..|ids|] == ids;
    NoSteps(session.engine.ports, session.engine.State(), rows, session.at);
    ok := true;
  }

  method JudgeRow(engine: Engine, id: DumpId, at: Time) returns (landing: Landing)
    modifies engine.ledger, engine.vault
    ensures var judged := JudgeStaged(engine.ports, old(engine.State()), id, at);
            engine.State() == judged.0 && landing == judged.1
  {
    hide Store.PromoteObject, Store.MarkQuarantined, Store.AcceptDump, Store.RejectDump;
    var promoted := engine.PromoteObject(id, at);
    if promoted.Refused? { return Stuck; }
    var marked := engine.MarkQuarantined(id, at);
    if marked.Refused? { return Stuck; }
    var accepted := engine.AcceptDump(id, at);
    if !accepted.Refused? { return Verified(true); }
    if accepted.code != InspectionOutcomeMismatch { return Stuck; }
    var rejected := engine.RejectDump(id, at);
    landing := if rejected.Refused? then Stuck else Verified(false);
  }

  method LandRowOf(session: ImportSession, id: DumpId) returns (landing: Landing)
    requires session.phase == Began && id in session.bundle.rows.dumps && id in DeclaredIds(session.bundle.manifest) && id !in session.dumps
    modifies session`dumps, session.engine.ledger, session.engine.vault
    ensures var landed := LandDump(session.engine.ports, old(session.engine.State()), id, session.bundle.rows.dumps[id],
                                   FileOf(session.bundle, id), session.at);
            session.engine.State() == landed.0 && landing == landed.1
    ensures !landing.Stuck? ==> session.dumps == old(session.dumps) + {id}
  {
    hide StageDump, JudgeStaged;
    var disposition := session.StageRow(id);
    match disposition
    case Staged => landing := JudgeRow(session.engine, id, session.at);
    case Mismatch => landing := Mismatched;
    case TombstoneRejected => landing := Tombstoned(false);
    case TombstoneDeleted => landing := Tombstoned(true);
    case Failed(_) => landing := Stuck;
  }

  lemma LandStep(ports: Ports, s: Store, b: Bundle, ids: seq<DumpId>, k: nat, tally: Tally, at: Time)
    requires k < |ids| && forall id :: id in ids ==> id in b.rows.dumps
    ensures LandAll(ports, s, b, ids[k..], tally, at) ==
            if ids[k] !in DeclaredIds(b.manifest) then LandAll(ports, s, b, ids[k + 1..], tally, at)
            else
              var (t, landing) := LandDump(ports, s, ids[k], b.rows.dumps[ids[k]], FileOf(b, ids[k]), at);
              if landing.Stuck? then LandedRows(t, tally, false) else LandAll(ports, t, b, ids[k + 1..], tally.After(landing), at)
  {
    hide LandDump, DeclaredIds;
    assert ids[k..][1..] == ids[k + 1..];
  }

  lemma NothingLeft(ports: Ports, s: Store, b: Bundle, tally: Tally, at: Time)
    ensures LandAll(ports, s, b, [], tally, at) == LandedRows(s, tally, true)
  {}

  method LandDumps(session: ImportSession) returns (ok: bool, tally: Tally)
    requires session.phase == Began && session.dumps == {}
    modifies session`dumps, session.engine.ledger, session.engine.vault
    ensures var landed := LandAll(session.engine.ports, old(session.engine.State()), session.bundle,
                                  SortedIds(session.bundle.rows.dumps.Keys), Tally(0, 0, 0), session.at);
            session.engine.State() == landed.store && tally == landed.tally && ok == landed.ok
    ensures ok ==> session.dumps == session.bundle.rows.dumps.Keys * DeclaredIds(session.bundle.manifest)
  {
    hide LandDump, DeclaredIds, LandAll, SortedIds;
    var b := session.bundle;
    var ids := SortedIds(b.rows.dumps.Keys);
    tally := Tally(0, 0, 0);
    ghost var s := session.engine.State();
    assert ids[0..] == ids;
    for k := 0 to |ids|
      invariant session.phase == Began
      invariant forall id :: id in session.dumps <==> id in ids[..k] && id in DeclaredIds(b.manifest)
      invariant LandAll(session.engine.ports, s, b, ids, Tally(0, 0, 0), session.at) ==
                LandAll(session.engine.ports, session.engine.State(), b, ids[k..], tally, session.at)
    {
      assert ids[..k + 1] == ids[..k] + [ids[k]];
      LandStep(session.engine.ports, session.engine.State(), b, ids, k, tally, session.at);
      if ids[k] in DeclaredIds(b.manifest) {
        var landing := LandRowOf(session, ids[k]);
        if landing.Stuck? { return false, tally; }
        tally := tally.After(landing);
      }
    }
    assert ids[|ids|..] == [] && ids[..|ids|] == ids;
    NothingLeft(session.engine.ports, session.engine.State(), b, tally, session.at);
    ok := true;
  }

  method ImportEntities(session: ImportSession) returns (ok: bool)
    requires session.phase == Began && session.customers == {} && session.cases == {} && session.grants == {}
    modifies session`customers, session`cases, session`grants, session.engine.ledger, session.engine.vault
    ensures var ran := ImportRows(session.engine.ports, old(session.engine.State()), session.bundle, session.mismatch, session.at);
            session.engine.State() == ran.0 && ok == ran.1
    ensures ok ==> session.customers == session.bundle.rows.customers.Keys
    ensures ok ==> session.cases == session.bundle.rows.cases.Keys
    ensures ok ==> session.grants == session.bundle.rows.grants.Keys
  {
    hide RunAll, CustomerSteps, CaseSteps, GrantSteps, SortedIds;
    ok := ImportCustomers(session);
    if !ok { return; }
    ok := ImportCases(session);
    if !ok { return; }
    ok := ImportGrants(session);
  }

  lemma AllStepped(session: ImportSession)
    requires session.customers == session.bundle.rows.customers.Keys && session.cases == session.bundle.rows.cases.Keys
    requires session.grants == session.bundle.rows.grants.Keys && session.dumps == DeclaredIds(session.bundle.manifest)
    ensures session.EverythingStepped()
  {
    hide DeclaredIds;
  }

  /** `importBundle`: every gate, then the steps in order; a failure after BeginImport never reaches FinishImport. */
  method ImportBundle(engine: Engine, bundle: Bundle, digest: Digest, mismatch: bool, at: Time)
    returns (finished: bool, tally: Tally, skipped: nat)
    modifies engine.ledger, engine.vault
    ensures var outcome := Import(engine.ports, old(engine.State()), bundle, digest, mismatch, at);
            && engine.State() == outcome.store && finished == outcome.Finished?
            && (finished ==> tally == outcome.tally && skipped == outcome.skipped)
  {
    hide Store.Execute, RunAll, LandAll, ImportRows, FinishSteps, Opens, DeclaredIds, SortedIds;
    tally, skipped := Tally(0, 0, 0), 0;
    if !Opens(bundle) { return false, tally, skipped; }
    var session := new ImportSession(engine, bundle, mismatch, at);
    skipped := |bundle.manifest.skipped|;
    var begun := session.Begin(digest);
    if !begun { return false, tally, skipped; }
    var ok := ImportEntities(session);
    if !ok { return false, tally, skipped; }
    ok, tally := LandDumps(session);
    if !ok { return false, tally, skipped; }
    DeclaredAreRows(bundle);
    assert session.EverythingStepped() by { AllStepped(session); }
    finished := session.Finish();
  }

  lemma DeclaredAreRows(b: Bundle)
    requires Opens(b)
    ensures b.rows.dumps.Keys * DeclaredIds(b.manifest) == DeclaredIds(b.manifest)
  {
    forall k | 0 <= k < |b.manifest.dumps| ensures b.manifest.dumps[k].dumpId in b.rows.dumps {
      assert DeclarationAgrees(b, b.manifest.dumps[k]);
    }
  }
}
