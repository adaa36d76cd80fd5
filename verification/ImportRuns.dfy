/** An import is a run of the instance it fills: whatever it leaves, finished or not, is a reachable world, so every invariant
    of runs holds of it, it recovers from a crash, and it can be exported in turn. */
module ImportRuns {
  import opened Domain
  import opened Vaults
  import opened Ledgers
  import opened Engines
  import opened Coupling
  import opened History
  import opened Runs
  import opened Safety
  import opened Restarts
  import opened TarArchive
  import opened Manifests
  import opened Exports
  import opened Imports
  import opened Restore
  import opened Restoration

  /** The commands an import runs after its marker. */
  predicate ImportStep(c: Command, origin: nat) {
    && (c.ImportCustomer? || c.ImportCase? || c.ImportGrant? || c.ImportAuditEvent? || c.FinishImport?
        || c.PromoteObject? || c.MarkQuarantined? || c.AcceptDump? || c.RejectDump?)
    && (c.ImportAuditEvent? ==> c.event.eventId.origin != origin)
    && (c.FinishImport? ==> c.importId == EventId(origin, 0))
  }

  predicate ImportAct(act: Act, origin: nat) {
    act.StageImport? || (act.Run? && ImportStep(act.command, origin))
  }

  predicate AllImport(acts: seq<Act>, origin: nat) {
    forall k :: 0 <= k < |acts| ==> ImportAct(acts[k], origin)
  }

  predicate AllSteps(commands: seq<Command>, origin: nat) {
    forall k :: 0 <= k < |commands| ==> ImportStep(commands[k], origin)
  }

  lemma OneAct(ports: Ports, w: World, act: Act)
    requires act.Enabled(w)
    ensures Reaches(ports, w, [act], act.Next(ports, w))
  {
    ReachesStep(ports, w, act, [], act.Next(ports, w));
  }

  lemma StepRuns(ports: Ports, w: World, c: Command, at: Time)
    requires ImportStep(c, w.store.ledger.origin)
    ensures var end := Holding(w, w.store.Execute(ports, c, at).0);
            Reaches(ports, w, [Run(c, at)], end) && end.store.ledger.origin == w.store.ledger.origin
            && AllImport([Run(c, at)], w.store.ledger.origin)
  {
    hide Store.Execute, Reaches;
    OneAct(ports, w, Run(c, at));
    ExecuteLater(ports, w.store, c, at);
  }

  lemma ActsJoin(first: seq<Act>, second: seq<Act>, origin: nat)
    requires AllImport(first, origin) && AllImport(second, origin)
    ensures AllImport(first + second, origin)
  {}

  lemma {:induction false} CommandsAreRun(ports: Ports, w: World, commands: seq<Command>, at: Time) returns (acts: seq<Act>)
    requires AllSteps(commands, w.store.ledger.origin)
    ensures var end := Holding(w, RunAll(ports, w.store, commands, at).0);
            && Reaches(ports, w, acts, end) && AllImport(acts, w.store.ledger.origin)
            && end.store.ledger.origin == w.store.ledger.origin
    decreases |commands|
  {
    hide Store.Execute, ImportStep;
    acts := [];
    if commands == [] {
      assert Holding(w, w.store) == w;
    } else {
      var (t, receipt) := w.store.Execute(ports, commands[0], at);
      var next := Holding(w, t);
      StepRuns(ports, w, commands[0], at);
      acts := [Run(commands[0], at)];
      if !receipt.Refused? {
        var rest := CommandsAreRun(ports, next, commands[1..], at);
        ReachesJoin(ports, w, acts, next, rest, Holding(next, RunAll(ports, t, commands[1..], at).0));
        acts := acts + rest;
      }
    }
  }

  // ---- dumps ----

  lemma DumpCommands(ports: Ports, s: Store, id: DumpId, at: Time)
    ensures s.Execute(ports, PromoteObject(id), at) == s.PromoteObject(id, at)
    ensures s.Execute(ports, MarkQuarantined(id), at) == s.MarkQuarantined(id, at)
    ensures s.Execute(ports, AcceptDump(id), at) == s.AcceptDump(ports, id, at)
    ensures s.Execute(ports, RejectDump(id), at) == s.RejectDump(ports, id, at)
  {}

  /** One command about a dump, as a step that leaves every other dump alone. */
  lemma DumpStepRuns(ports: Ports, w: World, c: Command, at: Time)
    requires c.PromoteObject? || c.MarkQuarantined? || c.AcceptDump? || c.RejectDump?
    ensures var end := Holding(w, w.store.Execute(ports, c, at).0);
            && Reaches(ports, w, [Run(c, at)], end) && AllImport([Run(c, at)], w.store.ledger.origin)
            && end.store.ledger.origin == w.store.ledger.origin && SameElsewhere(w.store, end.store, c.dumpId)
  {
    hide Store.Execute, SameElsewhere, Reaches;
    StepRuns(ports, w, c, at);
    ExecuteElsewhere(ports, w.store, c, at);
  }

  lemma ElsewhereChains(s: Store, t: Store, u: Store, id: DumpId)
    requires SameElsewhere(s, t, id) && SameElsewhere(t, u, id)
    ensures SameElsewhere(s, u, id)
  {}

  lemma JudgedByRun(ports: Ports, w: World, id: DumpId, at: Time) returns (acts: seq<Act>)
    ensures var end := Holding(w, JudgeStaged(ports, w.store, id, at).0);
            && Reaches(ports, w, acts, end) && AllImport(acts, w.store.ledger.origin)
            && end.store.ledger.origin == w.store.ledger.origin && SameElsewhere(w.store, end.store, id)
  {
    hide Store.Execute, Store.PromoteObject, Store.MarkQuarantined, Store.AcceptDump, Store.RejectDump, SameElsewhere, Reaches, AllImport;
    DumpCommands(ports, w.store, id, at);
    DumpStepRuns(ports, w, PromoteObject(id), at);
    acts := [Run(PromoteObject(id), at)];
    var (s, p) := w.store.PromoteObject(id, at);
    if p.Refused? { return; }
    DumpCommands(ports, s, id, at);
    acts := Joined(ports, w, acts, Holding(w, s), MarkQuarantined(id), at);
    var (t, m) := s.MarkQuarantined(id, at);
    if m.Refused? { return; }
    DumpCommands(ports, t, id, at);
    acts := Joined(ports, w, acts, Holding(w, t), AcceptDump(id), at);
    var (u, a) := t.AcceptDump(ports, id, at);
    if !a.Refused? || a.code != InspectionOutcomeMismatch { return; }
    DumpCommands(ports, u, id, at);
    acts := Joined(ports, w, acts, Holding(w, u), RejectDump(id), at);
  }

  /** One more command about the same dump. */
  lemma Joined(ports: Ports, w: World, acts: seq<Act>, mid: World, c: Command, at: Time) returns (more: seq<Act>)
    requires Reaches(ports, w, acts, mid) && AllImport(acts, w.store.ledger.origin) && mid.store.ledger.origin == w.store.ledger.origin
    requires c.PromoteObject? || c.MarkQuarantined? || c.AcceptDump? || c.RejectDump?
    requires SameElsewhere(w.store, mid.store, c.dumpId)
    ensures var end := Holding(mid, mid.store.Execute(ports, c, at).0);
            && Reaches(ports, w, more, end) && AllImport(more, w.store.ledger.origin)
            && end.store.ledger.origin == w.store.ledger.origin && SameElsewhere(w.store, end.store, c.dumpId)
  {
    hide Store.Execute, SameElsewhere, Reaches;
    DumpStepRuns(ports, mid, c, at);
    var end := Holding(mid, mid.store.Execute(ports, c, at).0);
    ReachesJoin(ports, w, acts, mid, [Run(c, at)], end);
    ElsewhereChains(w.store, mid.store, end.store, c.dumpId);
    more := acts + [Run(c, at)];
  }

  lemma StagingElsewhere(s: Store, id: DumpId, chunks: seq<seq<byte>>, at: Time)
    ensures SameElsewhere(s, s, id) && SameElsewhere(s, s.(vault := s.vault.RemoveStaging(id)), id)
    ensures SameElsewhere(s, s.(vault := s.vault.(staging := s.vault.staging[id := StagingObject(chunks, at, false)])), id)
  {}

  lemma ImportElsewhere(ports: Ports, s: Store, t: Store, id: DumpId, row: Dump, at: Time)
    requires SameElsewhere(s, t, id)
    ensures SameElsewhere(s, t.Execute(ports, ImportDump(id, row), at).0, id)
  {
    hide Store.Execute, SameElsewhere;
    ExecuteElsewhere(ports, t, ImportDump(id, row), at);
    ElsewhereChains(s, t, t.Execute(ports, ImportDump(id, row), at).0, id);
  }

  lemma StageElsewhere(ports: Ports, s: Store, id: DumpId, row: Dump, chunks: seq<seq<byte>>, at: Time)
    ensures SameElsewhere(s, StageDump(ports, s, id, row, chunks, at).0, id)
  {
    hide Store.Execute, SameElsewhere, MismatchRecord, Concat;
    var closed := s.vault.(staging := s.vault.staging[id := StagingObject(chunks, at, false)]);
    StagingElsewhere(s, id, chunks, at);
    ImportElsewhere(ports, s, s, id, MismatchRecord(row), at);
    ImportElsewhere(ports, s, s.(vault := s.vault.RemoveStaging(id)), id, MismatchRecord(row), at);
    ImportElsewhere(ports, s, s.(vault := closed), id, row, at);
    ImportElsewhere(ports, s, s, id, row, at);
  }

  lemma LandsByRun(ports: Ports, w: World, id: DumpId, row: Dump, bytes: seq<byte>, at: Time) returns (acts: seq<Act>)
    requires Unused(w.store, id)
    ensures var end := Holding(w, LandDump(ports, w.store, id, row, bytes, at).0);
            && Reaches(ports, w, acts, end) && AllImport(acts, w.store.ledger.origin)
            && end.store.ledger.origin == w.store.ledger.origin && SameElsewhere(w.store, end.store, id)
  {
    hide StageDump, JudgeStaged, SameElsewhere, Reaches;
    var chunks := Chunked(bytes);
    var act := StageImport(id, row, chunks, at);
    OneAct(ports, w, act);
    var staged := act.Next(ports, w);
    StageLater(ports, w.store, id, row, chunks, at);
    StageElsewhere(ports, w.store, id, row, chunks, at);
    acts := [act];
    if StageDump(ports, w.store, id, row, chunks, at).1.Staged? {
      var rest := JudgedByRun(ports, staged, id, at);
      var end := Holding(staged, JudgeStaged(ports, staged.store, id, at).0);
      ReachesJoin(ports, w, acts, staged, rest, end);
      ElsewhereChains(w.store, staged.store, end.store, id);
      acts := acts + rest;
    }
  }

  lemma {:induction false} DumpsByRun(ports: Ports, w: World, b: Bundle, ids: seq<DumpId>, tally: Tally, at: Time)
    returns (acts: seq<Act>)
    requires StrictlyAscending(ids) && forall id :: id in ids ==> id in b.rows.dumps && Unused(w.store, id)
    ensures var end := Holding(w, LandAll(ports, w.store, b, ids, tally, at).store);
            && Reaches(ports, w, acts, end) && AllImport(acts, w.store.ledger.origin)
            && end.store.ledger.origin == w.store.ledger.origin
    decreases |ids|
  {
    hide LandDump, Reaches, DeclaredIds;
    acts := [];
    if ids == [] {
      NoActs(ports, w);
    } else if ids[0] !in DeclaredIds(b.manifest) {
      acts := DumpsByRun(ports, w, b, ids[1..], tally, at);
    } else {
      var id := ids[0];
      assert id in ids;
      acts := LandsByRun(ports, w, id, b.rows.dumps[id], FileOf(b, id), at);
      var (t, landing) := LandDump(ports, w.store, id, b.rows.dumps[id], FileOf(b, id), at);
      if !landing.Stuck? {
        var next := Holding(w, t);
        forall x | x in ids[1..] ensures Unused(t, x) {
          assert x in ids && x != id && Unused(w.store, x);
        }
        var rest := DumpsByRun(ports, next, b, ids[1..], tally.After(landing), at);
        ReachesJoin(ports, w, acts, next, rest, Holding(next, LandAll(ports, t, b, ids[1..], tally.After(landing), at).store));
        acts := acts + rest;
      }
    }
  }

  lemma NoActs(ports: Ports, w: World)
    ensures Reaches(ports, w, [], Holding(w, w.store))
  {
    assert Holding(w, w.store) == w;
  }

  // ---- rows and history ----

  lemma {:induction false} CustomersAreSteps(rows: Ledger, ids: seq<CustomerId>, origin: nat)
    requires forall id :: id in ids ==> id in rows.customers
    ensures AllSteps(CustomerSteps(rows, ids), origin)
  {
    if ids != [] { CustomersAreSteps(rows, ids[1..], origin); }
  }

  lemma {:induction false} CasesAreSteps(rows: Ledger, ids: seq<CaseId>, origin: nat)
    requires forall id :: id in ids ==> id in rows.cases
    ensures AllSteps(CaseSteps(rows, ids), origin)
  {
    if ids != [] { CasesAreSteps(rows, ids[1..], origin); }
  }

  lemma {:induction false} GrantsAreSteps(rows: Ledger, ids: seq<GrantId>, mismatch: bool, origin: nat)
    requires forall id :: id in ids ==> id in rows.grants
    ensures AllSteps(GrantSteps(rows, ids, mismatch), origin)
  {
    if ids != [] { GrantsAreSteps(rows, ids[1..], mismatch, origin); }
  }

  lemma {:induction false} EventsAreSteps(events: seq<AuditEvent>, origin: nat)
    requires forall e :: e in events ==> e.eventId.origin != origin
    ensures AllSteps(ReplaySteps(events), origin)
  {
    if events != [] { EventsAreSteps(events[1..], origin); }
  }

  lemma {:induction false} KeptIsFrom(audit: seq<AuditEvent>, exported: set<DumpId>)
    ensures forall e :: e in Kept(audit, exported) ==> e in audit
  {
    if audit != [] { KeptIsFrom(audit[1..], exported); }
  }

  lemma FinishIsSteps(b: Bundle, origin: nat)
    requires forall e :: e in b.rows.audit ==> e.eventId.origin != origin
    ensures AllSteps(FinishSteps(b, EventId(origin, 0)), origin)
  {
    hide Kept, DeclaredIds;
    KeptIsFrom(b.rows.audit, DeclaredIds(b.manifest));
    EventsAreSteps(Kept(b.rows.audit, DeclaredIds(b.manifest)), origin);
  }

  /** Two lists of commands, the second only if the first went through. */
  lemma RowsByRun(ports: Ports, w: World, b: Bundle, mismatch: bool, at: Time) returns (acts: seq<Act>)
    ensures var end := Holding(w, ImportRows(ports, w.store, b, mismatch, at).0);
            && Reaches(ports, w, acts, end) && AllImport(acts, w.store.ledger.origin)
            && end.store.ledger.origin == w.store.ledger.origin
  {
    hide RunAll, CustomerSteps, CaseSteps, GrantSteps, SortedIds, Reaches, AllSteps, AllImport;
    var origin := w.store.ledger.origin;
    var customers, cases, grants := SortedIds(b.rows.customers.Keys), SortedIds(b.rows.cases.Keys), SortedIds(b.rows.grants.Keys);
    CustomersAreSteps(b.rows, customers, origin);
    CasesAreSteps(b.rows, cases, origin);
    GrantsAreSteps(b.rows, grants, mismatch, origin);
    acts := CommandsAreRun(ports, w, CustomerSteps(b.rows, customers), at);
    var (s, ok) := RunAll(ports, w.store, CustomerSteps(b.rows, customers), at);
    if !ok { return; }
    var mid := Holding(w, s);
    var second := CommandsAreRun(ports, mid, CaseSteps(b.rows, cases), at);
    var (t, fine) := RunAll(ports, s, CaseSteps(b.rows, cases), at);
    ReachesJoin(ports, w, acts, mid, second, Holding(mid, t));
    ActsJoin(acts, second, origin);
    acts := acts + second;
    if !fine { return; }
    var late := Holding(w, t);
    var third := CommandsAreRun(ports, late, GrantSteps(b.rows, grants, mismatch), at);
    ReachesJoin(ports, w, acts, late, third, Holding(late, RunAll(ports, t, GrantSteps(b.rows, grants, mismatch), at).0));
    ActsJoin(acts, third, origin);
    acts := acts + third;
  }

  lemma RowsLeaveDumps(ports: Ports, s: Store, commands: seq<Command>, at: Time)
    requires forall k :: 0 <= k < |commands| ==> commands[k].ImportCustomer? || commands[k].ImportCase? || commands[k].ImportGrant?
    ensures var t := RunAll(ports, s, commands, at).0; t.ledger.dumps == s.ledger.dumps && t.vault == s.vault
    decreases |commands|
  {
    hide Store.Execute;
    if commands != [] {
      OtherLeavesDumps(ports, s, commands[0], at);
      RowsLeaveDumps(ports, s.Execute(ports, commands[0], at).0, commands[1..], at);
    }
  }

  lemma {:induction false} RowKinds(rows: Ledger, customers: seq<CustomerId>, cases: seq<CaseId>, grants: seq<GrantId>, mismatch: bool)
    requires forall id :: id in customers ==> id in rows.customers
    requires forall id :: id in cases ==> id in rows.cases
    requires forall id :: id in grants ==> id in rows.grants
    ensures forall k :: 0 <= k < |CustomerSteps(rows, customers)| ==> CustomerSteps(rows, customers)[k].ImportCustomer?
    ensures forall k :: 0 <= k < |CaseSteps(rows, cases)| ==> CaseSteps(rows, cases)[k].ImportCase?
    ensures forall k :: 0 <= k < |GrantSteps(rows, grants, mismatch)| ==> GrantSteps(rows, grants, mismatch)[k].ImportGrant?
    decreases |customers| + |cases| + |grants|
  {
    if customers != [] {
      RowKinds(rows, customers[1..], cases, grants, mismatch);
    } else if cases != [] {
      RowKinds(rows, customers, cases[1..], grants, mismatch);
    } else if grants != [] {
      RowKinds(rows, customers, cases, grants[1..], mismatch);
    }
  }

  lemma ImportRowsLeaveDumps(ports: Ports, s: Store, b: Bundle, mismatch: bool, at: Time)
    ensures var t := ImportRows(ports, s, b, mismatch, at).0; t.ledger.dumps == s.ledger.dumps && t.vault == s.vault
  {
    hide RunAll, CustomerSteps, CaseSteps, GrantSteps, SortedIds;
    var customers, cases, grants := SortedIds(b.rows.customers.Keys), SortedIds(b.rows.cases.Keys), SortedIds(b.rows.grants.Keys);
    RowKinds(b.rows, customers, cases, grants, mismatch);
    RowsLeaveDumps(ports, s, CustomerSteps(b.rows, customers), at);
    var t := RunAll(ports, s, CustomerSteps(b.rows, customers), at).0;
    RowsLeaveDumps(ports, t, CaseSteps(b.rows, cases), at);
    RowsLeaveDumps(ports, RunAll(ports, t, CaseSteps(b.rows, cases), at).0, GrantSteps(b.rows, grants, mismatch), at);
  }

  /** Importing any bundle into an empty instance, however far it gets, is a run of that instance: the marker, then import
      steps only. */
  lemma ImportIsRun(ports: Ports, origin: nat, b: Bundle, digest: Digest, mismatch: bool, at: Time) returns (acts: seq<Act>)
    requires forall e :: e in b.rows.audit ==> e.eventId.origin != origin
    ensures var end := EmptyWorld(origin).(store := Import(ports, Fresh(origin), b, digest, mismatch, at).store);
            Reaches(ports, EmptyWorld(origin), acts, end) && Reachable(ports, end)
    ensures acts != [] ==> acts[0] == Run(BeginImport(digest, b.manifest.counts), at) && AllImport(acts[1..], origin)
  {
    hide RunAll, LandAll, ImportRows, FinishSteps, SortedIds, Opens, Reaches, AllSteps, AllImport, Store.Execute, Unused;
    var w := EmptyWorld(origin);
    acts := [];
    if Opens(b) {
      BeginsImporting(ports, origin, digest, b.manifest.counts, at);
      var begin := Run(BeginImport(digest, b.manifest.counts), at);
      OneAct(ports, w, begin);
      var begun := begin.Next(ports, w);
      var rest := FilledByRun(ports, begun, b, mismatch, at);
      var end := Holding(begun, Filled(ports, begun.store, b, mismatch, at));
      ReachesJoin(ports, w, [begin], begun, rest, end);
      acts := [begin] + rest;
      assert acts[1..] == rest;
      assert end == w.(store := Import(ports, Fresh(origin), b, digest, mismatch, at).store);
    } else {
      NoActs(ports, w);
      assert Holding(w, w.store) == w;
    }
  }

  /** What an import does after its marker. */
  function Filled(ports: Ports, begun: Store, b: Bundle, mismatch: bool, at: Time): Store {
    var (rows, ok) := ImportRows(ports, begun, b, mismatch, at);
    if !ok then rows
    else
      var landed := LandAll(ports, rows, b, SortedIds(b.rows.dumps.Keys), Tally(0, 0, 0), at);
      if !landed.ok then landed.store
      else RunAll(ports, landed.store, FinishSteps(b, EventId(begun.ledger.origin, 0)), at).0
  }

  lemma FilledByRun(ports: Ports, w: World, b: Bundle, mismatch: bool, at: Time) returns (acts: seq<Act>)
    requires w.store.ledger.dumps == map[] && w.store.vault == Vault(map[], map[])
    requires forall e :: e in b.rows.audit ==> e.eventId.origin != w.store.ledger.origin
    ensures Reaches(ports, w, acts, Holding(w, Filled(ports, w.store, b, mismatch, at))) && AllImport(acts, w.store.ledger.origin)
  {
    hide RunAll, LandAll, ImportRows, FinishSteps, SortedIds, Reaches, AllSteps, AllImport;
    var origin := w.store.ledger.origin;
    acts := RowsByRun(ports, w, b, mismatch, at);
    ImportRowsLeaveDumps(ports, w.store, b, mismatch, at);
    var (rows, ok) := ImportRows(ports, w.store, b, mismatch, at);
    if !ok { return; }
    var mid, ids := Holding(w, rows), SortedIds(b.rows.dumps.Keys);
    var second := DumpsByRun(ports, mid, b, ids, Tally(0, 0, 0), at);
    var landed := LandAll(ports, rows, b, ids, Tally(0, 0, 0), at);
    ReachesJoin(ports, w, acts, mid, second, Holding(mid, landed.store));
    ActsJoin(acts, second, origin);
    acts := acts + second;
    if !landed.ok { return; }
    var late := Holding(w, landed.store);
    FinishIsSteps(b, origin);
    var third := CommandsAreRun(ports, late, FinishSteps(b, EventId(origin, 0)), at);
    ReachesJoin(ports, w, acts, late, third, Holding(late, RunAll(ports, landed.store, FinishSteps(b, EventId(origin, 0)), at).0));
    ActsJoin(acts, third, origin);
    acts := acts + third;
  }

  // ---- what follows for a transferred instance ----

  /** The instance an export was imported into is reachable like any other; its own export passes every gate of the next import. */
  lemma ImportedIsReachable(ports: Ports, w: World, stamp: Stamp, analyses: map<DumpId, nat>,
                            origin: nat, digest: Digest, mismatch: bool, at: Time)
    requires Reachable(ports, w) && Unseen(w.store.ledger, origin)
    ensures var m := Select(w.store.ledger, stamp, analyses);
            && m.Ok? && SealBundle(w.store.vault, w.store.ledger, m.value).Some?
            && var r := Import(ports, Fresh(origin), SealBundle(w.store.vault, w.store.ledger, m.value).value, digest, mismatch, at);
               && Reachable(ports, EmptyWorld(origin).(store := r.store))
               && var again := Select(r.store.ledger, stamp, analyses);
                  again.Ok? && SealBundle(r.store.vault, r.store.ledger, again.value).Some?
                  && Consistent(SealBundle(r.store.vault, r.store.ledger, again.value).value)
  {
    hide Reachable, Select, SealBundle, Import, Consistent, Reaches, AllImport;
    ExportIsConsistent(ports, w, stamp, analyses);
    var b := SealBundle(w.store.vault, w.store.ledger, Select(w.store.ledger, stamp, analyses).value).value;
    BundleRows(w.store.vault, w.store.ledger, Select(w.store.ledger, stamp, analyses).value);
    var acts := ImportIsRun(ports, origin, b, digest, mismatch, at);
    var end := EmptyWorld(origin).(store := Import(ports, Fresh(origin), b, digest, mismatch, at).store);
    ExportIsConsistent(ports, end, stamp, analyses);
  }

  lemma BundleRows(v: Vault, l: Ledger, m: Manifest)
    requires SealBundle(v, l, m).Some?
    ensures SealBundle(v, l, m).value.rows == l
  {}

  /** Every native marker is the import's own, and so is every native finish. */
  ghost predicate OwnMarks(l: Ledger) {
    forall e :: e in l.audit && e.eventId.origin == l.origin ==>
      && (e.action == BeginImportA ==> e.eventId == EventId(l.origin, 0))
      && (e.action == FinishImportA ==> IsFinish(e, EventId(l.origin, 0)))
  }

  /** The event a command adds, if any, is no marker and finishes at most the instance's own import. */
  ghost predicate MarksAtMost(l: Ledger, m: Ledger) {
    && m.origin == l.origin && |l.audit| <= |m.audit| <= |l.audit| + 1 && m.audit[..|l.audit|] == l.audit
    && (|m.audit| > |l.audit| ==>
          var e := m.audit[|l.audit|];
          e.eventId.origin == l.origin ==> e.action != BeginImportA && (e.action == FinishImportA ==> IsFinish(e, EventId(l.origin, 0))))
  }

  lemma MarksKept(l: Ledger, m: Ledger)
    requires OwnMarks(l) && MarksAtMost(l, m)
    ensures OwnMarks(m)
  {
    forall e | e in m.audit && e.eventId.origin == m.origin
      ensures (e.action == BeginImportA ==> e.eventId == EventId(l.origin, 0)) && (e.action == FinishImportA ==> IsFinish(e, EventId(l.origin, 0)))
    {
      var k :| 0 <= k < |m.audit| && m.audit[k] == e;
      if k < |l.audit| { assert m.audit[..|l.audit|][k] == l.audit[k] && l.audit[k] in l.audit; }
    }
  }

  lemma RowMarks(ports: Ports, s: Store, c: Command, at: Time)
    requires c.ImportCustomer? || c.ImportCase? || c.ImportGrant? || c.ImportAuditEvent? || c.FinishImport?
    requires ImportStep(c, s.ledger.origin)
    ensures MarksAtMost(s.ledger, s.Execute(ports, c, at).0.ledger)
  {
    hide Store.Execute;
    OtherCommand(ports, s, c, at);
    TransactionMarks(s.ledger, c, at);
    assert s.ledger.audit[..|s.ledger.audit|] == s.ledger.audit;
  }

  lemma TransactionMarks(l: Ledger, c: Command, at: Time)
    requires c.ImportCustomer? || c.ImportCase? || c.ImportGrant? || c.ImportAuditEvent? || c.FinishImport?
    requires ImportStep(c, l.origin)
    ensures TransactionOf(l, c, at).Ok? ==> MarksAtMost(l, TransactionOf(l, c, at).value)
  {}

  lemma EdgeMarks(ports: Ports, s: Store, c: Command, at: Time)
    requires c.PromoteObject? || c.MarkQuarantined? || c.AcceptDump? || c.RejectDump?
    ensures MarksAtMost(s.ledger, s.Execute(ports, c, at).0.ledger)
  {
    hide Store.Execute;
    EdgeCommand(ports, s, c, at);
  }

  lemma DumpMarks(ports: Ports, s: Store, id: DumpId, row: Dump, at: Time)
    ensures MarksAtMost(s.ledger, s.Execute(ports, ImportDump(id, row), at).0.ledger)
  {
    hide Store.Execute;
    PlainDumpCommand(ports, s, ImportDump(id, row), at);
  }

  lemma StageMarks(ports: Ports, s: Store, id: DumpId, row: Dump, chunks: seq<seq<byte>>, at: Time)
    ensures MarksAtMost(s.ledger, StageDump(ports, s, id, row, chunks, at).0.ledger)
  {
    hide Store.Execute, MismatchRecord, Concat;
    DumpMarks(ports, s, id, MismatchRecord(row), at);
    DumpMarks(ports, s.(vault := s.vault.RemoveStaging(id)), id, MismatchRecord(row), at);
    DumpMarks(ports, s.(vault := s.vault.(staging := s.vault.staging[id := StagingObject(chunks, at, false)])), id, row, at);
    DumpMarks(ports, s, id, row, at);
    assert s.ledger.audit[..|s.ledger.audit|] == s.ledger.audit;
  }

  lemma ActMarks(ports: Ports, w: World, act: Act)
    requires ImportAct(act, w.store.ledger.origin) && OwnMarks(w.store.ledger)
    ensures OwnMarks(act.Next(ports, w).store.ledger) && act.Next(ports, w).store.ledger.origin == w.store.ledger.origin
  {
    hide OwnMarks, MarksAtMost, Store.Execute, StageDump;
    var l, m := w.store.ledger, act.Next(ports, w).store.ledger;
    match act
    case Run(c, at) =>
      if c.PromoteObject? || c.MarkQuarantined? || c.AcceptDump? || c.RejectDump? {
        EdgeMarks(ports, w.store, c, at);
      } else {
        RowMarks(ports, w.store, c, at);
      }
      SameOrigin(l, m);
      MarksKept(l, m);
    case StageImport(id, row, chunks, at) =>
      StageMarks(ports, w.store, id, row, chunks, at);
      SameOrigin(l, m);
      MarksKept(l, m);
  }

  lemma SameOrigin(l: Ledger, m: Ledger)
    requires MarksAtMost(l, m)
    ensures m.origin == l.origin
  {}

  lemma {:induction false} RunMarks(ports: Ports, w: World, acts: seq<Act>, end: World)
    requires Reaches(ports, w, acts, end) && AllImport(acts, w.store.ledger.origin) && OwnMarks(w.store.ledger)
    ensures OwnMarks(end.store.ledger) && end.store.ledger.origin == w.store.ledger.origin
    decreases |acts|
  {
    hide OwnMarks, ImportAct;
    if acts != [] {
      ActMarks(ports, w, acts[0]);
      RunMarks(ports, acts[0].Next(ports, w), acts[1..], end);
    }
  }

  lemma ImportMarks(ports: Ports, origin: nat, b: Bundle, digest: Digest, mismatch: bool, at: Time)
    requires forall e :: e in b.rows.audit ==> e.eventId.origin != origin
    ensures var l := Import(ports, Fresh(origin), b, digest, mismatch, at).store.ledger; OwnMarks(l) && l.origin == origin
  {
    hide Import, AllImport;
    var acts := ImportIsRun(ports, origin, b, digest, mismatch, at);
    var w := EmptyWorld(origin);
    if acts != [] {
      var begun := acts[0].Next(ports, w);
      MarkerOwned(ports, origin, digest, b.manifest.counts, at);
      RunMarks(ports, begun, acts[1..], w.(store := Import(ports, Fresh(origin), b, digest, mismatch, at).store));
    }
  }

  lemma MarkerOwned(ports: Ports, origin: nat, digest: Digest, counts: Counts, at: Time)
    ensures var l := Fresh(origin).Execute(ports, BeginImport(digest, counts), at).0.ledger; OwnMarks(l) && l.origin == origin
  {
    var l := Fresh(origin).Execute(ports, BeginImport(digest, counts), at).0.ledger;
    assert |l.audit| <= 1;
    forall e | e in l.audit ensures e == l.audit[0] {}
  }

  lemma {:induction false} ForeignMembers(audit: seq<AuditEvent>, origin: nat)
    ensures forall e :: e in Foreign(audit, origin) <==> e in audit && e.eventId.origin != origin
  {
    if audit != [] {
      var front, last := audit[..|audit| - 1], audit[|audit| - 1];
      assert audit == front + [last];
      ForeignMembers(front, origin);
    }
  }

  /** A finished import has finished its own marker. */
  lemma FinishedOwn(ports: Ports, s: Store, commands: seq<Command>, finish: Command, at: Time)
    requires finish.FinishImport? && RunAll(ports, s, commands + [finish], at).1
    ensures exists e :: e in RunAll(ports, s, commands + [finish], at).0.ledger.audit && IsFinish(e, finish.importId)
  {
    RunAllJoin(ports, s, commands, [finish], at);
    var t := RunAll(ports, s, commands, at).0;
    var (u, receipt) := t.Execute(ports, finish, at);
    assert [finish][1..] == [];
    assert RunAll(ports, u, [], at) == (u, true);
    assert RunAll(ports, t, [finish], at) == (if receipt.Refused? then (u, false) else (u, true));
    assert !receipt.Refused?;
    var e := u.ledger.audit[|t.ledger.audit|];
    assert e in u.ledger.audit && IsFinish(e, finish.importId);
  }

  /** An import no event of the list finishes. */
  ghost predicate OpenMarker(events: seq<AuditEvent>) {
    exists m :: m in events && m.action == BeginImportA && forall f :: f in events ==> !IsFinish(f, m.eventId)
  }

  lemma InProgressIsOpen(l: Ledger)
    ensures l.ImportInProgress() <==> OpenMarker(l.audit)
  {
    if l.ImportInProgress() {
      var i :| 0 <= i < |l.audit| && l.audit[i].action == BeginImportA && !l.ImportFinished(l.audit[i].eventId);
      assert l.audit[i] in l.audit;
    }
    if OpenMarker(l.audit) {
      var m :| m in l.audit && m.action == BeginImportA && forall f :: f in l.audit ==> !IsFinish(f, m.eventId);
      var i :| 0 <= i < |l.audit| && l.audit[i] == m;
      assert !l.ImportFinished(m.eventId);
    }
  }

  lemma OpenForeign(l: Ledger, kept: seq<AuditEvent>)
    requires OwnMarks(l) && Foreign(l.audit, l.origin) == kept && exists e :: e in l.audit && IsFinish(e, EventId(l.origin, 0))
    ensures OpenMarker(l.audit) <==> OpenMarker(kept)
  {
    ForeignMembers(l.audit, l.origin);
    if OpenMarker(l.audit) {
      var m :| m in l.audit && m.action == BeginImportA && forall f :: f in l.audit ==> !IsFinish(f, m.eventId);
      assert m in kept;
    }
    if OpenMarker(kept) {
      var m :| m in kept && m.action == BeginImportA && forall f :: f in kept ==> !IsFinish(f, m.eventId);
      forall f | f in l.audit ensures !IsFinish(f, m.eventId) {
        if f.eventId.origin != l.origin { assert f in kept; }
      }
    }
  }

  /** Markers and finishes travel verbatim: once the import itself is finished, the target counts an import as still running
      exactly when the history it took over holds a marker it does not finish. */
  lemma OpenImportsStayOpen(ports: Ports, w: World, stamp: Stamp, analyses: map<DumpId, nat>,
                            origin: nat, digest: Digest, mismatch: bool, at: Time)
    requires Reachable(ports, w) && Unseen(w.store.ledger, origin)
    requires FitsLimits(ports, w.store.ledger)
    ensures var l := w.store.ledger;
            var m := Select(l, stamp, analyses);
            && m.Ok? && SealBundle(w.store.vault, l, m.value).Some?
            && var r := Import(ports, Fresh(origin), SealBundle(w.store.vault, l, m.value).value, digest, mismatch, at);
               r.Finished? && (r.store.ledger.ImportInProgress() <==>
                                   exists m :: m in l.audit && Historic(l, m) && m.action == BeginImportA
                                               && forall f :: f in l.audit && Historic(l, f) ==> !IsFinish(f, m.eventId))
  {
    hide Reachable, Select, SealBundle, Import, Carried, Tallied, OwnMarks, OpenMarker, Kept, StableIds, DetailsFit, SlotsFit, Foreign, FitsLimits, Historic;
    LimitsFit(ports, w.store.ledger);
    ImportCarries(ports, w, stamp, analyses, origin, digest, mismatch, at);
    var b := SealBundle(w.store.vault, w.store.ledger, Select(w.store.ledger, stamp, analyses).value).value;
    BundleRows(w.store.vault, w.store.ledger, Select(w.store.ledger, stamp, analyses).value);
    ImportMarks(ports, origin, b, digest, mismatch, at);
    var r := Import(ports, Fresh(origin), b, digest, mismatch, at);
    RestoredHistory(w.store, r.store, mismatch, at);
    ImportFinishes(ports, origin, b, digest, mismatch, at);
    OpenForeign(r.store.ledger, Kept(w.store.ledger.audit, StableIds(w.store.ledger.dumps)));
    InProgressIsOpen(r.store.ledger);
    KeptIsHistoric(w.store.ledger);
    assert OpenMarker(Kept(w.store.ledger.audit, StableIds(w.store.ledger.dumps))) <==> OpenHistory(w.store.ledger) by {
      OpenKept(w.store.ledger);
    }
  }

  ghost predicate OpenHistory(l: Ledger) {
    exists m :: m in l.audit && Historic(l, m) && m.action == BeginImportA && forall f :: f in l.audit && Historic(l, f) ==> !IsFinish(f, m.eventId)
  }

  lemma OpenKept(l: Ledger)
    ensures OpenMarker(Kept(l.audit, StableIds(l.dumps))) <==> OpenHistory(l)
  {
    hide Kept, StableIds, Historic;
    KeptIsHistoric(l);
  }

  lemma RestoredHistory(src: Store, dst: Store, mismatch: bool, at: Time)
    requires Carried(src, dst, mismatch, at)
    ensures Foreign(dst.ledger.audit, dst.ledger.origin) == Kept(src.ledger.audit, StableIds(src.ledger.dumps))
  {}

  lemma ImportFinishes(ports: Ports, origin: nat, b: Bundle, digest: Digest, mismatch: bool, at: Time)
    requires Import(ports, Fresh(origin), b, digest, mismatch, at).Finished?
    ensures var l := Import(ports, Fresh(origin), b, digest, mismatch, at).store.ledger;
            exists e :: e in l.audit && IsFinish(e, EventId(origin, 0))
  {
    hide RunAll, LandAll, ImportRows, SortedIds, Opens, Store.Execute, Kept, DeclaredIds, ReplaySteps, Summary;
    BeginsImporting(ports, origin, digest, b.manifest.counts, at);
    var begun := Fresh(origin).Execute(ports, BeginImport(digest, b.manifest.counts), at).0;
    var rows := ImportRows(ports, begun, b, mismatch, at).0;
    var landed := LandAll(ports, rows, b, SortedIds(b.rows.dumps.Keys), Tally(0, 0, 0), at);
    var events := Kept(b.rows.audit, DeclaredIds(b.manifest));
    FinishedOwn(ports, landed.store, ReplaySteps(events), FinishImport(EventId(origin, 0), Summary(b, |events|), |b.manifest.skipped|), at);
  }
}
