/** Importing what was exported: into an empty instance it gives back the same customers, cases, grants, stable dumps
    and history, and it finishes exactly when the bundle reader and the engine take every row. */
module Restore {
  import opened Domain
  import opened Vaults
  import opened Ledgers
  import opened Engines
  import opened Coupling
  import opened Runs
  import opened Integrity
  import opened TarArchive
  import opened Manifests
  import opened Exports
  import opened Imports

  /** The marker of the import running in the ledger: its first event, still unfinished. */
  ghost predicate Importing(l: Ledger) {
    && l.audit != [] && IsMarker(l.audit[0], EventId(l.origin, 0)) && !l.ImportFinished(EventId(l.origin, 0))
  }

  lemma ImportingIsInProgress(l: Ledger)
    requires Importing(l)
    ensures l.ImportInProgress() && l.FindMarker(EventId(l.origin, 0)).Some?
  {
    assert l.audit[0].action == BeginImportA && !l.ImportFinished(l.audit[0].eventId);
  }

  /** One event that does not finish the running import. */
  lemma StillImporting(l: Ledger, m: Ledger, e: AuditEvent)
    requires Importing(l) && m.origin == l.origin && m.audit == l.audit + [e] && !IsFinish(e, EventId(l.origin, 0))
    ensures Importing(m)
  {
    var id := EventId(l.origin, 0);
    forall i | 0 <= i < |m.audit| ensures !IsFinish(m.audit[i], id) {
      if i < |l.audit| {
        assert m.audit[i] == l.audit[i];
      }
    }
  }

  /** The events another instance wrote. */
  function Foreign(audit: seq<AuditEvent>, origin: nat): seq<AuditEvent> {
    if audit == [] then []
    else Foreign(audit[..|audit| - 1], origin) +
         (if audit[|audit| - 1].eventId.origin == origin then [] else [audit[|audit| - 1]])
  }

  lemma ForeignSnoc(audit: seq<AuditEvent>, e: AuditEvent, origin: nat)
    ensures Foreign(audit + [e], origin) == Foreign(audit, origin) + (if e.eventId.origin == origin then [] else [e])
  {
    assert (audit + [e])[..|audit|] == audit;
  }

  /** What a step of the import leaves alone: the instance, the running marker, the history replayed so far. */
  ghost predicate Onward(l: Ledger, m: Ledger) {
    m.origin == l.origin && Importing(m) && Foreign(m.audit, m.origin) == Foreign(l.audit, l.origin)
  }

  lemma NativeEventOnward(l: Ledger, m: Ledger)
    requires Importing(l) && m.origin == l.origin && |m.audit| == |l.audit| + 1 && m.audit[..|l.audit|] == l.audit
    requires m.audit[|l.audit|].eventId == l.NextEventId() && m.audit[|l.audit|].action != FinishImportA
    ensures Onward(l, m)
  {
    var e := m.audit[|l.audit|];
    assert m.audit == l.audit + [e];
    StillImporting(l, m, e);
    ForeignSnoc(l.audit, e, l.origin);
  }

  lemma CustomerLands(ports: Ports, s: Store, id: CustomerId, row: Customer, at: Time)
    requires Importing(s.ledger) && id !in s.ledger.customers
    ensures var (t, receipt) := s.Execute(ports, ImportCustomer(id, row), at);
            && receipt == Done && t.vault == s.vault && Onward(s.ledger, t.ledger)
            && t.ledger == s.ledger.(customers := s.ledger.customers[id := row], audit := t.ledger.audit)
  {
    hide Importing, Foreign;
    ImportingIsInProgress(s.ledger);
    NativeEventOnward(s.ledger, s.Execute(ports, ImportCustomer(id, row), at).0.ledger);
  }

  lemma CaseLands(ports: Ports, s: Store, id: CaseId, row: Case, at: Time)
    requires Importing(s.ledger) && id !in s.ledger.cases && row.customerId in s.ledger.customers
    ensures var (t, receipt) := s.Execute(ports, ImportCase(id, row), at);
            && receipt == Done && t.vault == s.vault && Onward(s.ledger, t.ledger)
            && t.ledger == s.ledger.(cases := s.ledger.cases[id := row], audit := t.ledger.audit)
  {
    hide Importing, Foreign;
    ImportingIsInProgress(s.ledger);
    NativeEventOnward(s.ledger, s.Execute(ports, ImportCase(id, row), at).0.ledger);
  }

  lemma GrantLands(ports: Ports, s: Store, id: GrantId, row: Grant, mismatch: bool, at: Time)
    requires Importing(s.ledger) && id !in s.ledger.grants && row.caseId in s.ledger.cases && ImportableGrant(row)
    requires s.ledger.HoldersOf(row.secretDigest) == {}
    ensures var (t, receipt) := s.Execute(ports, ImportGrant(id, row, mismatch), at);
            && receipt == Done && t.vault == s.vault && Onward(s.ledger, t.ledger)
            && t.ledger == s.ledger.(grants := s.ledger.grants[id := GrantReturned(row, mismatch)], audit := t.ledger.audit)
  {
    hide Importing, Foreign;
    ImportingIsInProgress(s.ledger);
    NativeEventOnward(s.ledger, s.Execute(ports, ImportGrant(id, row, mismatch), at).0.ledger);
  }

  lemma {:induction false} CustomersLand(ports: Ports, s: Store, rows: Ledger, ids: seq<CustomerId>, k: nat, at: Time)
    requires k <= |ids| && StrictlyAscending(ids) && Importing(s.ledger)
    requires forall id :: id in ids ==> id in rows.customers
    requires forall id :: id in s.ledger.customers <==> id in ids[..k]
    requires forall id :: id in s.ledger.customers ==> s.ledger.customers[id] == rows.customers[id]
    ensures var (t, ok) := RunAll(ports, s, CustomerSteps(rows, ids[k..]), at);
            && ok && t.vault == s.vault && Onward(s.ledger, t.ledger)
            && (forall id :: id in t.ledger.customers <==> id in ids)
            && (forall id :: id in t.ledger.customers ==> t.ledger.customers[id] == rows.customers[id])
            && t.ledger.cases == s.ledger.cases && t.ledger.grants == s.ledger.grants && t.ledger.dumps == s.ledger.dumps
    decreases |ids| - k
  {
    hide Importing, Foreign, Store.Execute;
    if k == |ids| {
      assert ids[k..] == [] && ids[..k] == ids;
    } else {
      var id, l := ids[k], s.ledger;
      assert ids[k..][0] == id && ids[k..][1..] == ids[k + 1..] && ids[..k + 1] == ids[..k] + [id];
      assert id !in ids[..k];
      CustomerLands(ports, s, id, rows.customers[id], at);
      var t := s.Execute(ports, ImportCustomer(id, rows.customers[id]), at).0;
      assert CustomerSteps(rows, ids[k..])[1..] == CustomerSteps(rows, ids[k + 1..]);
      CustomersLand(ports, t, rows, ids, k + 1, at);
    }
  }

  lemma {:induction false} CasesLand(ports: Ports, s: Store, rows: Ledger, ids: seq<CaseId>, k: nat, at: Time)
    requires k <= |ids| && StrictlyAscending(ids) && Importing(s.ledger)
    requires forall id :: id in ids ==> id in rows.cases && rows.cases[id].customerId in s.ledger.customers
    requires forall id :: id in s.ledger.cases <==> id in ids[..k]
    requires forall id :: id in s.ledger.cases ==> s.ledger.cases[id] == rows.cases[id]
    ensures var (t, ok) := RunAll(ports, s, CaseSteps(rows, ids[k..]), at);
            && ok && t.vault == s.vault && Onward(s.ledger, t.ledger)
            && (forall id :: id in t.ledger.cases <==> id in ids)
            && (forall id :: id in t.ledger.cases ==> t.ledger.cases[id] == rows.cases[id])
            && t.ledger.customers == s.ledger.customers && t.ledger.grants == s.ledger.grants && t.ledger.dumps == s.ledger.dumps
    decreases |ids| - k
  {
    hide Importing, Foreign, Store.Execute;
    if k == |ids| {
      assert ids[k..] == [] && ids[..k] == ids;
    } else {
      var id, l := ids[k], s.ledger;
      assert ids[k..][0] == id && ids[k..][1..] == ids[k + 1..] && ids[..k + 1] == ids[..k] + [id];
      assert id !in ids[..k];
      CaseLands(ports, s, id, rows.cases[id], at);
      var t := s.Execute(ports, ImportCase(id, rows.cases[id]), at).0;
      assert CaseSteps(rows, ids[k..])[1..] == CaseSteps(rows, ids[k + 1..]);
      CasesLand(ports, t, rows, ids, k + 1, at);
    }
  }

  /** An issued secret must not become usable under another key. */
  function GrantReturned(g: Grant, mismatch: bool): Grant {
    if g.state == Issued && mismatch then g.(state := Revoked) else g
  }

  lemma SecretIsNew(l: Ledger, rows: Ledger, id: GrantId, mismatch: bool)
    requires GrantsSound(rows) && id in rows.grants && id !in l.grants
    requires forall g :: g in l.grants ==> g in rows.grants && l.grants[g] == GrantReturned(rows.grants[g], mismatch)
    ensures l.HoldersOf(rows.grants[id].secretDigest) == {} && ImportableGrant(rows.grants[id])
  {
    forall g | g in l.grants ensures l.grants[g].secretDigest != rows.grants[id].secretDigest {
      assert rows.grants[g].secretDigest == l.grants[g].secretDigest;
    }
  }

  lemma {:induction false} GrantsLand(ports: Ports, s: Store, rows: Ledger, ids: seq<GrantId>, mismatch: bool, k: nat, at: Time)
    requires k <= |ids| && StrictlyAscending(ids) && Importing(s.ledger) && GrantsSound(rows)
    requires forall id :: id in ids ==> id in rows.grants && rows.grants[id].caseId in s.ledger.cases
    requires forall id :: id in s.ledger.grants <==> id in ids[..k]
    requires forall id :: id in s.ledger.grants ==> s.ledger.grants[id] == GrantReturned(rows.grants[id], mismatch)
    ensures var (t, ok) := RunAll(ports, s, GrantSteps(rows, ids[k..], mismatch), at);
            && ok && t.vault == s.vault && Onward(s.ledger, t.ledger)
            && (forall id :: id in t.ledger.grants <==> id in ids)
            && (forall id :: id in t.ledger.grants ==> t.ledger.grants[id] == GrantReturned(rows.grants[id], mismatch))
            && t.ledger.customers == s.ledger.customers && t.ledger.cases == s.ledger.cases && t.ledger.dumps == s.ledger.dumps
    decreases |ids| - k
  {
    hide Importing, Foreign, Store.Execute, GrantsSound, GrantReturned, ImportableGrant, Ledger.HoldersOf;
    if k == |ids| {
      assert ids[k..] == [] && ids[..k] == ids;
    } else {
      var id, l := ids[k], s.ledger;
      assert ids[k..][0] == id && ids[k..][1..] == ids[k + 1..] && ids[..k + 1] == ids[..k] + [id];
      assert id !in ids[..k];
      SecretIsNew(l, rows, id, mismatch);
      GrantLands(ports, s, id, rows.grants[id], mismatch, at);
      var t := s.Execute(ports, ImportGrant(id, rows.grants[id], mismatch), at).0;
      assert GrantSteps(rows, ids[k..], mismatch)[1..] == GrantSteps(rows, ids[k + 1..], mismatch);
      GrantsLand(ports, t, rows, ids, mismatch, k + 1, at);
    }
  }

  /** The row a stable dump comes back as. */
  function Returned(d: Dump, at: Time): Dump {
    if d.phase == Available then d.(availableAt := Some(at)) else TombstoneRow(d)
  }

  lemma StagedLands(ports: Ports, s: Store, id: DumpId, row: Dump, bytes: seq<byte>, at: Time)
    requires Importing(s.ledger) && Unused(s, id) && row.caseId in s.ledger.cases
    requires row.phase == Available && Matches(ports, row, bytes)
    ensures var (t, disposition) := StageDump(ports, s, id, row, Chunked(bytes), at);
            && disposition == Staged && Onward(s.ledger, t.ledger)
            && t.ledger == t.ledger.(customers := s.ledger.customers, cases := s.ledger.cases, grants := s.ledger.grants)
            && t.ledger.dumps == s.ledger.dumps[id := StagedRow(row)]
            && t.vault == s.vault.(staging := s.vault.staging[id := StagingObject(Chunked(bytes), at, false)])
  {
    hide Importing, Foreign, Chunked;
    ImportingIsInProgress(s.ledger);
    assert Concat(Chunked(bytes)) == bytes;
    var t := StageDump(ports, s, id, row, Chunked(bytes), at).0;
    assert |t.ledger.audit| == |s.ledger.audit| + 1;
    NativeEventOnward(s.ledger, t.ledger);
  }

  lemma EdgeOnward(l: Ledger, id: DumpId, edge: DumpEdge, at: Time)
    requires Importing(l) && id in l.dumps && l.dumps[id].caseId in l.cases && edge.Permits(l.dumps[id])
    ensures l.TransitionDump(id, edge, at).Ok? && Onward(l, l.TransitionDump(id, edge, at).value)
    ensures var m := l.TransitionDump(id, edge, at).value;
            m == l.(dumps := l.dumps[id := edge.Apply(l.dumps[id], at)], audit := m.audit)
  {
    hide Importing, Foreign, DumpEdge.Permits, DumpEdge.Apply;
    NativeEventOnward(l, l.TransitionDump(id, edge, at).value);
  }

  lemma StagedIsJudged(ports: Ports, s: Store, id: DumpId, row: Dump, bytes: seq<byte>, at: Time)
    requires Importing(s.ledger) && id in s.ledger.dumps && s.ledger.dumps[id] == StagedRow(row) && row.caseId in s.ledger.cases
    requires row.phase == Available && Matches(ports, row, bytes) && Accepted(ports, row, bytes)
    requires id in s.vault.staging && !s.vault.staging[id].open && s.vault.staging[id].Bytes() == bytes && id !in s.vault.objects
    requires row.downloadable && row.blob == InVault && row.validation == Valid && row.purgedAt.None?
    ensures var (t, landing) := JudgeStaged(ports, s, id, at);
            && landing == Verified(true) && Onward(s.ledger, t.ledger)
            && t.ledger == s.ledger.(dumps := s.ledger.dumps[id := row.(availableAt := Some(at))], audit := t.ledger.audit)
            && t.vault == Vault(s.vault.staging - {id}, s.vault.objects[id := bytes])
  {
    hide Importing, Foreign;
    EdgeOnward(s.ledger, id, PromotedEdge, at);
    var promoted := s.PromoteObject(id, at).0;
    EdgeOnward(promoted.ledger, id, QuarantinedEdge, at);
    var marked := promoted.MarkQuarantined(id, at).0;
    var outcome := ports.inspect(bytes);
    assert marked.Inspected(ports, id) == outcome;
    EdgeOnward(marked.ledger, id, AcceptEdge(outcome.coverage, outcome.facts), at);
    var accepted := marked.AcceptDump(ports, id, at).0;
    assert accepted.ledger.dumps[id] == row.(availableAt := Some(at));
    assert accepted.ledger.dumps == s.ledger.dumps[id := row.(availableAt := Some(at))];
  }

  lemma TombstoneLands(ports: Ports, s: Store, id: DumpId, row: Dump, bytes: seq<byte>, at: Time)
    requires Importing(s.ledger) && Unused(s, id) && row.caseId in s.ledger.cases
    requires row.phase == Rejected || row.phase == Deleted
    ensures var (t, landing) := LandDump(ports, s, id, row, bytes, at);
            && landing == Tombstoned(row.phase == Deleted) && Onward(s.ledger, t.ledger)
            && t.ledger == s.ledger.(dumps := s.ledger.dumps[id := TombstoneRow(row)], audit := t.ledger.audit)
            && t.vault == s.vault
  {
    hide Importing, Foreign, Chunked;
    ImportingIsInProgress(s.ledger);
    var t := LandDump(ports, s, id, row, bytes, at).0;
    assert |t.ledger.audit| == |s.ledger.audit| + 1;
    NativeEventOnward(s.ledger, t.ledger);
  }

  /** What a stable dump of a reachable source is known to be. */
  ghost predicate SoundRow(ports: Ports, row: Dump, bytes: seq<byte>) {
    && IsStable(row.phase)
    && (row.phase == Available ==>
          && Matches(ports, row, bytes) && Accepted(ports, row, bytes)
          && row.downloadable && row.blob == InVault && row.validation == Valid && row.purgedAt.None?)
  }

  function LandingOf(row: Dump): Landing {
    if row.phase == Available then Verified(true) else Tombstoned(row.phase == Deleted)
  }

  lemma DumpLands(ports: Ports, s: Store, id: DumpId, row: Dump, bytes: seq<byte>, at: Time)
    requires Importing(s.ledger) && Unused(s, id) && row.caseId in s.ledger.cases && SoundRow(ports, row, bytes)
    ensures var (t, landing) := LandDump(ports, s, id, row, bytes, at);
            && landing == LandingOf(row) && Onward(s.ledger, t.ledger)
            && t.ledger == s.ledger.(dumps := s.ledger.dumps[id := Returned(row, at)], audit := t.ledger.audit)
            && t.vault.staging == s.vault.staging
            && t.vault.objects == if row.phase == Available then s.vault.objects[id := bytes] else s.vault.objects
  {
    hide Importing, Foreign, Chunked, JudgeStaged, StageDump, Matches, Accepted;
    if row.phase == Available {
      StagedLands(ports, s, id, row, bytes, at);
      var staged := StageDump(ports, s, id, row, Chunked(bytes), at).0;
      assert staged.vault.staging[id].Bytes() == bytes;
      StagedIsJudged(ports, staged, id, row, bytes, at);
      assert staged.vault.staging - {id} == s.vault.staging;
      assert staged.ledger.dumps[id := row.(availableAt := Some(at))] == s.ledger.dumps[id := row.(availableAt := Some(at))];
    } else {
      TombstoneLands(ports, s, id, row, bytes, at);
    }
  }

  function CountPhase(dumps: map<DumpId, Dump>, ids: seq<DumpId>, phase: Phase): nat
    requires forall id :: id in ids ==> id in dumps
  {
    if ids == [] then 0 else (if dumps[ids[0]].phase == phase then 1 else 0) + CountPhase(dumps, ids[1..], phase)
  }

  /** The stable dumps among `ids`, as they come back, with the bytes of the available ones. */
  ghost predicate DumpsReturned(s: Store, b: Bundle, ids: seq<DumpId>, at: Time) {
    && (forall id :: id in s.ledger.dumps <==> id in ids && id in b.rows.dumps && IsStable(b.rows.dumps[id].phase))
    && (forall id :: id in s.ledger.dumps ==> s.ledger.dumps[id] == Returned(b.rows.dumps[id], at))
    && s.vault.staging == map[]
    && (forall id :: id in s.vault.objects <==> id in ids && id in b.rows.dumps && b.rows.dumps[id].phase == Available)
    && (forall id :: id in s.vault.objects ==> s.vault.objects[id] == FileOf(b, id))
  }

  /** Every stable dump of the bundle is as a reachable source leaves it. */
  ghost predicate RowsSound(ports: Ports, b: Bundle) {
    forall id :: id in b.rows.dumps && IsStable(b.rows.dumps[id].phase) ==> SoundRow(ports, b.rows.dumps[id], FileOf(b, id))
  }

  lemma OneReturned(s: Store, t: Store, b: Bundle, done: seq<DumpId>, id: DumpId, at: Time)
    requires DumpsReturned(s, b, done, at) && id !in done && id in b.rows.dumps && IsStable(b.rows.dumps[id].phase)
    requires t.ledger.dumps == s.ledger.dumps[id := Returned(b.rows.dumps[id], at)] && t.vault.staging == s.vault.staging
    requires t.vault.objects == if b.rows.dumps[id].phase == Available then s.vault.objects[id := FileOf(b, id)] else s.vault.objects
    ensures DumpsReturned(t, b, done + [id], at)
  {}

  lemma NoneReturned(s: Store, b: Bundle, done: seq<DumpId>, id: DumpId, at: Time)
    requires DumpsReturned(s, b, done, at) && id in b.rows.dumps && !IsStable(b.rows.dumps[id].phase)
    ensures DumpsReturned(s, b, done + [id], at)
  {}

  lemma {:induction false} DumpsLand(ports: Ports, s: Store, b: Bundle, ids: seq<DumpId>, tally: Tally, k: nat, at: Time)
    requires k <= |ids| && StrictlyAscending(ids) && Importing(s.ledger) && RowsSound(ports, b)
    requires forall id :: id in ids ==> id in b.rows.dumps && b.rows.dumps[id].caseId in s.ledger.cases
    requires DeclaredIds(b.manifest) == StableIds(b.rows.dumps) && DumpsReturned(s, b, ids[..k], at)
    ensures var r := LandAll(ports, s, b, ids[k..], tally, at);
            && r.ok && Onward(s.ledger, r.store.ledger) && DumpsReturned(r.store, b, ids, at)
            && r.store.ledger.customers == s.ledger.customers && r.store.ledger.cases == s.ledger.cases
            && r.store.ledger.grants == s.ledger.grants
            && var available := CountPhase(b.rows.dumps, ids[k..], Available);
               && r.tally.verified == tally.verified + available
               && r.tally.imported == tally.imported + available + CountPhase(b.rows.dumps, ids[k..], Deleted)
               && r.tally.rejected == tally.rejected + CountPhase(b.rows.dumps, ids[k..], Rejected)
    decreases |ids| - k
  {
    hide Importing, Foreign, LandDump, DumpsReturned, SoundRow, DeclaredIds;
    if k == |ids| {
      assert ids[k..] == [] && ids[..k] == ids;
    } else {
      var id := ids[k];
      assert ids[k..][0] == id && ids[k..][1..] == ids[k + 1..] && ids[..k + 1] == ids[..k] + [id];
      assert id in ids && id !in ids[..k];
      var row := b.rows.dumps[id];
      if IsStable(row.phase) {
        assert SoundRow(ports, row, FileOf(b, id));
        assert Unused(s, id) by { NotYetReturned(s, b, ids[..k], id, at); }
        DumpLands(ports, s, id, row, FileOf(b, id), at);
        var t := LandDump(ports, s, id, row, FileOf(b, id), at).0;
        OneReturned(s, t, b, ids[..k], id, at);
        DumpsLand(ports, t, b, ids, tally.After(LandingOf(row)), k + 1, at);
      } else {
        NoneReturned(s, b, ids[..k], id, at);
        DumpsLand(ports, s, b, ids, tally, k + 1, at);
      }
    }
  }

  lemma NotYetReturned(s: Store, b: Bundle, done: seq<DumpId>, id: DumpId, at: Time)
    requires DumpsReturned(s, b, done, at) && id !in done
    ensures Unused(s, id)
  {}

  ghost predicate DistinctEvents(events: seq<AuditEvent>) {
    forall i, j :: 0 <= i < j < |events| ==> events[i].eventId != events[j].eventId
  }

  ghost predicate Replayable(ports: Ports, l: Ledger, e: AuditEvent) {
    && e.eventId.origin != l.origin && !IsFinish(e, EventId(l.origin, 0)) && l.ReferencesExist(e) && !l.HasEvent(e.eventId)
    && ports.detailBytes(e.detail) <= MAX_AUDIT_DETAIL_BYTES
  }

  /** The store with more history. */
  function Extended(s: Store, events: seq<AuditEvent>): Store {
    s.(ledger := s.ledger.(audit := s.ledger.audit + events))
  }

  lemma ExtendedTwice(s: Store, a: seq<AuditEvent>, b: seq<AuditEvent>)
    ensures Extended(Extended(s, a), b) == Extended(s, a + b)
    ensures Extended(s, []) == s
  {
    assert (s.ledger.audit + a) + b == s.ledger.audit + (a + b);
    assert s.ledger.audit + [] == s.ledger.audit;
  }

  lemma EventLands(ports: Ports, s: Store, e: AuditEvent, at: Time)
    requires Importing(s.ledger) && Replayable(ports, s.ledger, e)
    ensures var (t, receipt) := s.Execute(ports, ImportAuditEvent(e), at);
            receipt == Done && t == Extended(s, [e]) && Importing(t.ledger)
  {
    ImportingIsInProgress(s.ledger);
    StillImporting(s.ledger, s.ledger.(audit := s.ledger.audit + [e]), e);
  }

  lemma StillReplayable(ports: Ports, l: Ledger, e: AuditEvent, f: AuditEvent)
    requires Replayable(ports, l, f) && e.eventId != f.eventId
    ensures forall s: Store :: s.ledger == l ==> Replayable(ports, Extended(s, [e]).ledger, f)
  {
    var m := l.(audit := l.audit + [e]);
    assert !m.HasEvent(f.eventId) by {
      forall i | 0 <= i < |m.audit| ensures m.audit[i].eventId != f.eventId {
        assert !l.HasEvent(f.eventId);
        if i < |l.audit| { assert m.audit[i] == l.audit[i]; }
      }
    }
  }

  lemma RestReplayable(ports: Ports, s: Store, events: seq<AuditEvent>)
    requires events != [] && DistinctEvents(events) && forall e :: e in events ==> Replayable(ports, s.ledger, e)
    ensures DistinctEvents(events[1..])
    ensures forall f :: f in events[1..] ==> Replayable(ports, Extended(s, [events[0]]).ledger, f)
  {
    hide Replayable;
    forall f | f in events[1..] ensures Replayable(ports, Extended(s, [events[0]]).ledger, f) {
      var k :| 0 <= k < |events[1..]| && events[1..][k] == f;
      assert events[k + 1] == f && f in events;
      StillReplayable(ports, s.ledger, events[0], f);
    }
  }

  lemma {:induction false} EventsLand(ports: Ports, s: Store, events: seq<AuditEvent>, at: Time)
    requires Importing(s.ledger) && DistinctEvents(events)
    requires forall e :: e in events ==> Replayable(ports, s.ledger, e)
    ensures RunAll(ports, s, ReplaySteps(events), at) == (Extended(s, events), true)
    ensures Importing(Extended(s, events).ledger)
    decreases |events|
  {
    hide Importing, Replayable, Store.Execute, Extended, DistinctEvents;
    if events == [] {
      ExtendedTwice(s, [], []);
    } else {
      var e, rest := events[0], events[1..];
      assert e in events;
      EventLands(ports, s, e, at);
      RestReplayable(ports, s, events);
      EventsLand(ports, Extended(s, [e]), rest, at);
      assert ReplaySteps(events)[1..] == ReplaySteps(rest);
      assert [e] + rest == events;
      ExtendedTwice(s, [e], rest);
    }
  }

  lemma {:induction false} RunAllJoin(ports: Ports, s: Store, a: seq<Command>, b: seq<Command>, at: Time)
    ensures var (t, ok) := RunAll(ports, s, a, at);
            RunAll(ports, s, a + b, at) == if ok then RunAll(ports, t, b, at) else (t, false)
    decreases |a|
  {
    hide Store.Execute;
    if a == [] {
      assert a + b == b;
    } else {
      assert (a + b)[0] == a[0] && (a + b)[1..] == a[1..] + b;
      var (t, receipt) := s.Execute(ports, a[0], at);
      if !receipt.Refused? {
        RunAllJoin(ports, t, a[1..], b, at);
      }
    }
  }

  lemma {:induction false} OversizedEventsStop(ports: Ports, s: Store, events: seq<AuditEvent>, at: Time)
    requires RunAll(ports, s, ReplaySteps(events), at).1
    ensures forall e :: e in events ==> ports.detailBytes(e.detail) <= MAX_AUDIT_DETAIL_BYTES
    decreases |events|
  {
    if events != [] {
      var (t, receipt) := s.Execute(ports, ImportAuditEvent(events[0]), at);
      assert ReplaySteps(events)[1..] == ReplaySteps(events[1..]);
      OversizedEventsStop(ports, t, events[1..], at);
    }
  }

  lemma {:induction false} ForeignJoin(audit: seq<AuditEvent>, events: seq<AuditEvent>, origin: nat)
    requires forall e :: e in events ==> e.eventId.origin != origin
    ensures Foreign(audit + events, origin) == Foreign(audit, origin) + events
    decreases |events|
  {
    if events == [] {
      assert audit + events == audit;
    } else {
      var front, last := events[..|events| - 1], events[|events| - 1];
      ForeignJoin(audit, front, origin);
      assert audit + events == (audit + front) + [last] && events == front + [last];
      assert last in events;
      ForeignSnoc(audit + front, last, origin);
    }
  }

  lemma KeptUnfolds(audit: seq<AuditEvent>, exported: set<DumpId>)
    ensures audit == [] ==> Kept(audit, exported) == []
    ensures audit != [] ==>
              Kept(audit, exported) == (if Travels(audit[0], exported) then [audit[0]] else []) + Kept(audit[1..], exported)
  {
    hide Travels;
  }

  lemma {:induction false} KeptFacts(audit: seq<AuditEvent>, exported: set<DumpId>)
    requires DistinctEvents(audit)
    ensures forall e :: e in Kept(audit, exported) ==> e in audit && Travels(e, exported)
    ensures forall e :: e in audit && Travels(e, exported) ==> e in Kept(audit, exported)
    ensures DistinctEvents(Kept(audit, exported))
  {
    hide Travels, Kept;
    KeptUnfolds(audit, exported);
    if audit != [] {
      KeptFacts(audit[1..], exported);
      assert forall e :: e in audit <==> e == audit[0] || e in audit[1..];
      forall e | e in audit[1..] ensures e.eventId != audit[0].eventId {
        var k :| 0 <= k < |audit[1..]| && audit[1..][k] == e;
        assert audit[k + 1] == e;
      }
      assert forall k :: 0 <= k < |Kept(audit[1..], exported)| ==> Kept(audit[1..], exported)[k] in audit[1..];
    }
  }

  // ---- any dump, the source's or not ----

  /** Only this row was written. */
  predicate OneRowLanded(s: Store, t: Store, id: DumpId) {
    id in t.ledger.dumps && t.ledger.dumps == s.ledger.dumps[id := t.ledger.dumps[id]]
  }

  lemma MismatchWritten(ports: Ports, s: Store, id: DumpId, row: Dump, at: Time)
    requires s.ledger.ImportInProgress() && id !in s.ledger.dumps && row.caseId in s.ledger.cases
    ensures var (t, r) := s.Execute(ports, ImportDump(id, MismatchRecord(row)), at);
            && r == Done && OneRowLanded(s, t, id) && t.vault == s.vault
            && t.ledger.dumps[id].phase == Rejected && t.ledger.dumps[id].blob == NoBlob && !t.ledger.dumps[id].downloadable
  {}

  lemma MismatchLands(ports: Ports, s: Store, id: DumpId, row: Dump, bytes: seq<byte>, at: Time)
    requires Importing(s.ledger) && Unused(s, id) && row.caseId in s.ledger.cases
    requires row.phase == Available && row.byteSize.Some? && row.sha256.Some? && !Matches(ports, row, bytes)
    ensures var (t, landing) := LandDump(ports, s, id, row, bytes, at);
            && landing == Mismatched && OneRowLanded(s, t, id) && t.vault == s.vault
            && t.ledger.dumps[id].phase == Rejected && t.ledger.dumps[id].blob == NoBlob && !t.ledger.dumps[id].downloadable
  {
    ImportingIsInProgress(s.ledger);
    MismatchWritten(ports, s, id, row, at);
    assert Concat(Chunked(bytes)) == bytes;
    assert s.vault.RemoveStaging(id) == s.vault by { assert s.vault.staging - {id} == s.vault.staging; }
    assert s.(vault := s.vault) == s;
    hide Importing, Chunked, Store.Execute, JudgeStaged, OneRowLanded, Ledger.ImportInProgress;
  }

  lemma StagedLandsAsInspected(ports: Ports, s: Store, id: DumpId, row: Dump, bytes: seq<byte>, at: Time)
    requires row.caseId in s.ledger.cases && id in s.ledger.dumps && s.ledger.dumps[id] == StagedRow(row) && row.sha256.Some?
    requires id in s.vault.staging && !s.vault.staging[id].open && s.vault.staging[id].Bytes() == bytes && id !in s.vault.objects
    ensures var (t, landing) := JudgeStaged(ports, s, id, at);
            && landing == Verified(ports.inspect(bytes).Sound?) && OneRowLanded(s, t, id)
            && t.vault == Vault(s.vault.staging - {id}, s.vault.objects[id := bytes])
            && t.ledger.dumps[id].phase == (if ports.inspect(bytes).Sound? then Available else Rejected)
            && t.ledger.dumps[id].downloadable == ports.inspect(bytes).Sound?
  {
    assert s.ledger.TransitionDump(id, PromotedEdge, at).Ok?;
    var promoted := s.PromoteObject(id, at).0;
    assert promoted.ledger.TransitionDump(id, QuarantinedEdge, at).Ok?;
    var marked := promoted.MarkQuarantined(id, at).0;
    assert marked.Inspected(ports, id) == ports.inspect(bytes);
    InspectedLands(ports, marked, id, bytes, at);
  }

  lemma InspectedLands(ports: Ports, s: Store, id: DumpId, bytes: seq<byte>, at: Time)
    requires id in s.ledger.dumps && s.ledger.dumps[id].caseId in s.ledger.cases && id in s.vault.objects && s.vault.objects[id] == bytes
    requires s.ledger.dumps[id].phase == Quarantined && s.ledger.dumps[id].blob == InVault && s.ledger.dumps[id].sha256.Some?
    ensures var (accepted, a) := s.AcceptDump(ports, id, at);
            if ports.inspect(bytes).Sound? then
              && a == Done && accepted.vault == s.vault && OneRowLanded(s, accepted, id)
              && accepted.ledger.dumps[id].phase == Available && accepted.ledger.dumps[id].downloadable
            else
              && a == Refused(InspectionOutcomeMismatch) && accepted == s
              && var (rejected, r) := s.RejectDump(ports, id, at);
                 && r == Done && rejected.vault == s.vault && OneRowLanded(s, rejected, id)
                 && rejected.ledger.dumps[id].phase == Rejected && !rejected.ledger.dumps[id].downloadable
  {
    match s.Inspected(ports, id)
    case Sound(coverage, facts) => assert s.ledger.TransitionDump(id, AcceptEdge(coverage, facts), at).Ok?;
    case Unsound(reason) => assert s.ledger.TransitionDump(id, RejectEdge(reason), at).Ok?;
  }

  /** Whatever bytes a bundle carries for a row it calls available: with another size or hash than declared the row lands
      rejected and without bytes; otherwise the bytes are stored, and the inspection of them decides whether the dump is available
      or rejected. */
  lemma AnyDumpLands(ports: Ports, s: Store, id: DumpId, row: Dump, bytes: seq<byte>, at: Time)
    requires Importing(s.ledger) && Unused(s, id) && row.caseId in s.ledger.cases
    requires row.phase == Available && row.byteSize.Some? && row.sha256.Some?
    ensures var (t, landing) := LandDump(ports, s, id, row, bytes, at);
            && OneRowLanded(s, t, id) && t.vault.staging == s.vault.staging
            && if row.byteSize.value != |bytes| || row.sha256.value != ports.hash(bytes) then
                 && landing == Mismatched && t.vault == s.vault
                 && t.ledger.dumps[id].phase == Rejected && t.ledger.dumps[id].blob == NoBlob && !t.ledger.dumps[id].downloadable
               else
                 && landing == Verified(ports.inspect(bytes).Sound?) && t.vault.objects == s.vault.objects[id := bytes]
                 && t.ledger.dumps[id].phase == (if ports.inspect(bytes).Sound? then Available else Rejected)
                 && t.ledger.dumps[id].downloadable == ports.inspect(bytes).Sound?
  {
    hide Importing, Foreign, Chunked, JudgeStaged, StageDump, Onward;
    if Matches(ports, row, bytes) {
      StagedLands(ports, s, id, row, bytes, at);
      var staged := StageDump(ports, s, id, row, Chunked(bytes), at).0;
      assert staged.vault.staging[id].Bytes() == bytes;
      StagedLandsAsInspected(ports, staged, id, row, bytes, at);
      assert staged.vault.staging - {id} == s.vault.staging;
    } else {
      MismatchLands(ports, s, id, row, bytes, at);
    }
  }
}
