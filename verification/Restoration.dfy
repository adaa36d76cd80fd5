/** The transfer law: export a reachable instance, import the bundle into an empty one. */
module Restoration {
  import opened Domain
  import opened Vaults
  import opened Ledgers
  import opened Engines
  import opened Coupling
  import opened Runs
  import opened Safety
  import opened Integrity
  import opened Manifests
  import opened Exports
  import opened Imports
  import opened Restore
  import opened Restarts
  import TarFields
  import TarArchive
  import BundleArchive

  /** Ids the target will draw occur nowhere in the source. */
  ghost predicate Unseen(l: Ledger, origin: nat) {
    forall e :: e in l.audit ==>
      e.eventId.origin != origin && (e.detail.FinishImportDetail? ==> e.detail.importId.origin != origin)
  }

  ghost predicate DetailsFit(ports: Ports, events: seq<AuditEvent>) {
    forall e :: e in events ==> ports.detailBytes(e.detail) <= MAX_AUDIT_DETAIL_BYTES
  }

  /** The target after the import, in the terms the import is described in. */
  ghost predicate Carried(src: Store, dst: Store, mismatch: bool, at: Time) {
    && dst.ledger.customers == src.ledger.customers && dst.ledger.cases == src.ledger.cases
    && (forall g :: g in dst.ledger.grants <==> g in src.ledger.grants)
    && (forall g :: g in dst.ledger.grants ==> dst.ledger.grants[g] == GrantReturned(src.ledger.grants[g], mismatch))
    && (forall d :: d in dst.ledger.dumps <==> d in src.ledger.dumps && IsStable(src.ledger.dumps[d].phase))
    && (forall d :: d in dst.ledger.dumps ==> dst.ledger.dumps[d] == Returned(src.ledger.dumps[d], at))
    && dst.vault.staging == map[]
    && (forall d :: d in dst.vault.objects <==> d in src.ledger.dumps && src.ledger.dumps[d].phase == Available)
    && (forall d :: d in dst.vault.objects ==> d in src.vault.objects && dst.vault.objects[d] == src.vault.objects[d])
    && Foreign(dst.ledger.audit, dst.ledger.origin) == Kept(src.ledger.audit, StableIds(src.ledger.dumps))
  }

  ghost predicate Tallied(src: Ledger, tally: Tally) {
    var ids := SortedIds(src.dumps.Keys);
    var available := CountPhase(src.dumps, ids, Available);
    && tally.verified == available && tally.imported == available + CountPhase(src.dumps, ids, Deleted)
    && tally.rejected == CountPhase(src.dumps, ids, Rejected)
  }

  lemma SelectedIds(l: Ledger, m: Manifest)
    requires m.dumps == DeclareAll(l.dumps, SortedIds(l.dumps.Keys)) && m.skipped == SkipAll(l.dumps, SortedIds(l.dumps.Keys))
    ensures DeclaredIds(m) == StableIds(l.dumps)
    ensures forall id :: id in l.dumps && !IsStable(l.dumps[id].phase) ==> id in SkippedIds(m)
    ensures forall k :: 0 <= k < |m.dumps| ==>
              m.dumps[k].dumpId in l.dumps && m.dumps[k] == Declare(m.dumps[k].dumpId, l.dumps[m.dumps[k].dumpId])
    ensures forall id :: id in l.dumps && IsStable(l.dumps[id].phase) ==> Declare(id, l.dumps[id]) in m.dumps
  {
    hide IsStable, DeclareAll, SkipAll, SortedIds, Declare;
    var ids := SortedIds(l.dumps.Keys);
    ExportedSet(l.dumps, m.dumps, DeclaredIds(m));
    DeclaredCovers(l.dumps, ids);
    SkippedCovers(l.dumps, ids);
    forall id | id in l.dumps && !IsStable(l.dumps[id].phase) ensures id in SkippedIds(m) {
      assert id in ids && Skipped(id, l.dumps[id].phase, NOT_STABLE) in m.skipped;
    }
    forall k | 0 <= k < |m.dumps|
      ensures m.dumps[k].dumpId in l.dumps && m.dumps[k] == Declare(m.dumps[k].dumpId, l.dumps[m.dumps[k].dumpId])
    {
      assert m.dumps[k] in m.dumps;
    }
  }

  /** The bundle of a reachable instance passes every consistency gate. */
  lemma ExportIsConsistent(ports: Ports, w: World, stamp: Stamp, analyses: map<DumpId, nat>)
    requires Reachable(ports, w)
    ensures var m := Select(w.store.ledger, stamp, analyses);
            m.Ok? && SealBundle(w.store.vault, w.store.ledger, m.value).Some? && Consistent(SealBundle(w.store.vault, w.store.ledger, m.value).value)
  {
    hide DeclareAll, SkipAll, SortedIds, Complete, Kept, CountAnalyses;
    ReachableComplete(ports, w);
    var l := w.store.ledger;
    var m := Select(l, stamp, analyses).value;
    ExportSeals(ports, w, m);
    var b := SealBundle(w.store.vault, l, m).value;
    SelectedIds(l, m);
    forall id | id in b.files ensures PromisesBytes(m, id) {
      var d := Declare(id, l.dumps[id]);
      assert d in m.dumps;
      var k :| 0 <= k < |m.dumps| && m.dumps[k] == d;
    }
    forall id | id in b.rows.dumps ensures id in DeclaredIds(m) || id in SkippedIds(m) {
      assert id in StableIds(l.dumps) || !IsStable(l.dumps[id].phase);
    }
  }

  /** What a reachable source is known to be, as the import needs it. */
  lemma SourceFacts(ports: Ports, w: World, b: Bundle)
    requires Reachable(ports, w) && b.rows == w.store.ledger
    requires forall id :: id in w.store.ledger.dumps && w.store.ledger.dumps[id].phase == Available && id in w.store.vault.objects ==>
               id in b.files && b.files[id] == w.store.vault.objects[id]
    ensures References(b.rows) && EventsSound(b.rows) && GrantsSound(b.rows) && RowsSound(ports, b)
    ensures DistinctEvents(b.rows.audit)
  {
    ReachableInv(ports, w);
    ReachableLedgerSound(ports, w);
    forall id | id in b.rows.dumps && IsStable(b.rows.dumps[id].phase) ensures SoundRow(ports, b.rows.dumps[id], FileOf(b, id)) {
      assert RowCoupled(ports, b.rows.dumps[id], w.store.vault, id);
    }
  }

  function Fresh(origin: nat): Store {
    Store(EmptyLedger(origin), Vault(map[], map[]))
  }

  lemma BeginsImporting(ports: Ports, origin: nat, digest: Digest, counts: Counts, at: Time)
    ensures var (s, receipt) := Fresh(origin).Execute(ports, BeginImport(digest, counts), at);
            && receipt == ImportBegun(EventId(origin, 0)) && Importing(s.ledger) && Foreign(s.ledger.audit, origin) == []
            && s.vault == Vault(map[], map[])
            && s.ledger.customers == map[] && s.ledger.cases == map[] && s.ledger.grants == map[] && s.ledger.dumps == map[]
            && s.ledger.origin == origin
  {
    var l := EmptyLedger(origin);
    assert l.IsEmpty() && !l.ImportInProgress();
    var s := Fresh(origin).Execute(ports, BeginImport(digest, counts), at).0;
    var e := s.ledger.audit[0];
    assert s.ledger.audit == [] + [e];
    ForeignSnoc([], e, origin);
    assert !s.ledger.ImportFinished(EventId(origin, 0));
  }

  lemma AllCustomersLand(ports: Ports, s: Store, rows: Ledger, at: Time)
    requires Importing(s.ledger) && s.ledger.customers == map[]
    ensures var (t, ok) := RunAll(ports, s, CustomerSteps(rows, SortedIds(rows.customers.Keys)), at);
            && ok && t.vault == s.vault && Onward(s.ledger, t.ledger) && t.ledger.customers == rows.customers
            && t.ledger.cases == s.ledger.cases && t.ledger.grants == s.ledger.grants && t.ledger.dumps == s.ledger.dumps
  {
    hide Importing, Foreign, RunAll, CustomerSteps, SortedIds;
    var ids := SortedIds(rows.customers.Keys);
    assert ids[0..] == ids;
    CustomersLand(ports, s, rows, ids, 0, at);
    var t := RunAll(ports, s, CustomerSteps(rows, ids), at).0;
    assert t.ledger.customers.Keys == rows.customers.Keys;
  }

  lemma AllCasesLand(ports: Ports, s: Store, rows: Ledger, at: Time)
    requires Importing(s.ledger) && s.ledger.customers == rows.customers && s.ledger.cases == map[] && References(rows)
    ensures var (t, ok) := RunAll(ports, s, CaseSteps(rows, SortedIds(rows.cases.Keys)), at);
            && ok && t.vault == s.vault && Onward(s.ledger, t.ledger) && t.ledger.cases == rows.cases
            && t.ledger.customers == s.ledger.customers && t.ledger.grants == s.ledger.grants && t.ledger.dumps == s.ledger.dumps
  {
    hide Importing, Foreign, RunAll, CaseSteps, SortedIds;
    var ids := SortedIds(rows.cases.Keys);
    assert ids[0..] == ids;
    CasesLand(ports, s, rows, ids, 0, at);
    var t := RunAll(ports, s, CaseSteps(rows, ids), at).0;
    assert t.ledger.cases.Keys == rows.cases.Keys;
  }

  lemma AllGrantsLand(ports: Ports, s: Store, rows: Ledger, mismatch: bool, at: Time)
    requires Importing(s.ledger) && s.ledger.cases == rows.cases && s.ledger.grants == map[] && References(rows) && GrantsSound(rows)
    ensures var (t, ok) := RunAll(ports, s, GrantSteps(rows, SortedIds(rows.grants.Keys), mismatch), at);
            && ok && t.vault == s.vault && Onward(s.ledger, t.ledger)
            && (forall g :: g in t.ledger.grants <==> g in rows.grants)
            && (forall g :: g in t.ledger.grants ==> t.ledger.grants[g] == GrantReturned(rows.grants[g], mismatch))
            && t.ledger.customers == s.ledger.customers && t.ledger.cases == s.ledger.cases && t.ledger.dumps == s.ledger.dumps
  {
    hide Importing, Foreign, RunAll, GrantSteps, SortedIds, GrantsSound, GrantReturned;
    var ids := SortedIds(rows.grants.Keys);
    assert ids[0..] == ids;
    GrantsLand(ports, s, rows, ids, mismatch, 0, at);
  }

  /** Customers, cases and grants all land. */
  lemma RowsLand(ports: Ports, begun: Store, b: Bundle, mismatch: bool, at: Time)
    requires Importing(begun.ledger) && References(b.rows) && GrantsSound(b.rows)
    requires begun.ledger.customers == map[] && begun.ledger.cases == map[] && begun.ledger.grants == map[]
    ensures var (t, ok) := ImportRows(ports, begun, b, mismatch, at);
            && ok && t.vault == begun.vault && Onward(begun.ledger, t.ledger) && t.ledger.dumps == begun.ledger.dumps
            && t.ledger.customers == b.rows.customers && t.ledger.cases == b.rows.cases
            && (forall g :: g in t.ledger.grants <==> g in b.rows.grants)
            && (forall g :: g in t.ledger.grants ==> t.ledger.grants[g] == GrantReturned(b.rows.grants[g], mismatch))
  {
    hide Importing, Foreign, RunAll, CustomerSteps, CaseSteps, GrantSteps, SortedIds, GrantsSound, GrantReturned, References;
    AllCustomersLand(ports, begun, b.rows, at);
    var s := RunAll(ports, begun, CustomerSteps(b.rows, SortedIds(b.rows.customers.Keys)), at).0;
    AllCasesLand(ports, s, b.rows, at);
    var t := RunAll(ports, s, CaseSteps(b.rows, SortedIds(b.rows.cases.Keys)), at).0;
    AllGrantsLand(ports, t, b.rows, mismatch, at);
  }

  /** Every kept event of the source can be replayed once its rows are there. */
  lemma HistoryReplayable(ports: Ports, b: Bundle, t: Ledger, origin: nat)
    requires EventsSound(b.rows) && DistinctEvents(b.rows.audit) && Unseen(b.rows, origin) && t.origin == origin
    requires t.customers == b.rows.customers && t.cases == b.rows.cases && Foreign(t.audit, origin) == []
    requires forall d :: d in t.dumps <==> d in StableIds(b.rows.dumps)
    requires DetailsFit(ports, Kept(b.rows.audit, StableIds(b.rows.dumps)))
    ensures forall e :: e in Kept(b.rows.audit, StableIds(b.rows.dumps)) ==> Replayable(ports, t, e)
  {
    KeptFacts(b.rows.audit, StableIds(b.rows.dumps));
    NoForeign(t.audit, origin);
    forall e | e in Kept(b.rows.audit, StableIds(b.rows.dumps)) ensures Replayable(ports, t, e) {
      assert e in b.rows.audit && Travels(e, StableIds(b.rows.dumps));
      assert b.rows.ReferencesExist(e);
    }
  }

  lemma {:induction false} NoForeign(audit: seq<AuditEvent>, origin: nat)
    requires Foreign(audit, origin) == []
    ensures forall e :: e in audit ==> e.eventId.origin == origin
  {
    if audit != [] {
      var front, last := audit[..|audit| - 1], audit[|audit| - 1];
      assert audit == front + [last];
      NoForeign(front, origin);
    }
  }

  lemma FinishLands(ports: Ports, s: Store, imported: Counts, skipped: nat, at: Time)
    requires Importing(s.ledger)
    ensures var finish := FinishImport(EventId(s.ledger.origin, 0), imported, skipped);
            var (t, ok) := RunAll(ports, s, [finish], at);
            && ok && t == s.(ledger := s.ledger.(audit := t.ledger.audit)) && Foreign(t.ledger.audit, s.ledger.origin) == Foreign(s.ledger.audit, s.ledger.origin)
  {
    hide Importing;
    var finish := FinishImport(EventId(s.ledger.origin, 0), imported, skipped);
    ImportingIsInProgress(s.ledger);
    assert !s.ledger.ImportFinished(EventId(s.ledger.origin, 0)) by { NotFinished(s.ledger); }
    var (t, receipt) := s.Execute(ports, finish, at);
    assert receipt == Done;
    assert [finish][1..] == [];
    assert RunAll(ports, t, [], at) == (t, true);
    var e := t.ledger.audit[|s.ledger.audit|];
    ForeignSnoc(s.ledger.audit, e, s.ledger.origin);
  }

  lemma NotFinished(l: Ledger)
    requires Importing(l)
    ensures !l.ImportFinished(EventId(l.origin, 0))
  {}

  /** The closing steps run exactly when every kept detail is small enough. */
  lemma HistoryLands(ports: Ports, s: Store, b: Bundle, origin: nat, at: Time)
    requires Importing(s.ledger) && s.ledger.origin == origin && Foreign(s.ledger.audit, origin) == []
    requires EventsSound(b.rows) && DistinctEvents(b.rows.audit) && Unseen(b.rows, origin)
    requires s.ledger.customers == b.rows.customers && s.ledger.cases == b.rows.cases
    requires forall d :: d in s.ledger.dumps <==> d in StableIds(b.rows.dumps)
    requires DeclaredIds(b.manifest) == StableIds(b.rows.dumps)
    ensures var kept := Kept(b.rows.audit, StableIds(b.rows.dumps));
            var (t, ok) := RunAll(ports, s, FinishSteps(b, EventId(origin, 0)), at);
            && (ok <==> DetailsFit(ports, kept))
            && (ok ==> t == s.(ledger := s.ledger.(audit := t.ledger.audit)) && Foreign(t.ledger.audit, origin) == kept)
  {
    hide Importing, Foreign, Kept, RunAll, Replayable, EventsSound, StableIds, DeclaredIds, Extended, DistinctEvents;
    var kept := Kept(b.rows.audit, StableIds(b.rows.dumps));
    var finish := [FinishImport(EventId(origin, 0), Summary(b, |kept|), |b.manifest.skipped|)];
    RunAllJoin(ports, s, ReplaySteps(kept), finish, at);
    KeptFacts(b.rows.audit, StableIds(b.rows.dumps));
    if DetailsFit(ports, kept) {
      HistoryReplayable(ports, b, s.ledger, origin);
      EventsLand(ports, s, kept, at);
      FinishLands(ports, Extended(s, kept), Summary(b, |kept|), |b.manifest.skipped|, at);
      ExtendedParts(s, kept);
      forall e | e in kept ensures e.eventId.origin != origin {
        assert e in b.rows.audit;
      }
      ForeignJoin(s.ledger.audit, kept, origin);
      assert [] + kept == kept;
    } else if RunAll(ports, s, ReplaySteps(kept), at).1 {
      OversizedEventsStop(ports, s, kept, at);
    }
  }

  lemma ExtendedParts(s: Store, events: seq<AuditEvent>)
    ensures var t := Extended(s, events);
            t.ledger.audit == s.ledger.audit + events && t.ledger.origin == s.ledger.origin
            && t == s.(ledger := s.ledger.(audit := t.ledger.audit))
  {}

  /** The import of an export, in the terms of its steps. */
  lemma ImportCarries(ports: Ports, w: World, stamp: Stamp, analyses: map<DumpId, nat>,
                             origin: nat, digest: Digest, mismatch: bool, at: Time)
    requires Reachable(ports, w) && Unseen(w.store.ledger, origin)
    ensures var l := w.store.ledger;
            var m := Select(l, stamp, analyses);
            && m.Ok? && SealBundle(w.store.vault, l, m.value).Some?
            && var r := Import(ports, Fresh(origin), SealBundle(w.store.vault, l, m.value).value, digest, mismatch, at);
               && (r.Finished? <==> SlotsFit(l.grants) && DetailsFit(ports, Kept(l.audit, StableIds(l.dumps))))
               && (r.Finished? ==> Carried(w.store, r.store, mismatch, at) && Tallied(l, r.tally))
               && (!SlotsFit(l.grants) ==> r.store == Fresh(origin))
  {
    hide Importing, Foreign, Kept, RunAll, GrantReturned, LandAll, ImportRows, FinishSteps, SortedIds, StableIds, DeclaredIds, SlotsFit,
         Consistent, DumpsReturned, RowsSound, EventsSound, GrantsSound, Select, SealBundle, Carried, Tallied, Unseen, Store.Execute,
         DetailsFit, DistinctEvents;
    var l := w.store.ledger;
    ExportIsConsistent(ports, w, stamp, analyses);
    var m := Select(l, stamp, analyses).value;
    var b := SealBundle(w.store.vault, l, m).value;
    BundleParts(ports, w, m, stamp, analyses);
    if SlotsFit(l.grants) {
      SourceFacts(ports, w, b);
      BeginsImporting(ports, origin, digest, m.counts, at);
      var begun := Fresh(origin).Execute(ports, BeginImport(digest, m.counts), at).0;
      RowsLand(ports, begun, b, mismatch, at);
      var rows := ImportRows(ports, begun, b, mismatch, at).0;
      var ids := SortedIds(l.dumps.Keys);
      assert ids[0..] == ids && ids[..0] == [];
      NothingReturned(rows, b, at);
      DumpsLand(ports, rows, b, ids, Tally(0, 0, 0), 0, at);
      var landed := LandAll(ports, rows, b, ids, Tally(0, 0, 0), at);
      ReturnedIds(landed.store, b, ids, at);
      HistoryLands(ports, landed.store, b, origin, at);
      var (done, ok) := RunAll(ports, landed.store, FinishSteps(b, EventId(origin, 0)), at);
      if ok {
        Assembled(w.store, b, landed.store, done, mismatch, at);
        TalliedIs(l, landed.tally);
      }
    }
  }

  lemma BundleParts(ports: Ports, w: World, m: Manifest, stamp: Stamp, analyses: map<DumpId, nat>)
    requires Reachable(ports, w) && Select(w.store.ledger, stamp, analyses) == Ok(m) && SealBundle(w.store.vault, w.store.ledger, m).Some?
    ensures var b := SealBundle(w.store.vault, w.store.ledger, m).value;
            && b.manifest == m && b.rows == w.store.ledger && DeclaredIds(m) == StableIds(w.store.ledger.dumps)
            && forall id :: id in w.store.ledger.dumps && w.store.ledger.dumps[id].phase == Available ==>
                 id in w.store.vault.objects && id in b.files && b.files[id] == w.store.vault.objects[id]
  {
    hide DeclareAll, SkipAll, SortedIds, Complete, Kept, CountAnalyses;
    SelectedIds(w.store.ledger, m);
    ExportSeals(ports, w, m);
  }

  lemma NothingReturned(s: Store, b: Bundle, at: Time)
    requires s.ledger.dumps == map[] && s.vault == Vault(map[], map[])
    ensures DumpsReturned(s, b, [], at)
  {}

  lemma ReturnedIds(s: Store, b: Bundle, ids: seq<DumpId>, at: Time)
    requires DumpsReturned(s, b, ids, at) && forall id :: id in ids <==> id in b.rows.dumps
    ensures forall d :: d in s.ledger.dumps <==> d in StableIds(b.rows.dumps)
  {}

  lemma TalliedIs(l: Ledger, tally: Tally)
    requires var ids := SortedIds(l.dumps.Keys);
             var available := CountPhase(l.dumps, ids, Available);
             && tally.verified == available && tally.imported == available + CountPhase(l.dumps, ids, Deleted)
             && tally.rejected == CountPhase(l.dumps, ids, Rejected)
    ensures Tallied(l, tally)
  {}

  lemma Assembled(src: Store, b: Bundle, landed: Store, done: Store, mismatch: bool, at: Time)
    requires b.rows == src.ledger && DumpsReturned(landed, b, SortedIds(src.ledger.dumps.Keys), at)
    requires forall id :: id in src.ledger.dumps && src.ledger.dumps[id].phase == Available ==>
               id in src.vault.objects && id in b.files && b.files[id] == src.vault.objects[id]
    requires landed.ledger.customers == src.ledger.customers && landed.ledger.cases == src.ledger.cases
    requires forall g :: g in landed.ledger.grants <==> g in src.ledger.grants
    requires forall g :: g in landed.ledger.grants ==> landed.ledger.grants[g] == GrantReturned(src.ledger.grants[g], mismatch)
    requires done == landed.(ledger := landed.ledger.(audit := done.ledger.audit))
    requires Foreign(done.ledger.audit, done.ledger.origin) == Kept(src.ledger.audit, StableIds(src.ledger.dumps))
    ensures Carried(src, done, mismatch, at)
  {
    hide Foreign, Kept, GrantReturned, Returned, IsStable;
    var ids := SortedIds(src.ledger.dumps.Keys);
    hide SortedIds;
    assert forall id :: id in ids <==> id in src.ledger.dumps;
    assert landed.ledger.dumps == done.ledger.dumps && landed.vault == done.vault;
  }

  // ---- what was carried, read off the source ----

  /** An event that names no dump, or one that is available, rejected or deleted. */
  predicate Historic(l: Ledger, e: AuditEvent) {
    e.dumpId.Some? ==>
      && e.dumpId.value in l.dumps
      && (l.dumps[e.dumpId.value].phase == Available || l.dumps[e.dumpId.value].phase == Rejected || l.dumps[e.dumpId.value].phase == Deleted)
  }

  /** `from` lists the positions of the source's historic events and `to` those of the target's foreign events; they hold the
      same events in the same order. */
  ghost predicate HistoryCarried(l: Ledger, m: Ledger, from: seq<nat>, to: seq<nat>) {
    && StrictlyAscending(from) && (forall i: nat :: i in from <==> i < |l.audit| && Historic(l, l.audit[i]))
    && StrictlyAscending(to) && (forall j: nat :: j in to <==> j < |m.audit| && m.audit[j].eventId.origin != m.origin)
    && |from| == |to| && forall k :: 0 <= k < |from| ==> from[k] in from && to[k] in to && m.audit[to[k]] == l.audit[from[k]]
  }

  /** The target after the import: customers and cases; grants, issued ones revoked under another key; the settled dumps, the
      available with their bytes and the others without; and the history, minus the events of dumps in flight. */
  ghost predicate Restored(src: Store, dst: Store, mismatch: bool, at: Time) {
    var l, m := src.ledger, dst.ledger;
    && m.customers == l.customers && m.cases == l.cases && m.grants.Keys == l.grants.Keys
    && (forall g :: g in l.grants ==>
          m.grants[g] == if mismatch && l.grants[g].state == Issued then l.grants[g].(state := Revoked) else l.grants[g])
    && (forall d :: d in m.dumps <==>
          d in l.dumps && (l.dumps[d].phase == Available || l.dumps[d].phase == Rejected || l.dumps[d].phase == Deleted))
    && (forall d :: d in m.dumps ==>
          m.dumps[d] == if l.dumps[d].phase == Available then l.dumps[d].(availableAt := Some(at))
                        else l.dumps[d].(blob := NoBlob, downloadable := false))
    && dst.vault.staging == map[]
    && (forall d :: d in dst.vault.objects <==> d in l.dumps && l.dumps[d].phase == Available)
    && (forall d :: d in dst.vault.objects ==> d in src.vault.objects && dst.vault.objects[d] == src.vault.objects[d])
    && exists from, to :: HistoryCarried(l, m, from, to)
  }

  predicate Kind(exported: set<DumpId>, e: AuditEvent) {
    e.dumpId.None? || e.dumpId.value in exported
  }

  /** Positions in the tail, seen from the whole. */
  lemma Shift(rest: seq<nat>) returns (shifted: seq<nat>)
    requires StrictlyAscending(rest)
    ensures |shifted| == |rest| && StrictlyAscending(shifted) && StrictlyAscending([0] + shifted)
    ensures forall k :: 0 <= k < |rest| ==> shifted[k] == rest[k] + 1
    ensures forall i: nat :: i in shifted <==> i > 0 && i - 1 in rest
  {
    shifted := seq(|rest|, k requires 0 <= k < |rest| => rest[k] + 1);
    assert forall k :: 0 <= k < |rest| ==> shifted[k] == rest[k] + 1 && rest[k] in rest;
    forall i: nat | i > 0 && i - 1 in rest ensures i in shifted {
      var k :| 0 <= k < |rest| && rest[k] == i - 1;
      assert shifted[k] == i;
    }
  }

  /** One event in front of a log whose positions are known. */
  lemma PositionsFrom(audit: seq<AuditEvent>, exported: set<DumpId>, rest: seq<nat>, shifted: seq<nat>, from: seq<nat>)
    requires audit != [] && from == (if Kind(exported, audit[0]) then [0] else []) + shifted
    requires forall i: nat :: i in rest <==> i < |audit| - 1 && Kind(exported, audit[1..][i])
    requires forall i: nat :: i in shifted <==> i > 0 && i - 1 in rest
    ensures forall i: nat :: i in from <==> i < |audit| && Kind(exported, audit[i])
  {
    hide Kind;
    forall i: nat ensures i in from <==> i < |audit| && Kind(exported, audit[i]) {
      assert i in from <==> (i == 0 && Kind(exported, audit[0])) || i in shifted;
      if 0 < i < |audit| { assert audit[1..][i - 1] == audit[i]; }
    }
  }

  lemma EventsAt(audit: seq<AuditEvent>, here: bool, keptRest: seq<AuditEvent>, rest: seq<nat>, shifted: seq<nat>, from: seq<nat>)
    requires audit != [] && from == (if here then [0] else []) + shifted && |rest| == |shifted| == |keptRest|
    requires forall k :: 0 <= k < |rest| ==> rest[k] < |audit| - 1 && keptRest[k] == audit[1..][rest[k]] && shifted[k] == rest[k] + 1
    ensures forall k :: 0 <= k < |from| ==>
              from[k] < |audit| && from[k] in from && ((if here then [audit[0]] else []) + keptRest)[k] == audit[from[k]]
  {}

  /** Where the kept events stand in the log. */
  lemma {:induction false} KeptPositions(audit: seq<AuditEvent>, exported: set<DumpId>) returns (from: seq<nat>)
    ensures StrictlyAscending(from) && |from| == |Kept(audit, exported)|
    ensures forall i: nat :: i in from <==> i < |audit| && Kind(exported, audit[i])
    ensures forall k :: 0 <= k < |from| ==> from[k] < |audit| && from[k] in from && Kept(audit, exported)[k] == audit[from[k]]
  {
    hide Kept, Kind, StrictlyAscending, Travels;
    KeptUnfolds(audit, exported);
    if audit == [] {
      from := [];
      assert StrictlyAscending([]) by { NoneAscend(); }
    } else {
      var rest := KeptPositions(audit[1..], exported);
      var shifted := Shift(rest);
      var here := Kind(exported, audit[0]);
      from := (if here then [0] else []) + shifted;
      assert Travels(audit[0], exported) <==> here by { SameKind(audit[0], exported); }
      assert [] + shifted == shifted;
      PositionsFrom(audit, exported, rest, shifted, from);
      EventsAt(audit, here, Kept(audit[1..], exported), rest, shifted, from);
    }
  }

  lemma NoneAscend()
    ensures StrictlyAscending([])
  {}

  lemma SameKind(e: AuditEvent, exported: set<DumpId>)
    ensures Travels(e, exported) <==> Kind(exported, e)
  {}

  /** One event behind a log whose foreign positions are known. */
  lemma ForeignAt(audit: seq<AuditEvent>, origin: nat, before: seq<nat>, found: seq<AuditEvent>, to: seq<nat>)
    requires audit != [] && |before| == |found| && StrictlyAscending(before)
    requires var n := |audit| - 1;
             && (forall j: nat :: j in before <==> j < n && audit[..n][j].eventId.origin != origin)
             && (forall k :: 0 <= k < |before| ==> before[k] in before && before[k] < n && found[k] == audit[..n][before[k]])
             && to == if audit[n].eventId.origin == origin then before else before + [n]
    ensures StrictlyAscending(to) && forall j: nat :: j in to <==> j < |audit| && audit[j].eventId.origin != origin
    ensures var n := |audit| - 1;
            var all := found + (if audit[n].eventId.origin == origin then [] else [audit[n]]);
            |all| == |to| && forall k :: 0 <= k < |to| ==> to[k] < |audit| && to[k] in to && all[k] == audit[to[k]]
  {
    var n := |audit| - 1;
    forall j: nat ensures j in to <==> j < |audit| && audit[j].eventId.origin != origin {
      assert j in to <==> j in before || (j == n && audit[n].eventId.origin != origin);
      if j < n { assert audit[..n][j] == audit[j]; }
    }
  }

  lemma {:induction false} ForeignPositions(audit: seq<AuditEvent>, origin: nat) returns (to: seq<nat>)
    ensures StrictlyAscending(to) && |to| == |Foreign(audit, origin)|
    ensures forall j: nat :: j in to <==> j < |audit| && audit[j].eventId.origin != origin
    ensures forall k :: 0 <= k < |to| ==> to[k] < |audit| && to[k] in to && Foreign(audit, origin)[k] == audit[to[k]]
    decreases |audit|
  {
    if audit == [] {
      to := [];
      NoneAscend();
    } else {
      var n := |audit| - 1;
      ForeignUnfolds(audit, origin);
      hide Foreign, StrictlyAscending;
      var before := ForeignPositions(audit[..n], origin);
      to := if audit[n].eventId.origin == origin then before else before + [n];
      ForeignAt(audit, origin, before, Foreign(audit[..n], origin), to);
    }
  }

  lemma ForeignUnfolds(audit: seq<AuditEvent>, origin: nat)
    requires audit != []
    ensures var n := |audit| - 1;
            Foreign(audit, origin) == Foreign(audit[..n], origin) + (if audit[n].eventId.origin == origin then [] else [audit[n]])
  {}

  lemma HistoryStands(l: Ledger, m: Ledger) returns (from: seq<nat>, to: seq<nat>)
    requires Foreign(m.audit, m.origin) == Kept(l.audit, StableIds(l.dumps))
    ensures HistoryCarried(l, m, from, to) && |from| == |Kept(l.audit, StableIds(l.dumps))|
  {
    from := KeptPositions(l.audit, StableIds(l.dumps));
    to := ForeignPositions(m.audit, m.origin);
    forall i: nat ensures i in from <==> i < |l.audit| && Historic(l, l.audit[i]) {}
  }

  lemma CarriedIsRestored(src: Store, dst: Store, mismatch: bool, at: Time)
    requires Carried(src, dst, mismatch, at)
    ensures Restored(src, dst, mismatch, at)
  {
    hide Foreign, Kept, StableIds, HistoryCarried;
    var from, to := HistoryStands(src.ledger, dst.ledger);
    assert dst.ledger.grants.Keys == src.ledger.grants.Keys;
  }

  function InPhase(dumps: map<DumpId, Dump>, phase: Phase): set<DumpId> {
    set id | id in dumps && dumps[id].phase == phase
  }

  function Among(dumps: map<DumpId, Dump>, ids: seq<DumpId>, phase: Phase): set<DumpId> {
    set id | id in ids && id in dumps && dumps[id].phase == phase
  }

  lemma AmongFirst(dumps: map<DumpId, Dump>, id: DumpId, rest: seq<DumpId>, phase: Phase)
    requires id !in rest && id in dumps
    ensures |Among(dumps, [id] + rest, phase)| == (if dumps[id].phase == phase then 1 else 0) + |Among(dumps, rest, phase)|
  {
    var there := Among(dumps, rest, phase);
    assert Among(dumps, [id] + rest, phase) == if dumps[id].phase == phase then {id} + there else there;
  }

  lemma {:induction false} PhaseCounted(dumps: map<DumpId, Dump>, ids: seq<DumpId>, phase: Phase)
    requires (forall j, k :: 0 <= j < k < |ids| ==> ids[j] != ids[k]) && forall id :: id in ids ==> id in dumps
    ensures CountPhase(dumps, ids, phase) == |Among(dumps, ids, phase)|
    decreases |ids|
  {
    hide Among;
    if ids != [] {
      var id, rest := ids[0], ids[1..];
      assert ids == [id] + rest && id !in rest;
      PhaseCounted(dumps, rest, phase);
      AmongFirst(dumps, id, rest, phase);
    } else {
      assert |Among(dumps, ids, phase)| == 0 by { NobodyAmong(dumps, phase); }
    }
  }

  lemma NobodyAmong(dumps: map<DumpId, Dump>, phase: Phase)
    ensures Among(dumps, [], phase) == {}
  {}

  lemma TalliedSets(l: Ledger, tally: Tally)
    requires Tallied(l, tally)
    ensures && tally.verified == |InPhase(l.dumps, Available)|
            && tally.imported == |InPhase(l.dumps, Available)| + |InPhase(l.dumps, Deleted)|
            && tally.rejected == |InPhase(l.dumps, Rejected)|
  {
    hide CountPhase;
    var ids := SortedIds(l.dumps.Keys);
    PhaseCounted(l.dumps, ids, Available);
    PhaseCounted(l.dumps, ids, Deleted);
    PhaseCounted(l.dumps, ids, Rejected);
    forall phase ensures Among(l.dumps, ids, phase) == InPhase(l.dumps, phase) {
      assert forall id :: id in ids <==> id in l.dumps;
    }
  }

  /** Every grant fits 16 slots and every historic detail 16 KiB. */
  predicate FitsLimits(ports: Ports, l: Ledger) {
    && (forall g :: g in l.grants ==> l.grants[g].maxUploads <= 16 && l.grants[g].uploadsUsed <= 16)
    && forall e :: e in l.audit && Historic(l, e) ==> ports.detailBytes(e.detail) <= 16384
  }

  lemma KeptIsHistoric(l: Ledger)
    ensures forall e :: e in Kept(l.audit, StableIds(l.dumps)) <==> e in l.audit && Historic(l, e)
  {
    hide Kept;
    var kept := Kept(l.audit, StableIds(l.dumps));
    var from := KeptPositions(l.audit, StableIds(l.dumps));
    forall e ensures e in kept <==> e in l.audit && Historic(l, e) {
      if e in kept {
        var k :| 0 <= k < |kept| && kept[k] == e;
        assert l.audit[from[k]] == e && from[k] in from;
      }
      if e in l.audit && Historic(l, e) {
        var i: nat :| i < |l.audit| && l.audit[i] == e;
        assert i in from;
        var k :| 0 <= k < |from| && from[k] == i;
        assert kept[k] == e;
      }
    }
  }

  lemma LimitsFit(ports: Ports, l: Ledger)
    ensures FitsLimits(ports, l) <==> SlotsFit(l.grants) && DetailsFit(ports, Kept(l.audit, StableIds(l.dumps)))
  {
    hide Kept, StableIds, Historic;
    KeptIsHistoric(l);
  }

  /** A declared dump: its row says the same, and bytes that are promised are there. */
  predicate Backed(b: Bundle, d: Declared) {
    && d.dumpId in b.rows.dumps && (d.phase == Available ==> d.dumpId in b.files)
    && var row := b.rows.dumps[d.dumpId];
       && row.phase == d.phase && row.caseId == d.caseId && row.originalName == d.originalName
       && row.byteSize == d.byteSize && row.sha256 == d.sha256
  }

  /** The event names no dump, or one the manifest declares. */
  predicate Told(m: Manifest, e: AuditEvent) {
    e.dumpId.None? || exists k :: 0 <= k < |m.dumps| && m.dumps[k].dumpId == e.dumpId.value
  }

  /** Whatever the bundle: an import gets past its gates exactly when every grant fits 16 slots, every declared dump is backed by
      its row and its bytes, every row is declared or skipped, every file is promised, and the counts are right, that of the
      events being the number of positions `from` at which the log tells of what is declared. Otherwise nothing is written. */
  lemma GatesAreExact(ports: Ports, s: Store, b: Bundle, digest: Digest, mismatch: bool, at: Time) returns (from: seq<nat>)
    ensures StrictlyAscending(from) && forall i: nat :: i in from <==> i < |b.rows.audit| && Told(b.manifest, b.rows.audit[i])
    ensures var m := b.manifest;
            Opens(b) <==>
            && (forall g :: g in b.rows.grants ==> b.rows.grants[g].maxUploads <= 16 && b.rows.grants[g].uploadsUsed <= 16)
            && (forall k :: 0 <= k < |m.dumps| ==> Backed(b, m.dumps[k]))
            && (forall id :: id in b.rows.dumps ==>
                  || (exists k :: 0 <= k < |m.dumps| && m.dumps[k].dumpId == id)
                  || (exists k :: 0 <= k < |m.skipped| && m.skipped[k].dumpId == id))
            && (forall id :: id in b.files ==> exists k :: 0 <= k < |m.dumps| && m.dumps[k].dumpId == id && m.dumps[k].phase == Available)
            && m.counts.customers == |b.rows.customers| && m.counts.cases == |b.rows.cases| && m.counts.grants == |b.rows.grants|
            && (m.counts.auditEvents.Some? ==> m.counts.auditEvents.value == |from|)
    ensures !Opens(b) ==> Import(ports, s, b, digest, mismatch, at) == Unfinished(s)
  {
    hide Kept, Kind, Told, Backed, DeclarationAgrees, PromisesBytes, StrictlyAscending;
    from := KeptPositions(b.rows.audit, DeclaredIds(b.manifest));
    forall i: nat | i < |b.rows.audit| ensures Kind(DeclaredIds(b.manifest), b.rows.audit[i]) <==> Told(b.manifest, b.rows.audit[i]) {
      ToldIs(b.manifest, b.rows.audit[i]);
    }
    forall k | 0 <= k < |b.manifest.dumps| ensures DeclarationAgrees(b, b.manifest.dumps[k]) <==> Backed(b, b.manifest.dumps[k]) {
      BackedIs(b, b.manifest.dumps[k]);
    }
    PromisedIs(b.manifest);
  }

  lemma ToldIs(m: Manifest, e: AuditEvent)
    ensures Kind(DeclaredIds(m), e) <==> Told(m, e)
  {}

  lemma BackedIs(b: Bundle, d: Declared)
    ensures DeclarationAgrees(b, d) <==> Backed(b, d)
  {}

  lemma PromisedIs(m: Manifest)
    ensures forall id :: PromisesBytes(m, id) <==> exists k :: 0 <= k < |m.dumps| && m.dumps[k].dumpId == id && m.dumps[k].phase == Available
  {}

  /** The manifest of a selection says what travels: the settled dumps in id order with their rows' facts, the ones in flight
      as skipped, and how many customers, cases, grants, dumps and historic events there are. */
  lemma ManifestCounts(l: Ledger, stamp: Stamp, analyses: map<DumpId, nat>) returns (from: seq<nat>)
    requires Select(l, stamp, analyses).Ok?
    ensures var m := Select(l, stamp, analyses).value;
            && StrictlyAscending(from) && (forall i: nat :: i in from <==> i < |l.audit| && Historic(l, l.audit[i]))
            && m.counts == Counts(|l.customers|, |l.cases|, |l.grants|, |m.dumps|, Some(|from|))
            && (forall j, k :: 0 <= j < k < |m.dumps| ==> m.dumps[j].dumpId < m.dumps[k].dumpId)
            && (forall id :: (exists k :: 0 <= k < |m.dumps| && m.dumps[k].dumpId == id) <==>
                  id in l.dumps && (l.dumps[id].phase == Available || l.dumps[id].phase == Rejected || l.dumps[id].phase == Deleted))
            && (forall k :: 0 <= k < |m.dumps| ==>
                  var d := l.dumps[m.dumps[k].dumpId];
                  m.dumps[k] == Declared(m.dumps[k].dumpId, d.caseId, d.phase, d.originalName, d.byteSize, d.sha256))
  {
    hide Kept, DeclareAll, SkipAll, CountAnalyses, Complete;
    from := KeptPositions(l.audit, StableIds(l.dumps));
    var m, ids := Select(l, stamp, analyses).value, SortedIds(l.dumps.Keys);
    DeclaredCovers(l.dumps, ids);
    forall k | 0 <= k < |m.dumps| ensures m.dumps[k] in DeclareAll(l.dumps, ids) {}
    forall id | id in l.dumps && IsStable(l.dumps[id].phase) ensures exists k :: 0 <= k < |m.dumps| && m.dumps[k].dumpId == id {
      assert Declare(id, l.dumps[id]) in m.dumps;
      var k :| 0 <= k < |m.dumps| && m.dumps[k] == Declare(id, l.dumps[id]);
    }
  }

  /** Exporting a reachable instance and importing the bundle into an empty one: the import finishes exactly when every
      grant fits the reader's slot limit and every replayed detail the engine's size limit. When it does, customers and
      cases are the same; grants are the same, except that under another key issued ones are revoked; available dumps
      are available again with the same row and bytes; rejected and deleted ones are byte-free tombstones; dumps in flight
      are absent; and the history is the source's log without the events of dumps in flight. */
  lemma ImportRestoresExport(ports: Ports, w: World, stamp: Stamp, analyses: map<DumpId, nat>,
                             origin: nat, digest: Digest, mismatch: bool, at: Time)
    requires Reachable(ports, w) && Unseen(w.store.ledger, origin)
    ensures var l := w.store.ledger;
            var m := Select(l, stamp, analyses);
            && m.Ok? && SealBundle(w.store.vault, l, m.value).Some?
            && var r := Import(ports, Fresh(origin), SealBundle(w.store.vault, l, m.value).value, digest, mismatch, at);
               && (r.Finished? <==> FitsLimits(ports, l))
               && (r.Finished? ==>
                     && Restored(w.store, r.store, mismatch, at)
                     && r.tally.verified == |InPhase(l.dumps, Available)|
                     && r.tally.imported == |InPhase(l.dumps, Available)| + |InPhase(l.dumps, Deleted)|
                     && r.tally.rejected == |InPhase(l.dumps, Rejected)|)
               && ((exists g :: g in l.grants && (l.grants[g].maxUploads > 16 || l.grants[g].uploadsUsed > 16)) ==> r.store == Fresh(origin))
  {
    hide Import, Select, SealBundle, Restored, Carried, Tallied, Kept, Reachable, Unseen, DetailsFit, StableIds;
    ImportCarries(ports, w, stamp, analyses, origin, digest, mismatch, at);
    var l := w.store.ledger;
    LimitsFit(ports, l);
    var r := Import(ports, Fresh(origin), SealBundle(w.store.vault, l, Select(l, stamp, analyses).value).value, digest, mismatch, at);
    if r.Finished? {
      CarriedIsRestored(w.store, r.store, mismatch, at);
      TalliedSets(l, r.tally);
    }
  }

  /** The same law down to the bytes of the sealed archive: what is opened again from it restores the source. */
  lemma ArchiveRestores(ports: Ports, w: World, stamp: Stamp, analyses: map<DumpId, nat>, origin: nat, digest: Digest,
                        mismatch: bool, at: Time, codec: BundleArchive.Codec, lim: TarArchive.Limits, maxLedger: nat)
    requires Reachable(ports, w) && Unseen(w.store.ledger, origin) && BundleArchive.CodecSound(codec, w.store.ledger.dumps.Keys)
    requires FitsLimits(ports, w.store.ledger)
    requires Select(w.store.ledger, stamp, analyses).Ok? ==>
               var sealedUp := SealBundle(w.store.vault, w.store.ledger, Select(w.store.ledger, stamp, analyses).value);
               sealedUp.Some? ==> BundleArchive.Fits(codec, sealedUp.value, lim, maxLedger)
    ensures var m := Select(w.store.ledger, stamp, analyses);
            && m.Ok? && SealBundle(w.store.vault, w.store.ledger, m.value).Some?
            && var entries := BundleArchive.BundleEntries(codec, SealBundle(w.store.vault, w.store.ledger, m.value).value);
               && TarArchive.AllWritable(entries)
               && var reopened := BundleArchive.Open(codec, TarArchive.Archive(entries, 420), lim, maxLedger);
                  && reopened.Some?
                  && var r := Import(ports, Fresh(origin), reopened.value, digest, mismatch, at);
                     r.Finished? && Restored(w.store, r.store, mismatch, at)
  {
    hide Import, Select, SealBundle, Restored, BundleArchive.Open, BundleArchive.BundleEntries, BundleArchive.Fits, TarArchive.Archive,
         BundleArchive.CodecSound, Reachable, Unseen, FitsLimits;
    ImportRestoresExport(ports, w, stamp, analyses, origin, digest, mismatch, at);
    var b := SealBundle(w.store.vault, w.store.ledger, Select(w.store.ledger, stamp, analyses).value).value;
    assert b.files.Keys <= w.store.ledger.dumps.Keys by { FilesAreDumps(w.store, Select(w.store.ledger, stamp, analyses).value); }
    SoundForFewer(codec, w.store.ledger.dumps.Keys, b.files.Keys);
    BundleArchive.SealedBundleOpens(codec, b, lim, maxLedger);
  }

  lemma SoundForFewer(codec: BundleArchive.Codec, ids: set<DumpId>, fewer: set<DumpId>)
    requires BundleArchive.CodecSound(codec, ids) && fewer <= ids
    ensures BundleArchive.CodecSound(codec, fewer)
  {
    hide BundleArchive.IsIdText;
  }

  lemma FilesAreDumps(s: Store, m: Manifest)
    requires SealBundle(s.vault, s.ledger, m).Some?
    ensures var files := SealBundle(s.vault, s.ledger, m).value.files;
            && files.Keys <= s.ledger.dumps.Keys
            && forall id :: id in files ==> id in s.vault.objects && files[id] == s.vault.objects[id]
  {}

  /** The law through the bytes has instances: any exported bundle of small ids and of objects within the size field is
      held by some archive. */
  lemma SomeArchiveHolds(w: World, m: Manifest)
    requires forall id :: id in w.store.ledger.dumps ==> id < BundleArchive.NAMED_IDS
    requires forall id :: id in w.store.vault.objects ==> |w.store.vault.objects[id]| < TarFields.BASE256_SIZE_LIMIT
    requires SealBundle(w.store.vault, w.store.ledger, m).Some?
    ensures exists codec: BundleArchive.Codec, lim: TarArchive.Limits, maxLedger: nat ::
              && BundleArchive.CodecSound(codec, w.store.ledger.dumps.Keys)
              && BundleArchive.Fits(codec, SealBundle(w.store.vault, w.store.ledger, m).value, lim, maxLedger)
  {
    hide SealBundle, BundleArchive.CodecSound, BundleArchive.Fits, BundleArchive.NAMED_IDS;
    FilesAreDumps(w.store, m);
    var b := SealBundle(w.store.vault, w.store.ledger, m).value;
    BundleArchive.SomeCodecFits(b, w.store.ledger.dumps.Keys);
  }
}
