/** Opening an export: the frozen selection, the ledger copy and the promised bytes. */
module Exports {
  import opened Domain
  import opened Vaults
  import opened Ledgers
  import opened Engines
  import opened Coupling
  import opened Runs
  import opened Safety
  import opened Manifests

  /** A sealed bundle: the manifest, the ledger copy and the vault entries. */
  datatype Bundle = Bundle(manifest: Manifest, rows: Ledger, files: map<DumpId, seq<byte>>)

  datatype Stamp = Stamp(createdAt: string, version: string, schemaMigrations: nat, fingerprint: string)

  function Declare(id: DumpId, d: Dump): Declared {
    Declared(id, d.caseId, d.phase, d.originalName, d.byteSize, d.sha256)
  }

  function DeclareAll(dumps: map<DumpId, Dump>, ids: seq<DumpId>): seq<Declared>
    requires forall id :: id in ids ==> id in dumps
  {
    if ids == [] then []
    else (if IsStable(dumps[ids[0]].phase) then [Declare(ids[0], dumps[ids[0]])] else []) + DeclareAll(dumps, ids[1..])
  }

  function SkipAll(dumps: map<DumpId, Dump>, ids: seq<DumpId>): seq<Skipped>
    requires forall id :: id in ids ==> id in dumps
  {
    if ids == [] then []
    else (if IsStable(dumps[ids[0]].phase) then [] else [Skipped(ids[0], dumps[ids[0]].phase, NOT_STABLE)]) + SkipAll(dumps, ids[1..])
  }

  function StableIds(dumps: map<DumpId, Dump>): set<DumpId> {
    set id | id in dumps && IsStable(dumps[id].phase)
  }

  predicate Travels(e: AuditEvent, exported: set<DumpId>) {
    e.dumpId.None? || e.dumpId.value in exported
  }

  /** The events that do not name a dump left behind. */
  function Kept(audit: seq<AuditEvent>, exported: set<DumpId>): seq<AuditEvent> {
    if audit == [] then []
    else (if Travels(audit[0], exported) then [audit[0]] else []) + Kept(audit[1..], exported)
  }

  /** The analysis reports attached to the exported dumps. */
  function CountAnalyses(analyses: map<DumpId, nat>, dumps: seq<Declared>): nat {
    if dumps == [] then 0
    else (if dumps[0].dumpId in analyses then analyses[dumps[0].dumpId] else 0) + CountAnalyses(analyses, dumps[1..])
  }

  predicate Complete(d: Dump) {
    d.phase == Available ==> d.byteSize.Some? && d.sha256.Some?
  }

  function Select(l: Ledger, stamp: Stamp, analyses: map<DumpId, nat>): Result<Manifest> {
    if exists id | id in l.dumps :: !Complete(l.dumps[id]) then Err(IntegrityFailure)
    else
      var ids := SortedIds(l.dumps.Keys);
      var dumps := DeclareAll(l.dumps, ids);
      Ok(Manifest(stamp.createdAt, stamp.version, stamp.schemaMigrations, stamp.fingerprint,
                  Counts(|l.customers|, |l.cases|, |l.grants|, |dumps|, Some(|Kept(l.audit, StableIds(l.dumps))|)),
                  Some(CountAnalyses(analyses, dumps)), SkipAll(l.dumps, ids), dumps))
  }

  method CountKept(audit: seq<AuditEvent>, exported: set<DumpId>) returns (n: nat)
    ensures n == |Kept(audit, exported)|
  {
    n := 0;
    assert audit[0..] == audit;
    for k := 0 to |audit|
      invariant n + |Kept(audit[k..], exported)| == |Kept(audit, exported)|
    {
      assert audit[k..][0] == audit[k] && audit[k..][1..] == audit[k + 1..];
      if Travels(audit[k], exported) { n := n + 1; }
    }
  }

  lemma NothingListed(dumps: map<DumpId, Dump>)
    ensures DeclareAll(dumps, []) == [] && SkipAll(dumps, []) == []
  {}

  lemma ListsStep(dumps: map<DumpId, Dump>, ids: seq<DumpId>, k: nat)
    requires k < |ids| && forall id :: id in ids ==> id in dumps
    ensures DeclareAll(dumps, ids[k..]) ==
            (if IsStable(dumps[ids[k]].phase) then [Declare(ids[k], dumps[ids[k]])] else []) + DeclareAll(dumps, ids[k + 1..])
    ensures SkipAll(dumps, ids[k..]) ==
            (if IsStable(dumps[ids[k]].phase) then [] else [Skipped(ids[k], dumps[ids[k]].phase, NOT_STABLE)]) + SkipAll(dumps, ids[k + 1..])
  {
    hide IsStable, Declare;
    assert ids[k..][1..] == ids[k + 1..];
  }

  /** Pushing one dump to its list. */
  lemma ListsMove(dumps: map<DumpId, Dump>, ids: seq<DumpId>, k: nat, declared: seq<Declared>, skipped: seq<Skipped>)
    requires k < |ids| && forall id :: id in ids ==> id in dumps
    ensures var stable, d := IsStable(dumps[ids[k]].phase), dumps[ids[k]];
            && declared + DeclareAll(dumps, ids[k..])
               == (if stable then declared + [Declare(ids[k], d)] else declared) + DeclareAll(dumps, ids[k + 1..])
            && skipped + SkipAll(dumps, ids[k..])
               == (if stable then skipped else skipped + [Skipped(ids[k], d.phase, NOT_STABLE)]) + SkipAll(dumps, ids[k + 1..])
  {
    hide IsStable, Declare, DeclareAll, SkipAll;
    ListsStep(dumps, ids, k);
    var more, left := DeclareAll(dumps, ids[k + 1..]), SkipAll(dumps, ids[k + 1..]);
    assert declared + ([] + more) == declared + more && skipped + ([] + left) == skipped + left;
  }

  /** `select`: one pass over the snapshot, which arrives in id order, pushing to the two lists. */
  method Sort(dumps: map<DumpId, Dump>) returns (ok: bool, declared: seq<Declared>, skipped: seq<Skipped>)
    ensures ok <==> forall id :: id in dumps ==> Complete(dumps[id])
    ensures ok ==> declared == DeclareAll(dumps, SortedIds(dumps.Keys)) && skipped == SkipAll(dumps, SortedIds(dumps.Keys))
  {
    hide Complete, IsStable, Declare, DeclareAll, SkipAll;
    var ids := SortedIds(dumps.Keys);
    declared, skipped := [], [];
    assert ids[0..] == ids;
    for k := 0 to |ids|
      invariant DeclareAll(dumps, ids) == declared + DeclareAll(dumps, ids[k..])
      invariant SkipAll(dumps, ids) == skipped + SkipAll(dumps, ids[k..])
      invariant forall j :: 0 <= j < k ==> Complete(dumps[ids[j]])
    {
      var id := ids[k];
      ListsMove(dumps, ids, k, declared, skipped);
      var d := dumps[id];
      if !Complete(d) { return false, [], []; }
      if IsStable(d.phase) {
        declared := declared + [Declare(id, d)];
      } else {
        skipped := skipped + [Skipped(id, d.phase, NOT_STABLE)];
      }
    }
    assert ids[|ids|..] == [];
    assert DeclareAll(dumps, []) == [] && SkipAll(dumps, []) == [] by { NothingListed(dumps); }
    assert declared + [] == declared && skipped + [] == skipped;
    forall id | id in dumps ensures Complete(dumps[id]) {
      assert id in ids;
    }
    ok := true;
  }

  method SelectManifest(l: Ledger, stamp: Stamp, analyses: map<DumpId, nat>) returns (r: Result<Manifest>)
    ensures r == Select(l, stamp, analyses)
  {
    hide Complete, IsStable, Declare, DeclareAll, SkipAll, SortedIds;
    var ok, dumps, skipped := Sort(l.dumps);
    if !ok { return Err(IntegrityFailure); }
    var exported := set k | 0 <= k < |dumps| :: dumps[k].dumpId;
    DeclaredCovers(l.dumps, SortedIds(l.dumps.Keys));
    assert exported == StableIds(l.dumps) by { ExportedSet(l.dumps, dumps, exported); }
    var events := CountKept(l.audit, exported);
    r := Ok(Manifest(stamp.createdAt, stamp.version, stamp.schemaMigrations, stamp.fingerprint,
                     Counts(|l.customers|, |l.cases|, |l.grants|, |dumps|, Some(events)),
                     Some(CountAnalyses(analyses, dumps)), skipped, dumps));
  }

  lemma ExportedSet(dumps: map<DumpId, Dump>, declared: seq<Declared>, exported: set<DumpId>)
    requires exported == set k | 0 <= k < |declared| :: declared[k].dumpId
    requires declared == DeclareAll(dumps, SortedIds(dumps.Keys))
    ensures exported == StableIds(dumps)
  {
    hide IsStable;
    var ids := SortedIds(dumps.Keys);
    DeclaredCovers(dumps, ids);
    forall id | id in StableIds(dumps) ensures id in exported {
      assert id in ids && Declare(id, dumps[id]) in declared;
    }
    forall id | id in exported ensures id in StableIds(dumps) {
      var k :| 0 <= k < |declared| && declared[k].dumpId == id;
      assert declared[k] in declared;
    }
  }

  /** The declared list is the stable dumps, each once, in id order. */
  lemma {:induction false} DeclaredCovers(dumps: map<DumpId, Dump>, ids: seq<DumpId>)
    requires StrictlyAscending(ids) && forall id :: id in ids ==> id in dumps
    ensures forall d :: d in DeclareAll(dumps, ids) ==>
              d.dumpId in ids && IsStable(dumps[d.dumpId].phase) && d == Declare(d.dumpId, dumps[d.dumpId])
    ensures forall id :: id in ids && IsStable(dumps[id].phase) ==> Declare(id, dumps[id]) in DeclareAll(dumps, ids)
    ensures forall j, k :: 0 <= j < k < |DeclareAll(dumps, ids)| ==> DeclareAll(dumps, ids)[j].dumpId < DeclareAll(dumps, ids)[k].dumpId
    ensures |DeclareAll(dumps, ids)| <= |ids|
  {
    hide IsStable;
    if ids != [] {
      var rest := DeclareAll(dumps, ids[1..]);
      DeclaredCovers(dumps, ids[1..]);
      assert forall id :: id in ids <==> id == ids[0] || id in ids[1..];
      forall k | 0 <= k < |rest| ensures ids[0] < rest[k].dumpId {
        assert rest[k] in rest;
      }
    }
  }

  /** The skipped list is the rest, each once, in id order. */
  lemma {:induction false} SkippedCovers(dumps: map<DumpId, Dump>, ids: seq<DumpId>)
    requires StrictlyAscending(ids) && forall id :: id in ids ==> id in dumps
    ensures forall s :: s in SkipAll(dumps, ids) ==>
              s.dumpId in ids && !IsStable(dumps[s.dumpId].phase) && s == Skipped(s.dumpId, dumps[s.dumpId].phase, NOT_STABLE)
    ensures forall id :: id in ids && !IsStable(dumps[id].phase) ==> Skipped(id, dumps[id].phase, NOT_STABLE) in SkipAll(dumps, ids)
    ensures forall j, k :: 0 <= j < k < |SkipAll(dumps, ids)| ==> SkipAll(dumps, ids)[j].dumpId < SkipAll(dumps, ids)[k].dumpId
    ensures |SkipAll(dumps, ids)| <= |ids|
  {
    hide IsStable;
    if ids != [] {
      var rest := SkipAll(dumps, ids[1..]);
      SkippedCovers(dumps, ids[1..]);
      assert forall id :: id in ids <==> id == ids[0] || id in ids[1..];
      forall k | 0 <= k < |rest| ensures ids[0] < rest[k].dumpId {
        assert rest[k] in rest;
      }
    }
  }

  /** The sizes a manifest can state. */
  ghost predicate WithinBounds(t: Texts, l: Ledger, stamp: Stamp, analyses: map<DumpId, nat>) {
    && IsText(stamp.createdAt, 40) && t.canonicalTime(stamp.createdAt) && IsText(stamp.version, 64)
    && IsCount(stamp.schemaMigrations) && IsFingerprint(stamp.fingerprint)
    && |l.customers| <= MAX_COUNT && |l.cases| <= MAX_COUNT && |l.grants| <= MAX_COUNT && |l.audit| <= MAX_COUNT
    && |l.dumps| <= MAX_LIST_ENTRIES
    && CountAnalyses(analyses, DeclareAll(l.dumps, SortedIds(l.dumps.Keys))) <= MAX_COUNT
    && forall id :: id in l.dumps && IsStable(l.dumps[id].phase) ==>
         && IsText(l.dumps[id].originalName, 1024)
         && (l.dumps[id].byteSize.Some? ==> |Decimal(l.dumps[id].byteSize.value)| <= MAX_DECIMAL_DIGITS)
         && (l.dumps[id].sha256.Some? ==> IsHash(l.dumps[id].sha256.value))
  }

  lemma KeptIsShorter(audit: seq<AuditEvent>, exported: set<DumpId>)
    ensures |Kept(audit, exported)| <= |audit|
  {}

  lemma ReachableComplete(ports: Ports, w: World)
    requires Reachable(ports, w)
    ensures forall id :: id in w.store.ledger.dumps ==> Complete(w.store.ledger.dumps[id])
  {
    ReachableInv(ports, w);
    forall id | id in w.store.ledger.dumps ensures Complete(w.store.ledger.dumps[id]) {
      assert RowCoupled(ports, w.store.ledger.dumps[id], w.store.vault, id);
    }
  }

  lemma SelectedUnrepeated(l: Ledger, m: Manifest)
    requires m.dumps == DeclareAll(l.dumps, SortedIds(l.dumps.Keys)) && m.skipped == SkipAll(l.dumps, SortedIds(l.dumps.Keys))
    ensures Unrepeated(DumpIds(m))
  {
    hide IsStable, Declare, DeclareAll, SkipAll, SortedIds;
    DeclaredCovers(l.dumps, SortedIds(l.dumps.Keys));
    SkippedCovers(l.dumps, SortedIds(l.dumps.Keys));
    var ids := DumpIds(m);
    forall i, j | 0 <= i < j < |ids| ensures ids[i] != ids[j] {
      if i < |m.dumps| <= j {
        assert m.dumps[i] in m.dumps && m.skipped[j - |m.dumps|] in m.skipped;
      }
    }
  }

  /** Whatever `select` builds from a reachable ledger within the bounds, the strict parser accepts and gives back. */
  lemma SelectionParses(ports: Ports, w: World, t: Texts, stamp: Stamp, analyses: map<DumpId, nat>)
    requires Reachable(ports, w) && Faithful(t) && WithinBounds(t, w.store.ledger, stamp, analyses)
    ensures var r := Select(w.store.ledger, stamp, analyses);
            r.Ok? && Parse(t, Tree(t, r.value)) == Some(r.value)
  {
    hide Parse, Tree, Reachable, Fits, WithinBounds;
    ReachableComplete(ports, w);
    SelectedFits(w.store.ledger, t, stamp, analyses);
    ManifestReads(t, Select(w.store.ledger, stamp, analyses).value);
  }

  /** What is selected is within the format's bounds. */
  lemma SelectedFits(l: Ledger, t: Texts, stamp: Stamp, analyses: map<DumpId, nat>)
    requires WithinBounds(t, l, stamp, analyses) && forall id :: id in l.dumps ==> Complete(l.dumps[id])
    ensures Select(l, stamp, analyses).Ok? && Fits(t, Select(l, stamp, analyses).value)
  {
    hide IsText, IsHash, IsFingerprint, SortedIds, Complete, DeclareAll, SkipAll, CountsFit, DeclaredFits, Decimal, Kept, CountAnalyses,
         Unrepeated;
    var m := Select(l, stamp, analyses).value;
    DeclaredCovers(l.dumps, SortedIds(l.dumps.Keys));
    SkippedCovers(l.dumps, SortedIds(l.dumps.Keys));
    SelectedUnrepeated(l, m);
    KeptIsShorter(l.audit, StableIds(l.dumps));
    forall k | 0 <= k < |m.dumps| ensures DeclaredFits(m.dumps[k]) {
      assert m.dumps[k] in m.dumps;
      DeclarationFits(m.dumps[k].dumpId, l.dumps[m.dumps[k].dumpId]);
    }
    forall k | 0 <= k < |m.skipped| ensures !IsStable(m.skipped[k].phase) && IsText(m.skipped[k].reason, 200) {
      assert m.skipped[k] in m.skipped;
      assert IsText(NOT_STABLE, 200) by { NotStableText(); }
    }
    assert CountsFit(m.counts) by { CountsSmall(l, m); }
  }

  lemma DeclarationFits(id: DumpId, d: Dump)
    requires IsStable(d.phase) && Complete(d) && IsText(d.originalName, 1024)
    requires d.byteSize.Some? ==> |Decimal(d.byteSize.value)| <= MAX_DECIMAL_DIGITS
    requires d.sha256.Some? ==> IsHash(d.sha256.value)
    ensures DeclaredFits(Declare(id, d))
  {}

  lemma NotStableText()
    ensures IsText(NOT_STABLE, 200)
  {}

  lemma CountsSmall(l: Ledger, m: Manifest)
    requires |l.customers| <= MAX_COUNT && |l.cases| <= MAX_COUNT && |l.grants| <= MAX_COUNT && |l.audit| <= MAX_COUNT
    requires |l.dumps| <= MAX_LIST_ENTRIES && |m.dumps| <= |l.dumps|
    requires m.counts.customers == |l.customers| && m.counts.cases == |l.cases| && m.counts.grants == |l.grants|
    requires m.counts.dumps == |m.dumps| && m.counts.auditEvents.Some? && m.counts.auditEvents.value <= |l.audit|
    ensures CountsFit(m.counts)
  {}

  /** Streaming the promised entries: none stands for the retryable race, when bytes vanished or changed size. */
  function SealBundle(v: Vault, rows: Ledger, m: Manifest): Option<Bundle> {
    if exists id | id in rows.dumps ::
         rows.dumps[id].phase == Available && (id !in v.objects || rows.dumps[id].byteSize != Some(|v.objects[id]|)) then None
    else Some(Bundle(m, rows, map id | id in rows.dumps && rows.dumps[id].phase == Available && id in v.objects :: v.objects[id]))
  }

  /** From a reachable world an export with nothing running beside it always seals, carrying for each available dump
      exactly the bytes whose hash and size the manifest promises. */
  lemma ExportSeals(ports: Ports, w: World, m: Manifest)
    requires Reachable(ports, w)
    ensures var b := SealBundle(w.store.vault, w.store.ledger, m);
            && b.Some?
            && (forall id :: id in b.value.files <==> id in w.store.ledger.dumps && w.store.ledger.dumps[id].phase == Available)
            && (forall id :: id in b.value.files ==> Matches(ports, w.store.ledger.dumps[id], b.value.files[id]))
  {
    forall id | id in w.store.ledger.dumps && w.store.ledger.dumps[id].phase == Available
      ensures id in w.store.vault.objects && Matches(ports, w.store.ledger.dumps[id], w.store.vault.objects[id])
    {
      AvailableBytesAreSealed(ports, w, id);
    }
  }
}
