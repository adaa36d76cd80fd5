/** Replaying a bundle through the engine: every gate first, then rows in dependency order, dumps with their bytes,
    and last the historical audit events. */
module Imports {
  import opened Domain
  import opened Vaults
  import opened Ledgers
  import opened Engines
  import opened Runs
  import opened TarArchive
  import opened Manifests
  import opened Exports

  const SLOT_LIMIT := 16

  /** `rowSlotCount`: the bundle reader takes at most 16 slots, although the ledger allows 128. */
  predicate SlotsFit(grants: map<GrantId, Grant>) {
    forall g :: g in grants ==> grants[g].maxUploads <= SLOT_LIMIT && grants[g].uploadsUsed <= SLOT_LIMIT
  }

  function DeclaredIds(m: Manifest): set<DumpId> {
    set k | 0 <= k < |m.dumps| :: m.dumps[k].dumpId
  }

  function SkippedIds(m: Manifest): set<DumpId> {
    set k | 0 <= k < |m.skipped| :: m.skipped[k].dumpId
  }

  predicate DeclarationAgrees(b: Bundle, d: Declared) {
    && d.dumpId in b.rows.dumps && Declare(d.dumpId, b.rows.dumps[d.dumpId]) == d
    && (d.phase == Available ==> d.dumpId in b.files)
  }

  predicate PromisesBytes(m: Manifest, id: DumpId) {
    exists k | 0 <= k < |m.dumps| :: m.dumps[k].dumpId == id && m.dumps[k].phase == Available
  }

  /** `checkConsistency`: manifest, ledger rows and vault entries agree. */
  predicate Consistent(b: Bundle) {
    && (forall k :: 0 <= k < |b.manifest.dumps| ==> DeclarationAgrees(b, b.manifest.dumps[k]))
    && (forall id :: id in b.rows.dumps ==> id in DeclaredIds(b.manifest) || id in SkippedIds(b.manifest))
    && (forall id :: id in b.files ==> PromisesBytes(b.manifest, id))
    && b.manifest.counts.customers == |b.rows.customers| && b.manifest.counts.cases == |b.rows.cases|
    && b.manifest.counts.grants == |b.rows.grants|
    && (b.manifest.counts.auditEvents.Some? ==>
          b.manifest.counts.auditEvents.value == |Kept(b.rows.audit, DeclaredIds(b.manifest))|)
  }

  predicate Opens(b: Bundle) {
    SlotsFit(b.rows.grants) && Consistent(b)
  }

  /** A list of commands, each of which has to succeed. */
  function RunAll(ports: Ports, s: Store, commands: seq<Command>, at: Time): (Store, bool)
    decreases |commands|
  {
    if commands == [] then (s, true)
    else
      var (t, receipt) := s.Execute(ports, commands[0], at);
      if receipt.Refused? then (t, false) else RunAll(ports, t, commands[1..], at)
  }

  function CustomerSteps(rows: Ledger, ids: seq<CustomerId>): (r: seq<Command>)
    requires forall id :: id in ids ==> id in rows.customers
    ensures |r| == |ids|
  {
    if ids == [] then [] else [ImportCustomer(ids[0], rows.customers[ids[0]])] + CustomerSteps(rows, ids[1..])
  }

  function CaseSteps(rows: Ledger, ids: seq<CaseId>): (r: seq<Command>)
    requires forall id :: id in ids ==> id in rows.cases
    ensures |r| == |ids|
  {
    if ids == [] then [] else [ImportCase(ids[0], rows.cases[ids[0]])] + CaseSteps(rows, ids[1..])
  }

  function GrantSteps(rows: Ledger, ids: seq<GrantId>, mismatch: bool): (r: seq<Command>)
    requires forall id :: id in ids ==> id in rows.grants
    ensures |r| == |ids|
  {
    if ids == [] then [] else [ImportGrant(ids[0], rows.grants[ids[0]], mismatch)] + GrantSteps(rows, ids[1..], mismatch)
  }

  function ReplaySteps(events: seq<AuditEvent>): (r: seq<Command>)
    ensures |r| == |events|
  {
    if events == [] then [] else [ImportAuditEvent(events[0])] + ReplaySteps(events[1..])
  }

  datatype Landing = Verified(available: bool) | Mismatched | Tombstoned(deleted: bool) | Stuck

  /** Promotion and inspection of one verified dump. */
  function JudgeStaged(ports: Ports, s: Store, id: DumpId, at: Time): (Store, Landing) {
    var (promoted, p) := s.PromoteObject(id, at);
    if p.Refused? then (promoted, Stuck)
    else
      var (marked, m) := promoted.MarkQuarantined(id, at);
      if m.Refused? then (marked, Stuck)
      else
        var (accepted, a) := marked.AcceptDump(ports, id, at);
        if !a.Refused? then (accepted, Verified(true))
        else if a.code != InspectionOutcomeMismatch then (accepted, Stuck)
        else
          var (rejected, r) := accepted.RejectDump(ports, id, at);
          (rejected, if r.Refused? then Stuck else Verified(false))
  }

  function LandDump(ports: Ports, s: Store, id: DumpId, row: Dump, bytes: seq<byte>, at: Time): (Store, Landing) {
    var (staged, disposition) := StageDump(ports, s, id, row, Chunked(bytes), at);
    match disposition
    case Staged => JudgeStaged(ports, staged, id, at)
    case Mismatch => (staged, Mismatched)
    case TombstoneRejected => (staged, Tombstoned(false))
    case TombstoneDeleted => (staged, Tombstoned(true))
    case Failed(_) => (staged, Stuck)
  }

  datatype Tally = Tally(verified: nat, imported: nat, rejected: nat) {
    function After(landing: Landing): Tally {
      match landing
      case Verified(available) =>
        if available then Tally(verified + 1, imported + 1, rejected) else Tally(verified + 1, imported, rejected + 1)
      case Tombstoned(deleted) => if deleted then this.(imported := imported + 1) else this.(rejected := rejected + 1)
      case Mismatched => this.(rejected := rejected + 1)
      case Stuck => this
    }
  }

  function FileOf(b: Bundle, id: DumpId): seq<byte> {
    if id in b.files then b.files[id] else []
  }

  datatype LandedRows = LandedRows(store: Store, tally: Tally, ok: bool)

  function LandAll(ports: Ports, s: Store, b: Bundle, ids: seq<DumpId>, tally: Tally, at: Time): LandedRows
    requires forall id :: id in ids ==> id in b.rows.dumps
    decreases |ids|
  {
    if ids == [] then LandedRows(s, tally, true)
    else if ids[0] !in DeclaredIds(b.manifest) then LandAll(ports, s, b, ids[1..], tally, at)
    else
      var (t, landing) := LandDump(ports, s, ids[0], b.rows.dumps[ids[0]], FileOf(b, ids[0]), at);
      if landing.Stuck? then LandedRows(t, tally, false) else LandAll(ports, t, b, ids[1..], tally.After(landing), at)
  }

  datatype ImportOutcome = Finished(store: Store, importId: EventId, tally: Tally, skipped: nat) | Unfinished(store: Store)

  /** The rows of a begun import. */
  function ImportRows(ports: Ports, begun: Store, b: Bundle, mismatch: bool, at: Time): (Store, bool) {
    var (customers, ok) := RunAll(ports, begun, CustomerSteps(b.rows, SortedIds(b.rows.customers.Keys)), at);
    if !ok then (customers, false)
    else
      var (cases, ok) := RunAll(ports, customers, CaseSteps(b.rows, SortedIds(b.rows.cases.Keys)), at);
      if !ok then (cases, false)
      else RunAll(ports, cases, GrantSteps(b.rows, SortedIds(b.rows.grants.Keys), mismatch), at)
  }

  function Summary(b: Bundle, replayed: nat): Counts {
    Counts(|b.rows.customers|, |b.rows.cases|, |b.rows.grants|, |b.manifest.dumps|, Some(replayed))
  }

  /** `finish`: replay the history, then write FinishImport. */
  function FinishSteps(b: Bundle, importId: EventId): seq<Command> {
    var events := Kept(b.rows.audit, DeclaredIds(b.manifest));
    ReplaySteps(events) + [FinishImport(importId, Summary(b, |events|), |b.manifest.skipped|)]
  }

  /** `importBundle`: an import that fails after BeginImport never reaches FinishImport. */
  function Import(ports: Ports, s: Store, b: Bundle, digest: Digest, mismatch: bool, at: Time): ImportOutcome {
    if !Opens(b) then Unfinished(s)
    else
      var (begun, receipt) := s.Execute(ports, BeginImport(digest, b.manifest.counts), at);
      if !receipt.ImportBegun? then Unfinished(begun)
      else
        var (rows, ok) := ImportRows(ports, begun, b, mismatch, at);
        if !ok then Unfinished(rows)
        else
          var landed := LandAll(ports, rows, b, SortedIds(b.rows.dumps.Keys), Tally(0, 0, 0), at);
          if !landed.ok then Unfinished(landed.store)
          else
            var (done, ok) := RunAll(ports, landed.store, FinishSteps(b, receipt.importId), at);
            if ok then Finished(done, receipt.importId, landed.tally, |b.manifest.skipped|) else Unfinished(done)
  }
}
