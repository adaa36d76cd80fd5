/** The SQLite ledger. `Ledger` is the committed database and the effect of each transaction on it;
    `SqliteLedger` performs the transactions on its tables. A transaction that throws rolls back. */
module Ledgers {
  import opened Domain

  /** One `UPDATE dumps SET ... WHERE phase IN (...) AND ...` issued through `transitionDump`. */
  datatype DumpEdge =
    | SealEdge(byteSize: nat, sha256: Digest)
    | FailEdge
    | PromotedEdge
    | QuarantinedEdge
    | AcceptEdge(coverage: Coverage, facts: string)
    | RejectEdge(reason: string)
    | BeginPurgeEdge
    | FinishPurgeEdge
  {
    predicate From(phase: Phase) {
      match this
      case SealEdge(_, _) => phase == Receiving
      case FailEdge => phase == Receiving
      case PromotedEdge => phase == Sealed
      case QuarantinedEdge => phase == Sealed
      case AcceptEdge(_, _) => phase == Quarantined
      case RejectEdge(_) => phase == Quarantined
      case BeginPurgeEdge => phase == Available || phase == Rejected
      case FinishPurgeEdge => phase == Deleting
    }

    /** The whole `WHERE` clause. */
    predicate Permits(d: Dump) {
      && From(d.phase)
      && match this
         case PromotedEdge => d.blob == InStaging
         case QuarantinedEdge => d.blob == InVault && d.sha256.Some?
         case AcceptEdge(_, _) => d.blob == InVault && d.sha256.Some?
         case RejectEdge(_) => d.blob == InVault
         case _ => true
    }

    function Apply(d: Dump, at: Time): Dump {
      match this
      case SealEdge(size, sha) => d.(phase := Sealed, byteSize := Some(size), sha256 := Some(sha))
      case FailEdge => d.(phase := Rejected, blob := NoBlob, validation := TransferFailed, downloadable := false)
      case PromotedEdge => d.(blob := InVault)
      case QuarantinedEdge => d.(phase := Quarantined)
      case AcceptEdge(coverage, facts) =>
        d.(phase := Available, validation := Valid, coverage := Some(coverage), downloadable := true,
           inspectionError := None, facts := Some(facts), availableAt := Some(at))
      case RejectEdge(reason) =>
        d.(phase := Rejected, validation := Invalid, downloadable := false, inspectionError := Some(reason))
      case BeginPurgeEdge => d.(phase := Deleting, downloadable := false)
      case FinishPurgeEdge => d.(phase := Deleted, blob := NoBlob, downloadable := false, purgedAt := Some(at))
    }

    function Action(): Action {
      match this
      case SealEdge(_, _) => SealUploadA
      case FailEdge => FailUploadA
      case PromotedEdge => PromoteObjectA
      case QuarantinedEdge => MarkQuarantinedA
      case AcceptEdge(_, _) => AcceptDumpA
      case RejectEdge(_) => RejectDumpA
      case BeginPurgeEdge => BeginPurgeA
      case FinishPurgeEdge => FinishPurgeA
    }
  }

  datatype CaseEdge = StartEdge | WaitEdge | ResumeEdge | ResolveEdge {
    predicate From(status: CaseStatus) {
      match this
      case StartEdge => status == New
      case WaitEdge => status == Investigating
      case ResumeEdge => status == WaitingForCustomer || status == Resolved || status == Closed
      case ResolveEdge => status == Investigating || status == WaitingForCustomer
    }

    function Target(): CaseStatus {
      match this
      case StartEdge => Investigating
      case WaitEdge => WaitingForCustomer
      case ResumeEdge => Investigating
      case ResolveEdge => CaseStatus.Resolved
    }

    function Action(): Action {
      match this
      case StartEdge => StartInvestigationA
      case WaitEdge => WaitForCustomerA
      case ResumeEdge => ResumeInvestigationA
      case ResolveEdge => ResolveCaseA
    }
  }

  const MAX_GRANT_UPLOAD_SLOTS := 128

  datatype Ledger = Ledger(
    origin: nat,
    customers: map<CustomerId, Customer>,
    cases: map<CaseId, Case>,
    grants: map<GrantId, Grant>,
    dumps: map<DumpId, Dump>,
    audit: seq<AuditEvent>)
  {
    /** `ids.next("audit")`. */
    function NextEventId(): EventId {
      EventId(origin, |audit|)
    }

    function InsertAudit(at: Time, action: Action, customerId: Option<CustomerId>, caseId: Option<CaseId>,
                         dumpId: Option<DumpId>, detail: Detail): Ledger
    {
      this.(audit := audit + [AuditEvent(NextEventId(), at, action, customerId, caseId, dumpId, detail)])
    }

    function InsertCaseAudit(at: Time, action: Action, caseId: CaseId, dumpId: Option<DumpId>, detail: Detail): Ledger
      requires caseId in cases
    {
      InsertAudit(at, action, Some(cases[caseId].customerId), Some(caseId), dumpId, detail)
    }

    function CreateCustomer(id: CustomerId, displayName: string, at: Time): Result<Ledger> {
      if id in customers then Err(StorageUnavailable)
      else Ok(this.(customers := customers[id := Customer(displayName, at)])
                  .InsertAudit(at, CreateCustomerA, Some(id), None, None, NoDetail))
    }

    function CreateCase(id: CaseId, customerId: CustomerId, title: string, at: Time): Result<Ledger> {
      if id in cases || customerId !in customers then Err(StorageUnavailable)
      else Ok(this.(cases := cases[id := Case(customerId, title, New, at)])
                  .InsertAudit(at, CreateCaseA, Some(customerId), Some(id), None, NoDetail))
    }

    function TransitionCase(id: CaseId, edge: CaseEdge, at: Time): Result<Ledger> {
      if id !in cases then Err(NotFound)
      else if !edge.From(cases[id].status) then Err(InvalidTransition)
      else Ok(this.(cases := cases[id := cases[id].(status := edge.Target())])
                  .InsertCaseAudit(at, edge.Action(), id, None, NoDetail))
    }

    function IssuedFor(caseId: CaseId): set<GrantId> {
      set g | g in grants && grants[g].caseId == caseId && grants[g].state == Issued
    }

    function CloseCase(id: CaseId, at: Time): Result<Ledger> {
      if id !in cases then Err(NotFound)
      else if cases[id].status != CaseStatus.Resolved then Err(InvalidTransition)
      else
        var revoked := IssuedFor(id);
        Ok(this.(cases := cases[id := cases[id].(status := Closed)],
                 grants := RevokeAll(grants, revoked))
               .InsertCaseAudit(at, CloseCaseA, id, None, CloseDetail(SortedIds(revoked))))
    }

    function IssueGrant(id: GrantId, caseId: CaseId, digest: Digest, expiresAt: Time, maxBytes: nat, maxUploads: nat, at: Time)
      : Result<Ledger>
    {
      if caseId !in cases then Err(NotFound)
      else if cases[caseId].status == Closed then Err(InvalidTransition)
      else if id in grants || FindGrantByDigest(digest).Some? then Err(StorageUnavailable)
      else Ok(this.(grants := grants[id := Grant(caseId, digest, Issued, expiresAt, maxBytes, maxUploads, 0, None, at)])
                  .InsertCaseAudit(at, IssueGrantA, caseId, None, IssueDetail(id, maxUploads)))
    }

    function HoldersOf(digest: Digest): set<GrantId> {
      set g | g in grants && grants[g].secretDigest == digest
    }

    /** `secret_digest` is UNIQUE, so the lowest match is the only one. */
    function FindGrantByDigest(digest: Digest): Option<GrantId> {
      var hits := HoldersOf(digest);
      if hits == {} then None else Some(Least(hits))
    }

    function TransitionGrant(id: GrantId, next: GrantState, at: Time): Result<Ledger> {
      if id !in grants || grants[id].caseId !in cases then Err(NotFound)
      else if grants[id].state != Issued then Err(InvalidTransition)
      else Ok(this.(grants := grants[id := grants[id].(state := next)])
                  .InsertCaseAudit(at, if next == Revoked then RevokeGrantA else ExpireGrantA, grants[id].caseId, None, GrantDetail(id)))
    }

    function BeginUpload(grantId: GrantId, dumpId: DumpId, originalName: string, at: Time): Result<Ledger> {
      if grantId !in grants || grants[grantId].caseId !in cases then Err(GrantInvalid)
      else
        var g := grants[grantId];
        if cases[g.caseId].status == Closed then Err(InvalidTransition)
        else if g.state != Issued || g.uploadsUsed >= g.maxUploads then Err(GrantExhausted)
        else if dumpId in dumps then Err(StorageUnavailable)
        else
          var used := g.(uploadsUsed := g.uploadsUsed + 1,
                         state := if g.uploadsUsed + 1 >= g.maxUploads then Consumed else Issued,
                         consumedBy := if g.consumedBy.Some? then g.consumedBy else Some(dumpId));
          var row := Dump(g.caseId, Receiving, InStaging, originalName, None, None, NotChecked, None, false, None, None,
                          at, None, None, None);
          Ok(this.(grants := grants[grantId := used], dumps := dumps[dumpId := row])
                 .InsertCaseAudit(at, BeginUploadA, g.caseId, Some(dumpId), GrantDetail(grantId)))
    }

    function TransitionDump(id: DumpId, edge: DumpEdge, at: Time): Result<Ledger> {
      if id !in dumps then Err(NotFound)
      else if !edge.Permits(dumps[id]) then Err(InvalidTransition)
      else if dumps[id].caseId !in cases then Err(NotFound)
      else Ok(this.(dumps := dumps[id := edge.Apply(dumps[id], at)])
                  .InsertCaseAudit(at, edge.Action(), dumps[id].caseId, Some(id), NoDetail))
    }

    function SetRetention(id: DumpId, purgeAt: Time, at: Time): Result<Ledger> {
      if id !in dumps then Err(NotFound)
      else if dumps[id].phase != Available && dumps[id].phase != Rejected then Err(InvalidTransition)
      else if dumps[id].caseId !in cases then Err(NotFound)
      else Ok(this.(dumps := dumps[id := dumps[id].(purgeAt := Some(purgeAt))])
                  .InsertCaseAudit(at, SetRetentionA, dumps[id].caseId, Some(id), RetentionDetail(purgeAt)))
    }

    function AuthorizeDownload(id: DumpId, at: Time): Result<Ledger> {
      if id !in dumps then Err(NotFound)
      else if dumps[id].phase != Available || !dumps[id].downloadable then Err(InvalidTransition)
      else if dumps[id].caseId !in cases then Err(NotFound)
      else Ok(InsertCaseAudit(at, AuthorizeDownloadA, dumps[id].caseId, Some(id), NoDetail))
    }

    predicate IsEmpty() {
      customers == map[] && cases == map[] && grants == map[] && dumps == map[]
    }

    predicate ImportFinished(importId: EventId) {
      exists i | 0 <= i < |audit| :: IsFinish(audit[i], importId)
    }

    predicate ImportInProgress() {
      exists i | 0 <= i < |audit| :: audit[i].action == BeginImportA && !ImportFinished(audit[i].eventId)
    }

    function BeginImport(digest: Digest, counts: Counts, at: Time): Result<Ledger> {
      if !IsEmpty() then Err(InvalidTransition)
      else if ImportInProgress() then Err(InvalidTransition)
      else Ok(InsertAudit(at, BeginImportA, None, None, None, BeginImportDetail(NextEventId(), digest, counts)))
    }

    function FindMarker(importId: EventId): Option<AuditEvent> {
      FindMarkerIn(audit, importId)
    }

    function FinishImport(importId: EventId, imported: Counts, skipped: nat, at: Time): Result<Ledger> {
      var marker := FindMarker(importId);
      if marker.None? then Err(NotFound)
      else if ImportFinished(importId) then Err(InvalidTransition)
      else
        var d := marker.value.detail;
        var digest := if d.BeginImportDetail? then Some(d.manifestDigest) else None;
        Ok(InsertAudit(at, FinishImportA, None, None, None, FinishImportDetail(digest, importId, imported, skipped)))
    }

    function ImportCustomer(id: CustomerId, record: Customer, at: Time): Result<Ledger> {
      if !ImportInProgress() then Err(InvalidTransition)
      else if id in customers then Err(InvalidInput)
      else Ok(this.(customers := customers[id := record]).InsertAudit(at, ImportCustomerA, Some(id), None, None, NoDetail))
    }

    function ImportCase(id: CaseId, record: Case, at: Time): Result<Ledger> {
      if !ImportInProgress() then Err(InvalidTransition)
      else if record.customerId !in customers then Err(NotFound)
      else if id in cases then Err(InvalidInput)
      else Ok(this.(cases := cases[id := record])
                  .InsertAudit(at, ImportCaseA, Some(record.customerId), Some(id), None, ImportCaseDetail(record.status)))
    }

    function ImportGrant(id: GrantId, record: Grant, forceRevoked: bool, at: Time): Result<Ledger> {
      if !ImportInProgress() then Err(InvalidTransition)
      else if record.caseId !in cases then Err(NotFound)
      else if id in grants then Err(InvalidInput)
      else if FindGrantByDigest(record.secretDigest).Some? then Err(InvalidInput)
      else
        var state := if record.state == Issued && forceRevoked then Revoked else record.state;
        Ok(this.(grants := grants[id := record.(state := state)])
               .InsertCaseAudit(at, ImportGrantA, record.caseId, None, ImportGrantDetail(id, state, state != record.state)))
    }

    /** `importDumpStaged` and `importDumpTombstone`: the row arrives already in the shape the caller fixes. */
    function ImportDump(id: DumpId, row: Dump, exportedPhase: Phase, staged: bool, at: Time): Result<Ledger> {
      if !ImportInProgress() then Err(InvalidTransition)
      else if row.caseId !in cases then Err(NotFound)
      else if id in dumps then Err(InvalidInput)
      else Ok(this.(dumps := dumps[id := row])
                  .InsertCaseAudit(at, ImportDumpStagedA, row.caseId, Some(id), ImportDumpDetail(exportedPhase, staged)))
    }

    predicate HasEvent(id: EventId) {
      exists i | 0 <= i < |audit| :: audit[i].eventId == id
    }

    predicate ReferencesExist(e: AuditEvent) {
      && (e.customerId.Some? ==> e.customerId.value in customers)
      && (e.caseId.Some? ==> e.caseId.value in cases)
      && (e.dumpId.Some? ==> e.dumpId.value in dumps)
    }

    function ImportAuditEvent(e: AuditEvent): Result<Ledger> {
      if !ImportInProgress() then Err(InvalidTransition)
      else if HasEvent(e.eventId) then Err(InvalidInput)
      else if !ReferencesExist(e) then Err(StorageUnavailable)
      else Ok(this.(audit := audit + [e]))
    }
  }

  function RevokeAll(grants: map<GrantId, Grant>, revoked: set<GrantId>): map<GrantId, Grant> {
    map g | g in grants :: if g in revoked then grants[g].(state := Revoked) else grants[g]
  }

  predicate IsFinish(e: AuditEvent, importId: EventId) {
    e.action == FinishImportA && e.detail.FinishImportDetail? && e.detail.importId == importId
  }

  predicate IsMarker(e: AuditEvent, importId: EventId) {
    e.eventId == importId && e.action == BeginImportA
  }

  function FindMarkerIn(audit: seq<AuditEvent>, importId: EventId): (r: Option<AuditEvent>)
    ensures r.None? <==> forall i :: 0 <= i < |audit| ==> !IsMarker(audit[i], importId)
    ensures r.Some? ==> r.value in audit && IsMarker(r.value, importId)
  {
    if audit == [] then None
    else if IsMarker(audit[0], importId) then Some(audit[0])
    else FindMarkerIn(audit[1..], importId)
  }

  function EmptyLedger(origin: nat): Ledger {
    Ledger(origin, map[], map[], map[], map[], [])
  }

  /** Whether a transaction committed `after` or threw and left `before`. */
  ghost predicate Ran(outcome: Result<Ledger>, before: Ledger, after: Ledger, r: Result<()>) {
    match outcome
    case Ok(l) => r == Ok(()) && after == l
    case Err(e) => r == Err(e) && after == before
  }

  class SqliteLedger {
    const origin: nat
    var customers: map<CustomerId, Customer>
    var cases: map<CaseId, Case>
    var grants: map<GrantId, Grant>
    var dumps: map<DumpId, Dump>
    var audit: seq<AuditEvent>

    function State(): Ledger
      reads this
    {
      Ledger(origin, customers, cases, grants, dumps, audit)
    }

    constructor (origin: nat)
      ensures State() == EmptyLedger(origin)
    {
      this.origin := origin;
      customers, cases, grants, dumps, audit := map[], map[], map[], map[], [];
    }

    method InsertAudit(at: Time, action: Action, customerId: Option<CustomerId>, caseId: Option<CaseId>,
                       dumpId: Option<DumpId>, detail: Detail)
      modifies this`audit
      ensures State() == old(State()).InsertAudit(at, action, customerId, caseId, dumpId, detail)
    {
      audit := audit + [AuditEvent(EventId(origin, |audit|), at, action, customerId, caseId, dumpId, detail)];
    }

    method CreateCustomer(id: CustomerId, displayName: string, at: Time) returns (r: Result<()>)
      modifies this
      ensures Ran(old(State()).CreateCustomer(id, displayName, at), old(State()), State(), r)
    {
      if id in customers { return Err(StorageUnavailable); }
      customers := customers[id := Customer(displayName, at)];
      InsertAudit(at, CreateCustomerA, Some(id), None, None, NoDetail);
      r := Ok(());
    }

    method CreateCase(id: CaseId, customerId: CustomerId, title: string, at: Time) returns (r: Result<()>)
      modifies this
      ensures Ran(old(State()).CreateCase(id, customerId, title, at), old(State()), State(), r)
    {
      if id in cases || customerId !in customers { return Err(StorageUnavailable); }
      cases := cases[id := Case(customerId, title, New, at)];
      InsertAudit(at, CreateCaseA, Some(customerId), Some(id), None, NoDetail);
      r := Ok(());
    }

    method TransitionCase(id: CaseId, edge: CaseEdge, at: Time) returns (r: Result<()>)
      modifies this
      ensures Ran(old(State()).TransitionCase(id, edge, at), old(State()), State(), r)
    {
      if id !in cases { return Err(NotFound); }
      if !edge.From(cases[id].status) { return Err(InvalidTransition); }
      cases := cases[id := cases[id].(status := edge.Target())];
      InsertAudit(at, edge.Action(), Some(cases[id].customerId), Some(id), None, NoDetail);
      r := Ok(());
    }

    method RevokeEach(ids: seq<GrantId>)
      requires forall g :: g in ids ==> g in grants
      modifies this`grants
      ensures grants.Keys == old(grants).Keys
      ensures forall g :: g in grants ==>
                grants[g] == if g in ids then old(grants)[g].(state := Revoked) else old(grants)[g]
    {
      for k := 0 to |ids|
        invariant grants.Keys == old(grants).Keys
        invariant forall g :: g in grants ==>
                    grants[g] == if g in ids[..k] then old(grants)[g].(state := Revoked) else old(grants)[g]
      {
        grants := grants[ids[k] := grants[ids[k]].(state := Revoked)];
        assert ids[..k + 1] == ids[..k] + [ids[k]];
      }
      assert ids[..|ids|] == ids;
    }

    method CloseCase(id: CaseId, at: Time) returns (r: Result<()>)
      modifies this
      ensures Ran(old(State()).CloseCase(id, at), old(State()), State(), r)
    {
      if id !in cases { return Err(NotFound); }
      if cases[id].status != CaseStatus.Resolved { return Err(InvalidTransition); }
      var revoked := SortedIds(State().IssuedFor(id));
      cases := cases[id := cases[id].(status := Closed)];
      RevokeEach(revoked);
      InsertAudit(at, CloseCaseA, Some(cases[id].customerId), Some(id), None, CloseDetail(revoked));
      r := Ok(());
    }

    method IssueGrant(id: GrantId, caseId: CaseId, digest: Digest, expiresAt: Time, maxBytes: nat, maxUploads: nat, at: Time)
      returns (r: Result<()>)
      modifies this
      ensures Ran(old(State()).IssueGrant(id, caseId, digest, expiresAt, maxBytes, maxUploads, at), old(State()), State(), r)
    {
      if caseId !in cases { return Err(NotFound); }
      if cases[caseId].status == Closed { return Err(InvalidTransition); }
      if id in grants || State().FindGrantByDigest(digest).Some? { return Err(StorageUnavailable); }
      grants := grants[id := Grant(caseId, digest, Issued, expiresAt, maxBytes, maxUploads, 0, None, at)];
      InsertAudit(at, IssueGrantA, Some(cases[caseId].customerId), Some(caseId), None, IssueDetail(id, maxUploads));
      r := Ok(());
    }

    method TransitionGrant(id: GrantId, next: GrantState, at: Time) returns (r: Result<()>)
      modifies this
      ensures Ran(old(State()).TransitionGrant(id, next, at), old(State()), State(), r)
    {
      if id !in grants || grants[id].caseId !in cases { return Err(NotFound); }
      if grants[id].state != Issued { return Err(InvalidTransition); }
      grants := grants[id := grants[id].(state := next)];
      var caseId := grants[id].caseId;
      InsertAudit(at, if next == Revoked then RevokeGrantA else ExpireGrantA,
                  Some(cases[caseId].customerId), Some(caseId), None, GrantDetail(id));
      r := Ok(());
    }

    method BeginUpload(grantId: GrantId, dumpId: DumpId, originalName: string, at: Time) returns (r: Result<()>)
      modifies this
      ensures Ran(old(State()).BeginUpload(grantId, dumpId, originalName, at), old(State()), State(), r)
    {
      if grantId !in grants || grants[grantId].caseId !in cases { return Err(GrantInvalid); }
      var g := grants[grantId];
      if cases[g.caseId].status == Closed { return Err(InvalidTransition); }
      if g.state != Issued || g.uploadsUsed >= g.maxUploads { return Err(GrantExhausted); }
      if dumpId in dumps { return Err(StorageUnavailable); }
      grants := grants[grantId := g.(
        uploadsUsed := g.uploadsUsed + 1,
        state := if g.uploadsUsed + 1 >= g.maxUploads then Consumed else Issued,
        consumedBy := if g.consumedBy.Some? then g.consumedBy else Some(dumpId))];
      dumps := dumps[dumpId := Dump(g.caseId, Receiving, InStaging, originalName, None, None, NotChecked, None, false,
                                    None, None, at, None, None, None)];
      InsertAudit(at, BeginUploadA, Some(cases[g.caseId].customerId), Some(g.caseId), Some(dumpId), GrantDetail(grantId));
      r := Ok(());
    }

    method TransitionDump(id: DumpId, edge: DumpEdge, at: Time) returns (r: Result<()>)
      modifies this
      ensures Ran(old(State()).TransitionDump(id, edge, at), old(State()), State(), r)
    {
      if id !in dumps { return Err(NotFound); }
      var d := dumps[id];
      if !edge.Permits(d) { return Err(InvalidTransition); }
      if d.caseId !in cases { return Err(NotFound); }
      dumps := dumps[id := edge.Apply(d, at)];
      InsertAudit(at, edge.Action(), Some(cases[d.caseId].customerId), Some(d.caseId), Some(id), NoDetail);
      r := Ok(());
    }

    method SetRetention(id: DumpId, purgeAt: Time, at: Time) returns (r: Result<()>)
      modifies this
      ensures Ran(old(State()).SetRetention(id, purgeAt, at), old(State()), State(), r)
    {
      if id !in dumps { return Err(NotFound); }
      var d := dumps[id];
      if d.phase != Available && d.phase != Rejected { return Err(InvalidTransition); }
      if d.caseId !in cases { return Err(NotFound); }
      dumps := dumps[id := d.(purgeAt := Some(purgeAt))];
      InsertAudit(at, SetRetentionA, Some(cases[d.caseId].customerId), Some(d.caseId), Some(id), RetentionDetail(purgeAt));
      r := Ok(());
    }

    method AuthorizeDownload(id: DumpId, at: Time) returns (r: Result<()>)
      modifies this
      ensures Ran(old(State()).AuthorizeDownload(id, at), old(State()), State(), r)
    {
      if id !in dumps { return Err(NotFound); }
      var d := dumps[id];
      if d.phase != Available || !d.downloadable { return Err(InvalidTransition); }
      if d.caseId !in cases { return Err(NotFound); }
      InsertAudit(at, AuthorizeDownloadA, Some(cases[d.caseId].customerId), Some(d.caseId), Some(id), NoDetail);
      r := Ok(());
    }

    method BeginImport(digest: Digest, counts: Counts, at: Time) returns (r: Result<()>)
      modifies this
      ensures Ran(old(State()).BeginImport(digest, counts, at), old(State()), State(), r)
    {
      if !State().IsEmpty() || State().ImportInProgress() { return Err(InvalidTransition); }
      InsertAudit(at, BeginImportA, None, None, None, BeginImportDetail(EventId(origin, |audit|), digest, counts));
      r := Ok(());
    }

    method FinishImport(importId: EventId, imported: Counts, skipped: nat, at: Time) returns (r: Result<()>)
      modifies this
      ensures Ran(old(State()).FinishImport(importId, imported, skipped, at), old(State()), State(), r)
    {
      var marker := FindMarkerIn(audit, importId);
      if marker.None? { return Err(NotFound); }
      if State().ImportFinished(importId) { return Err(InvalidTransition); }
      var d := marker.value.detail;
      var digest := if d.BeginImportDetail? then Some(d.manifestDigest) else None;
      InsertAudit(at, FinishImportA, None, None, None, FinishImportDetail(digest, importId, imported, skipped));
      r := Ok(());
    }

    method ImportCustomer(id: CustomerId, record: Customer, at: Time) returns (r: Result<()>)
      modifies this
      ensures Ran(old(State()).ImportCustomer(id, record, at), old(State()), State(), r)
    {
      if !State().ImportInProgress() { return Err(InvalidTransition); }
      if id in customers { return Err(InvalidInput); }
      customers := customers[id := record];
      InsertAudit(at, ImportCustomerA, Some(id), None, None, NoDetail);
      r := Ok(());
    }

    method ImportCase(id: CaseId, record: Case, at: Time) returns (r: Result<()>)
      modifies this
      ensures Ran(old(State()).ImportCase(id, record, at), old(State()), State(), r)
    {
      if !State().ImportInProgress() { return Err(InvalidTransition); }
      if record.customerId !in customers { return Err(NotFound); }
      if id in cases { return Err(InvalidInput); }
      cases := cases[id := record];
      InsertAudit(at, ImportCaseA, Some(record.customerId), Some(id), None, ImportCaseDetail(record.status));
      r := Ok(());
    }

    method ImportGrant(id: GrantId, record: Grant, forceRevoked: bool, at: Time) returns (r: Result<()>)
      modifies this
      ensures Ran(old(State()).ImportGrant(id, record, forceRevoked, at), old(State()), State(), r)
    {
      if !State().ImportInProgress() { return Err(InvalidTransition); }
      if record.caseId !in cases { return Err(NotFound); }
      if id in grants || State().FindGrantByDigest(record.secretDigest).Some? { return Err(InvalidInput); }
      var state := if record.state == Issued && forceRevoked then Revoked else record.state;
      grants := grants[id := record.(state := state)];
      InsertAudit(at, ImportGrantA, Some(cases[record.caseId].customerId), Some(record.caseId), None,
                  ImportGrantDetail(id, state, state != record.state));
      r := Ok(());
    }

    method ImportDump(id: DumpId, row: Dump, exportedPhase: Phase, staged: bool, at: Time) returns (r: Result<()>)
      modifies this
      ensures Ran(old(State()).ImportDump(id, row, exportedPhase, staged, at), old(State()), State(), r)
    {
      if !State().ImportInProgress() { return Err(InvalidTransition); }
      if row.caseId !in cases { return Err(NotFound); }
      if id in dumps { return Err(InvalidInput); }
      dumps := dumps[id := row];
      InsertAudit(at, ImportDumpStagedA, Some(cases[row.caseId].customerId), Some(row.caseId), Some(id),
                  ImportDumpDetail(exportedPhase, staged));
      r := Ok(());
    }

    method ImportAuditEvent(e: AuditEvent) returns (r: Result<()>)
      modifies this
      ensures Ran(old(State()).ImportAuditEvent(e), old(State()), State(), r)
    {
      if !State().ImportInProgress() { return Err(InvalidTransition); }
      if State().HasEvent(e.eventId) { return Err(InvalidInput); }
      if !State().ReferencesExist(e) { return Err(StorageUnavailable); }
      audit := audit + [e];
      r := Ok(());
    }
  }
}
