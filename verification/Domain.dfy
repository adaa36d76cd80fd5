/** Identifiers, enumerations and rows shared by the ledger, the vault and the transfer pipeline.
    Identifiers are opaque ordered tokens (naturals), timestamps are milliseconds. */
module Domain {
  type byte = x: int | 0 <= x < 256
  type Digest = string
  type CustomerId = nat
  type CaseId = nat
  type GrantId = nat
  type DumpId = nat
  type Time = nat

  datatype Option<+T> = None | Some(value: T)

  datatype ErrorCode =
    | InvalidInput | NotFound | InvalidTransition | GrantInvalid | GrantExpired | GrantExhausted
    | StorageUnavailable | IntegrityFailure | InspectionOutcomeMismatch

  datatype Result<+T> = Ok(value: T) | Err(code: ErrorCode) {
    predicate IsFailure() {
      Err?
    }
    function PropagateFailure<U>(): Result<U>
      requires Err?
    {
      Err(code)
    }
    function Extract(): T
      requires Ok?
    {
      value
    }
  }

  datatype CaseStatus = New | Investigating | WaitingForCustomer | Resolved | Closed
  datatype GrantState = Issued | Consumed | Revoked | Expired
  datatype Phase = Receiving | Sealed | Quarantined | Available | Rejected | Deleting | Deleted
  datatype BlobState = InStaging | InVault | NoBlob
  datatype Validation = NotChecked | Valid | Invalid | TransferFailed
  datatype Coverage = Partial | FullMemoryDeclared | UnknownCoverage

  datatype Customer = Customer(displayName: string, createdAt: Time)
  datatype Case = Case(customerId: CustomerId, title: string, status: CaseStatus, createdAt: Time)
  datatype Grant = Grant(
    caseId: CaseId, secretDigest: Digest, state: GrantState, expiresAt: Time, maxBytes: nat,
    maxUploads: nat, uploadsUsed: nat, consumedBy: Option<DumpId>, createdAt: Time)
  datatype Dump = Dump(
    caseId: CaseId, phase: Phase, blob: BlobState, originalName: string,
    byteSize: Option<nat>, sha256: Option<Digest>, validation: Validation,
    coverage: Option<Coverage>, downloadable: bool, inspectionError: Option<string>, facts: Option<string>,
    receivedAt: Time, availableAt: Option<Time>, purgeAt: Option<Time>, purgedAt: Option<Time>)

  /** What the id source draws for an audit event: no two instances share an id, and an instance never repeats one. */
  datatype EventId = EventId(origin: nat, serial: nat)

  datatype Action =
    | CreateCustomerA | CreateCaseA
    | StartInvestigationA | WaitForCustomerA | ResumeInvestigationA | ResolveCaseA | CloseCaseA
    | IssueGrantA | RevokeGrantA | ExpireGrantA
    | BeginUploadA | SealUploadA | FailUploadA | PromoteObjectA | MarkQuarantinedA | AcceptDumpA | RejectDumpA
    | AuthorizeDownloadA | SetRetentionA | BeginPurgeA | FinishPurgeA
    | BeginImportA | ImportCustomerA | ImportCaseA | ImportGrantA | ImportDumpStagedA | FinishImportA

  datatype Counts = Counts(customers: nat, cases: nat, grants: nat, dumps: nat, auditEvents: Option<nat>)

  /** The parsed `detail_json` of an audit event. */
  datatype Detail =
    | NoDetail
    | GrantDetail(grantId: GrantId)
    | IssueDetail(grantId: GrantId, maxUploads: nat)
    | CloseDetail(revokedGrantIds: seq<GrantId>)
    | RetentionDetail(purgeAt: Time)
    | BeginImportDetail(importId: EventId, manifestDigest: Digest, counts: Counts)
    | FinishImportDetail(markerDigest: Option<Digest>, importId: EventId, imported: Counts, skipped: nat)
    | ImportCaseDetail(status: CaseStatus)
    | ImportGrantDetail(grantId: GrantId, state: GrantState, forced: bool)
    | ImportDumpDetail(exportedPhase: Phase, staged: bool)

  datatype AuditEvent = AuditEvent(
    eventId: EventId, occurredAt: Time, action: Action,
    customerId: Option<CustomerId>, caseId: Option<CaseId>, dumpId: Option<DumpId>, detail: Detail)

  predicate StrictlyAscending(s: seq<nat>) {
    forall i, j :: 0 <= i < j < |s| ==> s[i] < s[j]
  }

  predicate IsLeast(m: nat, s: set<nat>) {
    m in s && forall x :: x in s ==> m <= x
  }

  lemma {:induction false} LeastExists(s: set<nat>)
    requires s != {}
    ensures exists m :: IsLeast(m, s)
    decreases |s|
  {
    var e :| e in s;
    var rest := s - {e};
    if rest == {} {
      assert s == {e} + rest;
      assert IsLeast(e, s);
    } else {
      LeastExists(rest);
      var m :| IsLeast(m, rest);
      assert IsLeast(if e < m then e else m, s) by {
        forall x | x in s ensures (if e < m then e else m) <= x {
          assert x == e || x in rest;
        }
      }
    }
  }

  function Least(s: set<nat>): (m: nat)
    requires s != {}
    ensures IsLeast(m, s)
  {
    LeastExists(s);
    var m :| IsLeast(m, s);
    m
  }

  /** The ids of a set in `ORDER BY id` order. */
  function SortedIds(s: set<nat>): (r: seq<nat>)
    ensures StrictlyAscending(r)
    ensures forall x :: x in r <==> x in s
    ensures |r| == |s|
    decreases |s|
  {
    if s == {} then []
    else
      var m := Least(s);
      var rest := SortedIds(s - {m});
      assert forall x :: x in rest ==> m < x by {
        assert forall x :: x in rest ==> x in s && x != m;
      }
      [m] + rest
  }
}
