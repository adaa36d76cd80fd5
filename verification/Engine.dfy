/** The command executor: the order of vault calls and ledger transactions behind each command.
    A command is one synchronous call, so nothing interleaves with it; a crash can still fall between its two halves. */
module Engines {
  import opened Domain
  import opened Vaults
  import opened Ledgers

  datatype Inspection = Sound(coverage: Coverage, facts: string) | Unsound(error: string)

  /** What the engine is handed: SHA-256, the inspector as a function of the stored bytes, the JSON size of a detail. */
  datatype Ports = Ports(
    hash: seq<byte> -> Digest,
    inspect: seq<byte> -> Inspection,
    detailBytes: Detail -> nat)

  const MAX_AUDIT_DETAIL_BYTES := 16 * 1024
  const IO_ERROR := Unsound("io-error: immutable dump could not be inspected")

  datatype Command =
    | CreateCustomer(customerId: CustomerId, displayName: string)
    | CreateCase(caseId: CaseId, customerId: CustomerId, title: string)
    | MoveCase(caseId: CaseId, caseEdge: CaseEdge)
    | CloseCase(caseId: CaseId)
    | IssueGrant(grantId: GrantId, caseId: CaseId, secretDigest: Digest, expiresAt: Time, maxBytes: nat, maxUploads: nat)
    | RevokeGrant(grantId: GrantId)
    | ExpireGrant(grantId: GrantId)
    | BeginUpload(dumpId: DumpId, secretDigest: Digest, originalName: string)
    | SealUpload(dumpId: DumpId, byteSize: nat, sha256: Digest)
    | FailUpload(dumpId: DumpId)
    | PromoteObject(dumpId: DumpId)
    | MarkQuarantined(dumpId: DumpId)
    | AcceptDump(dumpId: DumpId)
    | RejectDump(dumpId: DumpId)
    | AuthorizeDownload(dumpId: DumpId)
    | SetRetention(dumpId: DumpId, purgeAt: Time)
    | BeginPurge(dumpId: DumpId)
    | FinishPurge(dumpId: DumpId)
    | BeginImport(manifestDigest: Digest, counts: Counts)
    | ImportCustomer(customerId: CustomerId, customer: Customer)
    | ImportCase(caseId: CaseId, caseRow: Case)
    | ImportGrant(grantId: GrantId, grant: Grant, forceRevoked: bool)
    | ImportDump(dumpId: DumpId, record: Dump)
    | ImportAuditEvent(event: AuditEvent)
    | FinishImport(importId: EventId, imported: Counts, skipped: nat)
  {
    predicate IsCase() {
      CreateCustomer? || CreateCase? || MoveCase? || CloseCase? || IssueGrant? || RevokeGrant? || ExpireGrant?
    }

    predicate IsImport() {
      BeginImport? || ImportCustomer? || ImportCase? || ImportGrant? || ImportDump? || ImportAuditEvent? || FinishImport?
    }
  }

  datatype Receipt =
    | Done
    | Begun(caseId: CaseId, grantId: GrantId, maxBytes: nat)
    | ImportBegun(importId: EventId)
    | CaseClosed(revokedGrantIds: seq<GrantId>)
    | Refused(code: ErrorCode)

  datatype Store = Store(ledger: Ledger, vault: Vault) {
    function Commit(outcome: Result<Ledger>, done: Receipt): (Store, Receipt) {
      match outcome
      case Ok(l) => (this.(ledger := l), done)
      case Err(e) => (this, Refused(e))
    }

    /** `requirePhase`: the refusal, if any. */
    function PhaseProblem(id: DumpId, phases: set<Phase>): Option<ErrorCode> {
      if id !in ledger.dumps then Some(NotFound)
      else if ledger.dumps[id].phase !in phases then Some(InvalidTransition)
      else None
    }

    function Inspected(ports: Ports, id: DumpId): Inspection {
      if id in vault.objects then ports.inspect(vault.objects[id]) else IO_ERROR
    }

    /** The grant a presented secret opens, or the refusal. */
    function OpenGrant(secretDigest: Digest, at: Time): (r: Result<GrantId>)
      ensures r.Ok? ==> r.value in ledger.grants && ledger.grants[r.value].secretDigest == secretDigest &&
                        ledger.grants[r.value].state == Issued && at < ledger.grants[r.value].expiresAt
    {
      var found := ledger.FindGrantByDigest(secretDigest);
      if found.None? then Err(GrantInvalid)
      else
        var g := ledger.grants[found.value];
        if g.state == Consumed then Err(GrantExhausted)
        else if g.state == Expired || g.expiresAt <= at then Err(GrantExpired)
        else if g.state != Issued then Err(GrantInvalid)
        else Ok(found.value)
    }

    function BeginUpload(id: DumpId, secretDigest: Digest, originalName: string, at: Time): (Store, Receipt) {
      match OpenGrant(secretDigest, at)
      case Err(e) => (this, Refused(e))
      case Ok(grantId) =>
        match vault.CreateStaging(id, at)
        case Err(e) => (this, Refused(e))
        case Ok(staged) =>
          match ledger.BeginUpload(grantId, id, originalName, at)
          case Err(e) => (this.(vault := staged.RemoveStaging(id)), Refused(e))
          case Ok(l) => (Store(l, staged), Begun(l.dumps[id].caseId, grantId, l.grants[grantId].maxBytes))
    }

    function SealUpload(id: DumpId, byteSize: nat, sha256: Digest, at: Time): (Store, Receipt) {
      match PhaseProblem(id, {Receiving})
      case Some(e) => (this, Refused(e))
      case None =>
        if id !in vault.staging then (this, Refused(IntegrityFailure))
        else Commit(ledger.TransitionDump(id, SealEdge(byteSize, sha256), at), Done)
    }

    function FailUpload(id: DumpId, at: Time): (Store, Receipt) {
      match PhaseProblem(id, {Receiving})
      case Some(e) => (this, Refused(e))
      case None => this.(vault := vault.RemoveStaging(id)).Commit(ledger.TransitionDump(id, FailEdge, at), Done)
    }

    function PromoteObject(id: DumpId, at: Time): (Store, Receipt) {
      match PhaseProblem(id, {Sealed})
      case Some(e) => (this, Refused(e))
      case None =>
        match vault.Promote(id)
        case Err(e) => (this, Refused(e))
        case Ok(v) => this.(vault := v).Commit(ledger.TransitionDump(id, PromotedEdge, at), Done)
    }

    function MarkQuarantined(id: DumpId, at: Time): (Store, Receipt) {
      match PhaseProblem(id, {Sealed})
      case Some(e) => (this, Refused(e))
      case None =>
        if id !in vault.objects || id in vault.staging then (this, Refused(IntegrityFailure))
        else Commit(ledger.TransitionDump(id, QuarantinedEdge, at), Done)
    }

    function AcceptDump(ports: Ports, id: DumpId, at: Time): (Store, Receipt) {
      match PhaseProblem(id, {Quarantined})
      case Some(e) => (this, Refused(e))
      case None =>
        match Inspected(ports, id)
        case Unsound(_) => (this, Refused(InspectionOutcomeMismatch))
        case Sound(coverage, facts) => Commit(ledger.TransitionDump(id, AcceptEdge(coverage, facts), at), Done)
    }

    function RejectDump(ports: Ports, id: DumpId, at: Time): (Store, Receipt) {
      match PhaseProblem(id, {Quarantined})
      case Some(e) => (this, Refused(e))
      case None =>
        match Inspected(ports, id)
        case Sound(_, _) => (this, Refused(InspectionOutcomeMismatch))
        case Unsound(reason) => Commit(ledger.TransitionDump(id, RejectEdge(reason), at), Done)
    }

    function AuthorizeDownload(id: DumpId, at: Time): (Store, Receipt) {
      if id !in vault.objects then (this, Refused(IntegrityFailure))
      else Commit(ledger.AuthorizeDownload(id, at), Done)
    }

    function BeginPurge(id: DumpId, at: Time): (Store, Receipt) {
      match PhaseProblem(id, {Available, Rejected})
      case Some(e) => (this, Refused(e))
      case None => Commit(ledger.TransitionDump(id, BeginPurgeEdge, at), Done)
    }

    function FinishPurge(id: DumpId, at: Time): (Store, Receipt) {
      match PhaseProblem(id, {Deleting})
      case Some(e) => (this, Refused(e))
      case None => this.(vault := vault.Remove(id)).Commit(ledger.TransitionDump(id, FinishPurgeEdge, at), Done)
    }

    function ImportDump(id: DumpId, record: Dump, at: Time): (Store, Receipt) {
      if record.phase == Available then
        if record.byteSize.None? || record.sha256.None? then (this, Refused(InvalidInput))
        else if id !in vault.staging || id in vault.objects then (this, Refused(IntegrityFailure))
        else
          match ledger.ImportDump(id, StagedRow(record), Available, true, at)
          case Err(e) => (this.(vault := vault.RemoveStaging(id)), Refused(e))
          case Ok(l) => (this.(ledger := l), Done)
      else if record.phase == Rejected || record.phase == Deleted then
        Commit(ledger.ImportDump(id, TombstoneRow(record), record.phase, false, at), Done)
      else (this, Refused(InvalidTransition))
    }

    function Execute(ports: Ports, command: Command, at: Time): (Store, Receipt) {
      match command
      case CreateCustomer(id, name) => Commit(ledger.CreateCustomer(id, name, at), Done)
      case CreateCase(id, customerId, title) => Commit(ledger.CreateCase(id, customerId, title, at), Done)
      case MoveCase(id, edge) => Commit(ledger.TransitionCase(id, edge, at), Done)
      case CloseCase(id) => Commit(ledger.CloseCase(id, at), CaseClosed(SortedIds(ledger.IssuedFor(id))))
      case IssueGrant(id, caseId, digest, expiresAt, maxBytes, maxUploads) =>
        if maxBytes == 0 || expiresAt <= at || !(1 <= maxUploads <= MAX_GRANT_UPLOAD_SLOTS) then (this, Refused(InvalidInput))
        else Commit(ledger.IssueGrant(id, caseId, digest, expiresAt, maxBytes, maxUploads, at), Done)
      case RevokeGrant(id) => Commit(ledger.TransitionGrant(id, Revoked, at), Done)
      case ExpireGrant(id) => Commit(ledger.TransitionGrant(id, Expired, at), Done)
      case BeginUpload(id, digest, name) => BeginUpload(id, digest, name, at)
      case SealUpload(id, size, sha) => SealUpload(id, size, sha, at)
      case FailUpload(id) => FailUpload(id, at)
      case PromoteObject(id) => PromoteObject(id, at)
      case MarkQuarantined(id) => MarkQuarantined(id, at)
      case AcceptDump(id) => AcceptDump(ports, id, at)
      case RejectDump(id) => RejectDump(ports, id, at)
      case AuthorizeDownload(id) => AuthorizeDownload(id, at)
      case SetRetention(id, purgeAt) =>
        if purgeAt <= at then (this, Refused(InvalidInput)) else Commit(ledger.SetRetention(id, purgeAt, at), Done)
      case BeginPurge(id) => BeginPurge(id, at)
      case FinishPurge(id) => FinishPurge(id, at)
      case BeginImport(digest, counts) => Commit(ledger.BeginImport(digest, counts, at), ImportBegun(ledger.NextEventId()))
      case ImportCustomer(id, record) => Commit(ledger.ImportCustomer(id, record, at), Done)
      case ImportCase(id, record) => Commit(ledger.ImportCase(id, record, at), Done)
      case ImportGrant(id, record, force) =>
        if !ImportableGrant(record) then (this, Refused(InvalidInput))
        else Commit(ledger.ImportGrant(id, record, force, at), Done)
      case ImportDump(id, record) => ImportDump(id, record, at)
      case ImportAuditEvent(event) =>
        if ports.detailBytes(event.detail) > MAX_AUDIT_DETAIL_BYTES then (this, Refused(InvalidInput))
        else Commit(ledger.ImportAuditEvent(event), Done)
      case FinishImport(importId, imported, skipped) => Commit(ledger.FinishImport(importId, imported, skipped, at), Done)
    }

    /** The vaults a crash inside the command can leave, the ledger being untouched: after its vault call and,
        for `remove`, between the staging file and the object directory. */
    function HalfDone(command: Command, at: Time): set<Vault> {
      match command
      case BeginUpload(id, digest, _) =>
        if OpenGrant(digest, at).Ok? && vault.CreateStaging(id, at).Ok? then {vault, vault.CreateStaging(id, at).value} else {vault}
      case FailUpload(id) => if PhaseProblem(id, {Receiving}).None? then {vault, vault.RemoveStaging(id)} else {vault}
      case PromoteObject(id) =>
        if PhaseProblem(id, {Sealed}).None? && vault.Promote(id).Ok? then {vault, vault.Promote(id).value} else {vault}
      case FinishPurge(id) =>
        if PhaseProblem(id, {Deleting}).None? then {vault, vault.RemoveStaging(id), vault.Remove(id)} else {vault}
      case _ => {vault}
    }
  }

  predicate ImportableGrant(g: Grant) {
    0 < g.maxBytes && 1 <= g.maxUploads <= MAX_GRANT_UPLOAD_SLOTS && g.uploadsUsed <= MAX_GRANT_UPLOAD_SLOTS
  }

  function StagedRow(d: Dump): Dump {
    Dump(d.caseId, Sealed, InStaging, d.originalName, d.byteSize, d.sha256, NotChecked, None, false, None, None,
         d.receivedAt, None, d.purgeAt, None)
  }

  function TombstoneRow(d: Dump): Dump {
    d.(blob := NoBlob, downloadable := false)
  }

  class Engine {
    const ports: Ports
    const ledger: SqliteLedger
    const vault: MemoryVault

    function State(): Store
      reads ledger, vault
    {
      Store(ledger.State(), vault.State())
    }

    constructor (ports: Ports, ledger: SqliteLedger, vault: MemoryVault)
      ensures this.ports == ports && this.ledger == ledger && this.vault == vault
    {
      this.ports, this.ledger, this.vault := ports, ledger, vault;
    }

    static function Answer(r: Result<()>, done: Receipt): Receipt {
      match r
      case Ok(_) => done
      case Err(e) => Refused(e)
    }

    method RequirePhase(id: DumpId, phases: set<Phase>) returns (problem: Option<ErrorCode>)
      ensures problem == State().PhaseProblem(id, phases)
    {
      if id !in ledger.dumps { return Some(NotFound); }
      if ledger.dumps[id].phase !in phases { return Some(InvalidTransition); }
      problem := None;
    }

    method Inspect(id: DumpId) returns (outcome: Inspection)
      ensures outcome == State().Inspected(ports, id)
    {
      outcome := if id in vault.objects then ports.inspect(vault.objects[id]) else IO_ERROR;
    }

    method BeginUpload(id: DumpId, secretDigest: Digest, originalName: string, at: Time) returns (receipt: Receipt)
      modifies ledger, vault
      ensures (State(), receipt) == old(State()).BeginUpload(id, secretDigest, originalName, at)
    {
      var found := ledger.State().FindGrantByDigest(secretDigest);
      if found.None? { return Refused(GrantInvalid); }
      var grant := ledger.grants[found.value];
      if grant.state == Consumed { return Refused(GrantExhausted); }
      if grant.state == Expired || grant.expiresAt <= at { return Refused(GrantExpired); }
      if grant.state != Issued { return Refused(GrantInvalid); }
      var staged := vault.CreateStaging(id, at);
      if staged.Err? { return Refused(staged.code); }
      var begun := ledger.BeginUpload(found.value, id, originalName, at);
      if begun.Err? {
        vault.RemoveStaging(id);
        return Refused(begun.code);
      }
      receipt := Begun(grant.caseId, found.value, grant.maxBytes);
    }

    method SealUpload(id: DumpId, byteSize: nat, sha256: Digest, at: Time) returns (receipt: Receipt)
      modifies ledger
      ensures (State(), receipt) == old(State()).SealUpload(id, byteSize, sha256, at)
    {
      var problem := RequirePhase(id, {Receiving});
      if problem.Some? { return Refused(problem.value); }
      if id !in vault.staging { return Refused(IntegrityFailure); }
      var r := ledger.TransitionDump(id, SealEdge(byteSize, sha256), at);
      receipt := Answer(r, Done);
    }

    method FailUpload(id: DumpId, at: Time) returns (receipt: Receipt)
      modifies ledger, vault
      ensures (State(), receipt) == old(State()).FailUpload(id, at)
    {
      var problem := RequirePhase(id, {Receiving});
      if problem.Some? { return Refused(problem.value); }
      vault.RemoveStaging(id);
      var r := ledger.TransitionDump(id, FailEdge, at);
      receipt := Answer(r, Done);
    }

    method PromoteObject(id: DumpId, at: Time) returns (receipt: Receipt)
      modifies ledger, vault
      ensures (State(), receipt) == old(State()).PromoteObject(id, at)
    {
      var problem := RequirePhase(id, {Sealed});
      if problem.Some? { return Refused(problem.value); }
      var promoted := vault.Promote(id);
      if promoted.Err? { return Refused(promoted.code); }
      var r := ledger.TransitionDump(id, PromotedEdge, at);
      receipt := Answer(r, Done);
    }

    method MarkQuarantined(id: DumpId, at: Time) returns (receipt: Receipt)
      modifies ledger
      ensures (State(), receipt) == old(State()).MarkQuarantined(id, at)
    {
      var problem := RequirePhase(id, {Sealed});
      if problem.Some? { return Refused(problem.value); }
      if id !in vault.objects || id in vault.staging { return Refused(IntegrityFailure); }
      var r := ledger.TransitionDump(id, QuarantinedEdge, at);
      receipt := Answer(r, Done);
    }

    method AcceptDump(id: DumpId, at: Time) returns (receipt: Receipt)
      modifies ledger
      ensures (State(), receipt) == old(State()).AcceptDump(ports, id, at)
    {
      var problem := RequirePhase(id, {Quarantined});
      if problem.Some? { return Refused(problem.value); }
      var inspection := Inspect(id);
      if inspection.Unsound? { return Refused(InspectionOutcomeMismatch); }
      var r := ledger.TransitionDump(id, AcceptEdge(inspection.coverage, inspection.facts), at);
      receipt := Answer(r, Done);
    }

    method RejectDump(id: DumpId, at: Time) returns (receipt: Receipt)
      modifies ledger
      ensures (State(), receipt) == old(State()).RejectDump(ports, id, at)
    {
      var problem := RequirePhase(id, {Quarantined});
      if problem.Some? { return Refused(problem.value); }
      var inspection := Inspect(id);
      if inspection.Sound? { return Refused(InspectionOutcomeMismatch); }
      var r := ledger.TransitionDump(id, RejectEdge(inspection.error), at);
      receipt := Answer(r, Done);
    }

    method BeginPurge(id: DumpId, at: Time) returns (receipt: Receipt)
      modifies ledger
      ensures (State(), receipt) == old(State()).BeginPurge(id, at)
    {
      var problem := RequirePhase(id, {Available, Rejected});
      if problem.Some? { return Refused(problem.value); }
      var r := ledger.TransitionDump(id, BeginPurgeEdge, at);
      receipt := Answer(r, Done);
    }

    method FinishPurge(id: DumpId, at: Time) returns (receipt: Receipt)
      modifies ledger, vault
      ensures (State(), receipt) == old(State()).FinishPurge(id, at)
    {
      var problem := RequirePhase(id, {Deleting});
      if problem.Some? { return Refused(problem.value); }
      vault.Remove(id);
      var r := ledger.TransitionDump(id, FinishPurgeEdge, at);
      receipt := Answer(r, Done);
    }

    method ImportDump(id: DumpId, record: Dump, at: Time) returns (receipt: Receipt)
      modifies ledger, vault
      ensures (State(), receipt) == old(State()).ImportDump(id, record, at)
    {
      var r: Result<()>;
      if record.phase == Available {
        if record.byteSize.None? || record.sha256.None? { return Refused(InvalidInput); }
        if id !in vault.staging || id in vault.objects { return Refused(IntegrityFailure); }
        r := ledger.ImportDump(id, StagedRow(record), Available, true, at);
        if r.Err? { vault.RemoveStaging(id); }
      } else if record.phase == Rejected || record.phase == Deleted {
        r := ledger.ImportDump(id, TombstoneRow(record), record.phase, false, at);
      } else {
        r := Err(InvalidTransition);
      }
      receipt := Answer(r, Done);
    }

    method AuthorizeDownload(id: DumpId, at: Time) returns (receipt: Receipt)
      modifies ledger
      ensures (State(), receipt) == old(State()).AuthorizeDownload(id, at)
    {
      if id !in vault.objects { return Refused(IntegrityFailure); }
      var r := ledger.AuthorizeDownload(id, at);
      receipt := Answer(r, Done);
    }

    /** The commands of an import. */
    method ExecuteImport(command: Command, at: Time) returns (receipt: Receipt)
      requires command.IsImport()
      modifies ledger, vault
      ensures (State(), receipt) == old(State()).Execute(ports, command, at)
    {
      hide Ledger.BeginImport, Ledger.ImportCustomer, Ledger.ImportCase, Ledger.ImportGrant, Ledger.ImportAuditEvent, Ledger.FinishImport,
           Store.ImportDump, SqliteLedger.State, MemoryVault.State, ImportableGrant, Ledger.NextEventId;
      var r: Result<()> := Ok(());
      var done := Done;
      match command {
        case BeginImport(digest, counts) =>
          done := ImportBegun(ledger.State().NextEventId());
          r := ledger.BeginImport(digest, counts, at);
        case ImportCustomer(id, record) => r := ledger.ImportCustomer(id, record, at);
        case ImportCase(id, record) => r := ledger.ImportCase(id, record, at);
        case ImportGrant(id, record, force) =>
          if !ImportableGrant(record) { return Refused(InvalidInput); }
          r := ledger.ImportGrant(id, record, force, at);
        case ImportDump(id, record) => receipt := ImportDump(id, record, at); return;
        case ImportAuditEvent(event) =>
          if ports.detailBytes(event.detail) > MAX_AUDIT_DETAIL_BYTES { return Refused(InvalidInput); }
          r := ledger.ImportAuditEvent(event);
        case FinishImport(importId, imported, skipped) => r := ledger.FinishImport(importId, imported, skipped, at);
      }
      receipt := Answer(r, done);
    }

    /** The commands about customers, cases and grants. */
    method ExecuteCase(command: Command, at: Time) returns (receipt: Receipt)
      requires command.IsCase()
      modifies ledger, vault
      ensures (State(), receipt) == old(State()).Execute(ports, command, at)
    {
      hide Ledger.CreateCustomer, Ledger.CreateCase, Ledger.TransitionCase, Ledger.CloseCase, Ledger.IssueGrant, Ledger.TransitionGrant,
           SqliteLedger.State, MemoryVault.State, SortedIds, Ledger.IssuedFor;
      var r: Result<()> := Ok(());
      var done := Done;
      match command {
        case CreateCustomer(id, name) => r := ledger.CreateCustomer(id, name, at);
        case CreateCase(id, customerId, title) => r := ledger.CreateCase(id, customerId, title, at);
        case MoveCase(id, edge) => r := ledger.TransitionCase(id, edge, at);
        case CloseCase(id) =>
          done := CaseClosed(SortedIds(ledger.State().IssuedFor(id)));
          r := ledger.CloseCase(id, at);
        case IssueGrant(id, caseId, digest, expiresAt, maxBytes, maxUploads) =>
          if maxBytes == 0 || expiresAt <= at || !(1 <= maxUploads <= MAX_GRANT_UPLOAD_SLOTS) { return Refused(InvalidInput); }
          r := ledger.IssueGrant(id, caseId, digest, expiresAt, maxBytes, maxUploads, at);
        case RevokeGrant(id) => r := ledger.TransitionGrant(id, Revoked, at);
        case ExpireGrant(id) => r := ledger.TransitionGrant(id, Expired, at);
      }
      receipt := Answer(r, done);
    }

    /** The commands about one dump. */
    method ExecuteDump(command: Command, at: Time) returns (receipt: Receipt)
      requires !command.IsCase() && !command.IsImport()
      modifies ledger, vault
      ensures (State(), receipt) == old(State()).Execute(ports, command, at)
    {
      hide Ledger.SetRetention, Store.BeginUpload, Store.SealUpload, Store.FailUpload, Store.PromoteObject,
           Store.MarkQuarantined, Store.AcceptDump, Store.RejectDump, Store.BeginPurge, Store.FinishPurge,
           Store.AuthorizeDownload, SqliteLedger.State, MemoryVault.State;
      match command {
        case BeginUpload(id, digest, name) => receipt := BeginUpload(id, digest, name, at);
        case SealUpload(id, size, sha) => receipt := SealUpload(id, size, sha, at);
        case FailUpload(id) => receipt := FailUpload(id, at);
        case PromoteObject(id) => receipt := PromoteObject(id, at);
        case MarkQuarantined(id) => receipt := MarkQuarantined(id, at);
        case AcceptDump(id) => receipt := AcceptDump(id, at);
        case RejectDump(id) => receipt := RejectDump(id, at);
        case AuthorizeDownload(id) => receipt := AuthorizeDownload(id, at);
        case SetRetention(id, purgeAt) =>
          if purgeAt <= at { return Refused(InvalidInput); }
          var r := ledger.SetRetention(id, purgeAt, at);
          receipt := Answer(r, Done);
        case BeginPurge(id) => receipt := BeginPurge(id, at);
        case FinishPurge(id) => receipt := FinishPurge(id, at);
      }
    }

    method Execute(command: Command, at: Time) returns (receipt: Receipt)
      modifies ledger, vault
      ensures (State(), receipt) == old(State()).Execute(ports, command, at)
    {
      hide Store.Execute;
      if command.IsCase() {
        receipt := ExecuteCase(command, at);
      } else if command.IsImport() {
        receipt := ExecuteImport(command, at);
      } else {
        receipt := ExecuteDump(command, at);
      }
    }
  }
}
