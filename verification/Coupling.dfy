/** The invariant that ties the ledger to the vault although the two cannot commit together,
    and what every command keeps. */
module Coupling {
  import opened Domain
  import opened Vaults
  import opened Ledgers
  import opened Engines

  predicate Matches(ports: Ports, d: Dump, bytes: seq<byte>) {
    d.byteSize == Some(|bytes|) && d.sha256 == Some(ports.hash(bytes))
  }

  predicate SealedStaging(ports: Ports, d: Dump, v: Vault, id: DumpId) {
    id in v.staging && !v.staging[id].open && Matches(ports, d, v.staging[id].Bytes())
  }

  predicate SealedObject(ports: Ports, d: Dump, v: Vault, id: DumpId) {
    id in v.objects && id !in v.staging && Matches(ports, d, v.objects[id])
  }

  predicate NoObject(v: Vault, id: DumpId) {
    id !in v.objects
  }

  predicate Accepted(ports: Ports, d: Dump, bytes: seq<byte>) {
    var outcome := ports.inspect(bytes);
    outcome.Sound? && d.coverage == Some(outcome.coverage) && d.facts == Some(outcome.facts) && d.inspectionError.None?
  }

  /** What the vault holds for a dump, phase by phase. A crash between a vault call and its transaction shows as the
      second disjunct of Sealed, a missing staging file of Receiving, a missing object of Deleting. */
  predicate RowCoupled(ports: Ports, d: Dump, v: Vault, id: DumpId) {
    && d.downloadable == (d.phase == Available)
    && (d.phase in {Receiving, Sealed, Quarantined, Available} ==> d.purgedAt.None?)
    && match d.phase
       case Receiving => d.blob == InStaging && NoObject(v, id) && d.byteSize.None?
       case Sealed =>
         if d.blob == InStaging then (SealedStaging(ports, d, v, id) && NoObject(v, id)) || SealedObject(ports, d, v, id)
         else d.blob == InVault && SealedObject(ports, d, v, id)
       case Quarantined => d.blob == InVault && SealedObject(ports, d, v, id)
       case Available =>
         d.blob == InVault && d.validation == Valid && SealedObject(ports, d, v, id) && Accepted(ports, d, v.objects[id])
       case Rejected =>
         id !in v.staging && if d.blob == NoBlob then NoObject(v, id) else d.blob == InVault && SealedObject(ports, d, v, id)
       case Deleting => id !in v.staging && (id in v.objects ==> d.blob == InVault && Matches(ports, d, v.objects[id]))
       case Deleted => d.blob == NoBlob && id !in v.staging && NoObject(v, id)
  }

  predicate References(l: Ledger) {
    && (forall c :: c in l.cases ==> l.cases[c].customerId in l.customers)
    && (forall g :: g in l.grants ==> l.grants[g].caseId in l.cases)
    && (forall d :: d in l.dumps ==> l.dumps[d].caseId in l.cases)
  }

  predicate Coupled(ports: Ports, s: Store) {
    && References(s.ledger)
    && s.vault.objects.Keys <= s.ledger.dumps.Keys
    && forall id :: id in s.ledger.dumps ==> RowCoupled(ports, s.ledger.dumps[id], s.vault, id)
  }

  /** An id the id source has just drawn. */
  predicate Unused(s: Store, id: DumpId) {
    id !in s.ledger.dumps && id !in s.vault.staging && id !in s.vault.objects
  }

  /** What the callers of the engine owe it. Only the upload session seals and only the import session stages
      available dumps; each has measured and hashed exactly the bytes it closed in staging. */
  predicate Owed(ports: Ports, s: Store, command: Command) {
    match command
    case BeginUpload(id, _, _) => Unused(s, id)
    case SealUpload(id, size, sha) =>
      id in s.vault.staging ==>
        !s.vault.staging[id].open && size == |s.vault.staging[id].Bytes()| && sha == ports.hash(s.vault.staging[id].Bytes())
    case ImportDump(id, record) =>
      id !in s.ledger.dumps && id !in s.vault.objects &&
      if record.phase == Available then SealedStaging(ports, record, s.vault, id) else id !in s.vault.staging
    case _ => true
  }

  /** The two stores agree about every dump but `id`. */
  ghost predicate SameElsewhere(s: Store, t: Store, id: DumpId) {
    && (forall x :: x != id ==> (x in s.ledger.dumps <==> x in t.ledger.dumps))
    && (forall x :: x != id && x in s.ledger.dumps ==> s.ledger.dumps[x] == t.ledger.dumps[x])
    && (forall x :: x != id ==> (x in s.vault.staging <==> x in t.vault.staging))
    && (forall x :: x != id && x in s.vault.staging ==> s.vault.staging[x] == t.vault.staging[x])
    && (forall x :: x != id ==> (x in s.vault.objects <==> x in t.vault.objects))
    && (forall x :: x != id && x in s.vault.objects ==> s.vault.objects[x] == t.vault.objects[x])
  }

  lemma OneRow(ports: Ports, s: Store, t: Store, id: DumpId)
    requires Coupled(ports, s) && References(t.ledger) && SameElsewhere(s, t, id)
    requires id in t.vault.objects ==> id in t.ledger.dumps
    requires id in t.ledger.dumps ==> RowCoupled(ports, t.ledger.dumps[id], t.vault, id)
    ensures Coupled(ports, t)
  {
    forall x | x in t.ledger.dumps ensures RowCoupled(ports, t.ledger.dumps[x], t.vault, x) {
      if x != id {
        assert RowCoupled(ports, s.ledger.dumps[x], s.vault, x);
      }
    }
  }

  lemma SameRows(ports: Ports, s: Store, t: Store)
    requires Coupled(ports, s) && References(t.ledger)
    requires t.ledger.dumps == s.ledger.dumps && t.vault == s.vault
    ensures Coupled(ports, t)
  {}

  lemma BeginUploadKeepsCoupled(ports: Ports, s: Store, id: DumpId, digest: Digest, name: string, at: Time)
    requires Coupled(ports, s) && Unused(s, id)
    ensures Coupled(ports, s.BeginUpload(id, digest, name, at).0)
  {
    hide RowCoupled, Store.BeginUpload, SameElsewhere;
    BegunElsewhere(s, id, digest, name, at);
    BegunRow(ports, s, id, digest, name, at);
    OneRow(ports, s, s.BeginUpload(id, digest, name, at).0, id);
  }

  lemma BegunElsewhere(s: Store, id: DumpId, digest: Digest, name: string, at: Time)
    requires References(s.ledger) && Unused(s, id)
    ensures var t := s.BeginUpload(id, digest, name, at).0; SameElsewhere(s, t, id) && References(t.ledger) && id !in t.vault.objects
  {}

  lemma BegunRow(ports: Ports, s: Store, id: DumpId, digest: Digest, name: string, at: Time)
    requires Unused(s, id)
    ensures var t := s.BeginUpload(id, digest, name, at).0;
            id in t.ledger.dumps ==> RowCoupled(ports, t.ledger.dumps[id], t.vault, id)
  {}

  /** One dump row written beside a vault that changed at most at that id. */
  lemma RowKeepsCoupled(ports: Ports, s: Store, l: Ledger, v: Vault, id: DumpId, row: Dump)
    requires Coupled(ports, s) && SameElsewhere(s, s.(vault := v), id)
    requires l.customers == s.ledger.customers && l.cases == s.ledger.cases && l.grants == s.ledger.grants
    requires l.dumps == s.ledger.dumps[id := row] && row.caseId in l.cases
    requires RowCoupled(ports, row, v, id)
    ensures Coupled(ports, Store(l, v))
  {
    var t := Store(l, v);
    assert References(l) by {
      forall d | d in l.dumps ensures l.dumps[d].caseId in l.cases {
        assert d == id || d in s.ledger.dumps;
      }
    }
    OneRow(ports, s, t, id);
  }

  /** A transaction on one dump row beside a vault that changed at most at that id. */
  lemma EdgeKeepsCoupled(ports: Ports, s: Store, v: Vault, id: DumpId, edge: DumpEdge, at: Time)
    requires Coupled(ports, s) && SameElsewhere(s, s.(vault := v), id)
    requires id in s.ledger.dumps && edge.Permits(s.ledger.dumps[id])
    requires RowCoupled(ports, edge.Apply(s.ledger.dumps[id], at), v, id)
    ensures s.ledger.TransitionDump(id, edge, at).Ok?
    ensures Coupled(ports, Store(s.ledger.TransitionDump(id, edge, at).value, v))
  {
    var row := edge.Apply(s.ledger.dumps[id], at);
    assert row.caseId == s.ledger.dumps[id].caseId;
    RowKeepsCoupled(ports, s, s.ledger.TransitionDump(id, edge, at).value, v, id, row);
  }

  lemma FailKeepsCoupled(ports: Ports, s: Store, id: DumpId, at: Time)
    requires Coupled(ports, s)
    ensures Coupled(ports, s.FailUpload(id, at).0)
  {
    if s.PhaseProblem(id, {Receiving}).None? {
      assert RowCoupled(ports, s.ledger.dumps[id], s.vault, id);
      EdgeKeepsCoupled(ports, s, s.vault.RemoveStaging(id), id, FailEdge, at);
    }
  }

  lemma SealKeepsCoupled(ports: Ports, s: Store, id: DumpId, size: nat, sha: Digest, at: Time)
    requires Coupled(ports, s) && Owed(ports, s, SealUpload(id, size, sha))
    ensures Coupled(ports, s.SealUpload(id, size, sha, at).0)
  {
    if s.PhaseProblem(id, {Receiving}).None? && id in s.vault.staging {
      assert RowCoupled(ports, s.ledger.dumps[id], s.vault, id);
      EdgeKeepsCoupled(ports, s, s.vault, id, SealEdge(size, sha), at);
    }
  }

  lemma PromoteKeepsCoupled(ports: Ports, s: Store, id: DumpId, at: Time)
    requires Coupled(ports, s)
    ensures Coupled(ports, s.PromoteObject(id, at).0)
  {
    if s.PhaseProblem(id, {Sealed}).None? {
      var d := s.ledger.dumps[id];
      assert RowCoupled(ports, d, s.vault, id);
      var v := s.vault.Promote(id).value;
      if d.blob == InStaging {
        EdgeKeepsCoupled(ports, s, v, id, PromotedEdge, at);
      } else {
        assert v == s.vault;
      }
    }
  }

  lemma QuarantineKeepsCoupled(ports: Ports, s: Store, id: DumpId, at: Time)
    requires Coupled(ports, s)
    ensures Coupled(ports, s.MarkQuarantined(id, at).0)
  {
    if s.PhaseProblem(id, {Sealed}).None? {
      var d := s.ledger.dumps[id];
      assert RowCoupled(ports, d, s.vault, id);
      if QuarantinedEdge.Permits(d) {
        EdgeKeepsCoupled(ports, s, s.vault, id, QuarantinedEdge, at);
      }
    }
  }

  lemma InspectionKeepsCoupled(ports: Ports, s: Store, id: DumpId, at: Time)
    requires Coupled(ports, s)
    ensures Coupled(ports, s.AcceptDump(ports, id, at).0)
    ensures Coupled(ports, s.RejectDump(ports, id, at).0)
  {
    if s.PhaseProblem(id, {Quarantined}).None? {
      assert RowCoupled(ports, s.ledger.dumps[id], s.vault, id);
      match s.Inspected(ports, id)
      case Sound(coverage, facts) => EdgeKeepsCoupled(ports, s, s.vault, id, AcceptEdge(coverage, facts), at);
      case Unsound(reason) => EdgeKeepsCoupled(ports, s, s.vault, id, RejectEdge(reason), at);
    }
  }

  lemma PurgeKeepsCoupled(ports: Ports, s: Store, id: DumpId, at: Time)
    requires Coupled(ports, s)
    ensures Coupled(ports, s.BeginPurge(id, at).0)
    ensures Coupled(ports, s.FinishPurge(id, at).0)
  {
    if s.PhaseProblem(id, {Available, Rejected}).None? {
      assert RowCoupled(ports, s.ledger.dumps[id], s.vault, id);
      EdgeKeepsCoupled(ports, s, s.vault, id, BeginPurgeEdge, at);
    }
    if s.PhaseProblem(id, {Deleting}).None? {
      assert RowCoupled(ports, s.ledger.dumps[id], s.vault, id);
      EdgeKeepsCoupled(ports, s, s.vault.Remove(id), id, FinishPurgeEdge, at);
    }
  }

  lemma ImportDumpKeepsCoupled(ports: Ports, s: Store, id: DumpId, record: Dump, at: Time)
    requires Coupled(ports, s) && Owed(ports, s, ImportDump(id, record))
    ensures Coupled(ports, s.ImportDump(id, record, at).0)
  {
    var staged := record.phase == Available;
    var row := if staged then StagedRow(record) else TombstoneRow(record);
    match s.ledger.ImportDump(id, row, record.phase, staged, at)
    case Ok(l) =>
      if staged || record.phase == Rejected || record.phase == Deleted {
        assert RowCoupled(ports, row, s.vault, id);
        RowKeepsCoupled(ports, s, l, s.vault, id, row);
      }
    case Err(_) =>
      OneRow(ports, s, s.(vault := s.vault.RemoveStaging(id)), id);
  }

  lemma RetentionKeepsCoupled(ports: Ports, s: Store, id: DumpId, purgeAt: Time, at: Time)
    requires Coupled(ports, s)
    ensures Coupled(ports, s.Execute(ports, SetRetention(id, purgeAt), at).0)
  {
    OneRow(ports, s, s.Execute(ports, SetRetention(id, purgeAt), at).0, id);
  }

  predicate TouchesDumps(command: Command) {
    || command.BeginUpload? || command.SealUpload? || command.FailUpload? || command.PromoteObject?
    || command.MarkQuarantined? || command.AcceptDump? || command.RejectDump? || command.SetRetention?
    || command.BeginPurge? || command.FinishPurge? || command.ImportDump?
  }

  /** The commands an upload session runs. */
  lemma UploadCommands(ports: Ports, s: Store, id: DumpId, at: Time)
    ensures forall digest, name ::
              s.Execute(ports, BeginUpload(id, digest, name), at) == s.BeginUpload(id, digest, name, at)
    ensures forall size, sha :: s.Execute(ports, SealUpload(id, size, sha), at) == s.SealUpload(id, size, sha, at)
    ensures s.Execute(ports, FailUpload(id), at) == s.FailUpload(id, at)
  {}

  /** The ledger transaction of a command that is about no dump. */
  function TransactionOf(l: Ledger, command: Command, at: Time): Result<Ledger> {
    match command
    case CreateCustomer(id, name) => l.CreateCustomer(id, name, at)
    case CreateCase(id, customerId, title) => l.CreateCase(id, customerId, title, at)
    case MoveCase(id, edge) => l.TransitionCase(id, edge, at)
    case CloseCase(id) => l.CloseCase(id, at)
    case IssueGrant(id, caseId, digest, expiresAt, maxBytes, maxUploads) => l.IssueGrant(id, caseId, digest, expiresAt, maxBytes, maxUploads, at)
    case RevokeGrant(id) => l.TransitionGrant(id, Revoked, at)
    case ExpireGrant(id) => l.TransitionGrant(id, Expired, at)
    case AuthorizeDownload(id) => l.AuthorizeDownload(id, at)
    case BeginImport(digest, counts) => l.BeginImport(digest, counts, at)
    case ImportCustomer(id, record) => l.ImportCustomer(id, record, at)
    case ImportCase(id, record) => l.ImportCase(id, record, at)
    case ImportGrant(id, record, force) => l.ImportGrant(id, record, force, at)
    case ImportAuditEvent(event) => l.ImportAuditEvent(event)
    case FinishImport(importId, imported, skipped) => l.FinishImport(importId, imported, skipped, at)
    case _ => Err(InvalidInput)
  }

  /** Such a command runs its transaction or nothing, and never touches the vault. */
  lemma OtherCommand(ports: Ports, s: Store, command: Command, at: Time)
    requires !TouchesDumps(command)
    ensures var t := s.Execute(ports, command, at).0;
            t.vault == s.vault && (t.ledger == s.ledger || TransactionOf(s.ledger, command, at) == Ok(t.ledger))
  {
    hide Ledger.CreateCustomer, Ledger.CreateCase, Ledger.TransitionCase, Ledger.CloseCase, Ledger.IssueGrant, Ledger.TransitionGrant,
         Ledger.AuthorizeDownload, Ledger.BeginImport, Ledger.ImportCustomer, Ledger.ImportCase, Ledger.ImportGrant,
         Ledger.ImportAuditEvent, Ledger.FinishImport, SortedIds, Ledger.IssuedFor;
  }

  /** Retention and replayed rows: one transaction, or none. */
  lemma PlainDumpCommand(ports: Ports, s: Store, command: Command, at: Time)
    requires command.SetRetention? || command.ImportDump?
    ensures var l, m := s.ledger, s.Execute(ports, command, at).0.ledger;
            || m == l
            || (command.SetRetention? && l.SetRetention(command.dumpId, command.purgeAt, at) == Ok(m))
            || (command.ImportDump? && l.ImportDump(command.dumpId, StagedRow(command.record), Available, true, at) == Ok(m))
            || (command.ImportDump? && l.ImportDump(command.dumpId, TombstoneRow(command.record), command.record.phase, false, at) == Ok(m))
  {
    hide Ledger.SetRetention, Ledger.ImportDump, StagedRow, TombstoneRow;
  }

  lemma OtherKeepsCoupled(ports: Ports, s: Store, command: Command, at: Time)
    requires Coupled(ports, s) && !TouchesDumps(command)
    ensures Coupled(ports, s.Execute(ports, command, at).0)
    ensures s.Execute(ports, command, at).0.vault == s.vault
    ensures s.Execute(ports, command, at).0.ledger.dumps == s.ledger.dumps
  {
    hide RowCoupled;
    OtherLeavesDumps(ports, s, command, at);
    OtherKeepsReferences(ports, s, command, at);
    SameRows(ports, s, s.Execute(ports, command, at).0);
  }

  lemma OtherLeavesDumps(ports: Ports, s: Store, command: Command, at: Time)
    requires !TouchesDumps(command)
    ensures s.Execute(ports, command, at).0.vault == s.vault
    ensures s.Execute(ports, command, at).0.ledger.dumps == s.ledger.dumps
  {
    hide Store.Execute;
    OtherCommand(ports, s, command, at);
  }

  lemma OtherKeepsReferences(ports: Ports, s: Store, command: Command, at: Time)
    requires References(s.ledger) && !TouchesDumps(command)
    ensures References(s.Execute(ports, command, at).0.ledger)
  {
    hide References, Store.Execute;
    if command.IsImport() {
      ImportKeepsReferences(ports, s, command, at);
    } else {
      NativeKeepsReferences(ports, s, command, at);
    }
  }

  lemma ImportKeepsReferences(ports: Ports, s: Store, command: Command, at: Time)
    requires References(s.ledger) && !TouchesDumps(command) && command.IsImport()
    ensures References(s.Execute(ports, command, at).0.ledger)
  {
    hide Store.Execute;
    OtherCommand(ports, s, command, at);
  }

  lemma NativeKeepsReferences(ports: Ports, s: Store, command: Command, at: Time)
    requires References(s.ledger) && !TouchesDumps(command) && !command.IsImport()
    ensures References(s.Execute(ports, command, at).0.ledger)
  {
    hide Store.Execute, References;
    OtherCommand(ports, s, command, at);
    TransactionKeepsReferences(s.ledger, command, at);
  }

  lemma TransactionKeepsReferences(l: Ledger, command: Command, at: Time)
    requires References(l) && !TouchesDumps(command) && !command.IsImport()
    ensures TransactionOf(l, command, at).Ok? ==> References(TransactionOf(l, command, at).value)
  {
    hide SortedIds, Ledger.FindGrantByDigest;
  }

  lemma ExecuteKeepsCoupled(ports: Ports, s: Store, command: Command, at: Time)
    requires Coupled(ports, s) && Owed(ports, s, command)
    ensures Coupled(ports, s.Execute(ports, command, at).0)
  {
    match command
    case BeginUpload(id, digest, name) => BeginUploadKeepsCoupled(ports, s, id, digest, name, at);
    case SealUpload(id, size, sha) => SealKeepsCoupled(ports, s, id, size, sha, at);
    case FailUpload(id) => FailKeepsCoupled(ports, s, id, at);
    case PromoteObject(id) => PromoteKeepsCoupled(ports, s, id, at);
    case MarkQuarantined(id) => QuarantineKeepsCoupled(ports, s, id, at);
    case AcceptDump(id) => InspectionKeepsCoupled(ports, s, id, at);
    case RejectDump(id) => InspectionKeepsCoupled(ports, s, id, at);
    case SetRetention(id, purgeAt) => RetentionKeepsCoupled(ports, s, id, purgeAt, at);
    case BeginPurge(id) => PurgeKeepsCoupled(ports, s, id, at);
    case FinishPurge(id) => PurgeKeepsCoupled(ports, s, id, at);
    case ImportDump(id, record) => ImportDumpKeepsCoupled(ports, s, id, record, at);
    case _ => OtherKeepsCoupled(ports, s, command, at);
  }
}
