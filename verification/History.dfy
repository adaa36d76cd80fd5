/** What no command ever changes: identities, terminal grant states, the audit prefix, and the bytes of a vault object. */
module History {
  import opened Domain
  import opened Vaults
  import opened Ledgers
  import opened Engines
  import opened Coupling

  ghost predicate GrantLater(g: Grant, h: Grant) {
    && g.caseId == h.caseId && g.secretDigest == h.secretDigest && g.expiresAt == h.expiresAt
    && g.maxBytes == h.maxBytes && g.maxUploads == h.maxUploads && g.createdAt == h.createdAt
    && (g.state != Issued ==> h == g)
    && g.uploadsUsed <= h.uploadsUsed
    && (g.consumedBy.Some? ==> h.consumedBy == g.consumedBy)
  }

  ghost predicate DumpLater(d: Dump, e: Dump) {
    && d.caseId == e.caseId && d.originalName == e.originalName && d.receivedAt == e.receivedAt
    && (d.phase != Receiving ==> e.phase != Receiving && e.byteSize == d.byteSize && e.sha256 == d.sha256)
    && (d.phase == Deleted ==> e == d)
  }

  ghost predicate GrantsLater(l: Ledger, m: Ledger) {
    l.grants.Keys <= m.grants.Keys && forall g :: g in l.grants ==> GrantLater(l.grants[g], m.grants[g])
  }

  ghost predicate DumpsLater(l: Ledger, m: Ledger) {
    l.dumps.Keys <= m.dumps.Keys && forall d :: d in l.dumps ==> DumpLater(l.dumps[d], m.dumps[d])
  }

  ghost predicate Later(l: Ledger, m: Ledger) {
    && l.origin == m.origin && l.audit <= m.audit
    && l.customers.Keys <= m.customers.Keys && l.cases.Keys <= m.cases.Keys
    && GrantsLater(l, m) && DumpsLater(l, m)
  }

  /** An object keeps its bytes, and goes only when its dump is being purged. */
  ghost predicate ObjectsKept(s: Store, t: Store) {
    forall id :: id in s.vault.objects ==>
      if id in t.vault.objects then t.vault.objects[id] == s.vault.objects[id]
      else id in s.ledger.dumps && s.ledger.dumps[id].phase == Deleting
  }

  lemma DumpEdgeLater(l: Ledger, id: DumpId, edge: DumpEdge, at: Time)
    ensures l.TransitionDump(id, edge, at).Ok? ==> Later(l, l.TransitionDump(id, edge, at).value)
  {
    if l.TransitionDump(id, edge, at).Ok? {
      assert DumpLater(l.dumps[id], edge.Apply(l.dumps[id], at));
    }
  }

  lemma BeginUploadLater(l: Ledger, grantId: GrantId, dumpId: DumpId, name: string, at: Time)
    ensures l.BeginUpload(grantId, dumpId, name, at).Ok? ==> Later(l, l.BeginUpload(grantId, dumpId, name, at).value)
  {
    match l.BeginUpload(grantId, dumpId, name, at)
    case Ok(m) => assert GrantLater(l.grants[grantId], m.grants[grantId]);
    case Err(_) =>
  }

  lemma TransitionGrantLater(l: Ledger, id: GrantId, next: GrantState, at: Time)
    ensures l.TransitionGrant(id, next, at).Ok? ==> Later(l, l.TransitionGrant(id, next, at).value)
  {
    match l.TransitionGrant(id, next, at)
    case Ok(m) => assert GrantLater(l.grants[id], m.grants[id]);
    case Err(_) =>
  }

  lemma CloseCaseLater(l: Ledger, id: CaseId, at: Time)
    ensures l.CloseCase(id, at).Ok? ==> Later(l, l.CloseCase(id, at).value)
  {}

  lemma PlainDumpCommandLater(ports: Ports, s: Store, command: Command, at: Time)
    requires command.SetRetention? || command.ImportDump?
    ensures Later(s.ledger, s.Execute(ports, command, at).0.ledger)
  {
    hide Store.Execute;
    PlainDumpCommand(ports, s, command, at);
  }

  lemma DumpCommandLater(ports: Ports, s: Store, command: Command, at: Time)
    requires TouchesDumps(command)
    ensures Later(s.ledger, s.Execute(ports, command, at).0.ledger)
  {
    if command.SetRetention? || command.ImportDump? {
      PlainDumpCommandLater(ports, s, command, at);
    } else if command.BeginUpload? {
      if s.OpenGrant(command.secretDigest, at).Ok? {
        BeginUploadLater(s.ledger, s.OpenGrant(command.secretDigest, at).value, command.dumpId, command.originalName, at);
      }
    } else {
      var edge := EdgeOf(ports, s, command);
      if edge.Some? {
        DumpEdgeLater(s.ledger, command.dumpId, edge.value, at);
      }
      EdgeCommand(ports, s, command, at);
    }
  }

  /** The transition a dump command attempts, if its inspection lets it. */
  function EdgeOf(ports: Ports, s: Store, command: Command): Option<DumpEdge> {
    match command
    case SealUpload(_, size, sha) => Some(SealEdge(size, sha))
    case FailUpload(_) => Some(FailEdge)
    case PromoteObject(_) => Some(PromotedEdge)
    case MarkQuarantined(_) => Some(QuarantinedEdge)
    case AcceptDump(id) =>
      var outcome := s.Inspected(ports, id);
      if outcome.Sound? then Some(AcceptEdge(outcome.coverage, outcome.facts)) else None
    case RejectDump(id) =>
      var outcome := s.Inspected(ports, id);
      if outcome.Unsound? then Some(RejectEdge(outcome.error)) else None
    case BeginPurge(_) => Some(BeginPurgeEdge)
    case FinishPurge(_) => Some(FinishPurgeEdge)
    case _ => None
  }

  /** Seen from the ledger, a dump command runs its edge or nothing. */
  lemma EdgeCommand(ports: Ports, s: Store, command: Command, at: Time)
    requires TouchesDumps(command) && !command.SetRetention? && !command.ImportDump? && !command.BeginUpload?
    ensures var l := s.Execute(ports, command, at).0.ledger;
            || l == s.ledger
            || (EdgeOf(ports, s, command).Some? &&
                s.ledger.TransitionDump(command.dumpId, EdgeOf(ports, s, command).value, at) == Ok(l))
  {}

  lemma NativeCommandLater(ports: Ports, s: Store, command: Command, at: Time)
    requires !TouchesDumps(command) && !command.IsImport()
    ensures Later(s.ledger, s.Execute(ports, command, at).0.ledger)
  {
    hide Store.Execute, Ledger.CloseCase, Ledger.TransitionGrant;
    OtherCommand(ports, s, command, at);
    match command
    case RevokeGrant(id) => TransitionGrantLater(s.ledger, id, Revoked, at);
    case ExpireGrant(id) => TransitionGrantLater(s.ledger, id, Expired, at);
    case CloseCase(id) => CloseCaseLater(s.ledger, id, at);
    case _ =>
  }

  lemma ImportCommandLater(ports: Ports, s: Store, command: Command, at: Time)
    requires !TouchesDumps(command) && command.IsImport()
    ensures Later(s.ledger, s.Execute(ports, command, at).0.ledger)
  {
    hide Store.Execute;
    OtherCommand(ports, s, command, at);
  }

  /** In every command: rows keep their identity, terminal grants and tombstones never change, the audit log only grows. */
  lemma ExecuteLater(ports: Ports, s: Store, command: Command, at: Time)
    ensures Later(s.ledger, s.Execute(ports, command, at).0.ledger)
  {
    if TouchesDumps(command) {
      DumpCommandLater(ports, s, command, at);
    } else if command.IsImport() {
      ImportCommandLater(ports, s, command, at);
    } else {
      NativeCommandLater(ports, s, command, at);
    }
  }

  /** A vault object is written once and removed only by a purge. */
  lemma ExecuteKeepsObjects(ports: Ports, s: Store, command: Command, at: Time)
    ensures ObjectsKept(s, s.Execute(ports, command, at).0)
    ensures forall v :: v in s.HalfDone(command, at) ==> ObjectsKept(s, s.(vault := v))
  {
    KeepsObjects(ports, s, command, at);
    hide Store.Execute;
    match command
    case PromoteObject(id) =>
    case FinishPurge(id) =>
    case _ =>
  }

  lemma KeepsObjects(ports: Ports, s: Store, command: Command, at: Time)
    ensures ObjectsKept(s, s.Execute(ports, command, at).0)
  {
    if TouchesDumps(command) {
      DumpCommandKeepsObjects(ports, s, command, at);
    } else {
      hide Store.Execute;
      OtherCommand(ports, s, command, at);
    }
  }

  lemma DumpCommandKeepsObjects(ports: Ports, s: Store, command: Command, at: Time)
    requires TouchesDumps(command)
    ensures ObjectsKept(s, s.Execute(ports, command, at).0)
  {
    if !command.PromoteObject? && !command.FinishPurge? {
      hide Store.Execute;
      SameObjects(ports, s, command, at);
    }
  }

  lemma SameObjects(ports: Ports, s: Store, command: Command, at: Time)
    requires TouchesDumps(command) && !command.PromoteObject? && !command.FinishPurge?
    ensures s.Execute(ports, command, at).0.vault.objects == s.vault.objects
  {
    hide Ledger.BeginUpload, Ledger.TransitionDump, Ledger.ImportDump, Ledger.SetRetention, Store.Inspected;
  }
}
