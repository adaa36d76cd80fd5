/** Upload grants over whole runs: slots used are dumps begun, a grant is consumed exactly when its slots are,
    by the first dump begun under it, and a closed case has no open grant. */
module Grants {
  import opened Domain
  import opened Vaults
  import opened Ledgers
  import opened Engines
  import opened Coupling
  import opened History
  import opened Runs

  /** What an observer of the run writes down: the grants issued here and the dumps begun under each, in order. */
  datatype Chronicle = Chronicle(issued: set<GrantId>, begun: map<GrantId, seq<DumpId>>) {
    function BegunUnder(g: GrantId): seq<DumpId> {
      if g in begun then begun[g] else []
    }

    function Noting(ports: Ports, w: World, act: Act): Chronicle {
      match act
      case Run(command, at) =>
        if command.IssueGrant? && w.store.Execute(ports, command, at).1 == Done
        then this.(issued := issued + {command.grantId}) else this
      case OpenUpload(id, digest, name, at) =>
        var receipt := w.store.BeginUpload(id, digest, name, at).1;
        if receipt.Begun? then this.(begun := begun[receipt.grantId := BegunUnder(receipt.grantId) + [id]]) else this
      case _ => this
    }
  }

  ghost predicate Observed(ports: Ports, w: World, c: Chronicle, acts: seq<Act>, end: World, d: Chronicle)
    decreases |acts|
  {
    if acts == [] then end == w && d == c
    else acts[0].Enabled(w) && Observed(ports, acts[0].Next(ports, w), c.Noting(ports, w, acts[0]), acts[1..], end, d)
  }

  predicate Distinct(ids: seq<DumpId>) {
    forall i, j :: 0 <= i < j < |ids| ==> ids[i] != ids[j]
  }

  predicate SlotsCounted(g: Grant, begun: seq<DumpId>) {
    && 1 <= g.maxUploads && g.uploadsUsed == |begun| <= g.maxUploads
    && (g.state == Consumed <==> g.uploadsUsed == g.maxUploads)
    && g.consumedBy == (if begun == [] then None else Some(begun[0]))
    && Distinct(begun)
  }

  predicate BegunInCase(l: Ledger, caseId: CaseId, begun: seq<DumpId>) {
    forall k :: 0 <= k < |begun| ==> begun[k] in l.dumps && l.dumps[begun[k]].caseId == caseId
  }

  predicate GrantAccounted(l: Ledger, c: Chronicle, g: GrantId) {
    && g in l.grants && l.grants[g].caseId in l.cases
    && SlotsCounted(l.grants[g], c.BegunUnder(g))
    && BegunInCase(l, l.grants[g].caseId, c.BegunUnder(g))
    && (l.grants[g].state == Issued ==> l.cases[l.grants[g].caseId].status != Closed)
  }

  ghost predicate Accounted(l: Ledger, c: Chronicle) {
    && (forall g :: g in c.begun ==> g in l.grants)
    && (forall g :: g in c.issued ==> GrantAccounted(l, c, g))
  }

  predicate ChangesGrants(command: Command) {
    || command.IssueGrant? || command.RevokeGrant? || command.ExpireGrant? || command.CloseCase? || command.BeginUpload?
    || command.ImportGrant?
  }

  /** No case closes and no grant moves. */
  ghost predicate GrantsAlone(l: Ledger, m: Ledger) {
    && m.grants == l.grants
    && forall c :: c in l.cases && l.cases[c].status != Closed ==> c in m.cases && m.cases[c].status != Closed
  }

  lemma OthersLeaveGrants(ports: Ports, s: Store, command: Command, at: Time)
    requires !ChangesGrants(command)
    ensures GrantsAlone(s.ledger, s.Execute(ports, command, at).0.ledger)
  {
    hide Store.Execute;
    if TouchesDumps(command) {
      DumpsLeaveGrants(ports, s, command, at);
    } else {
      OtherCommand(ports, s, command, at);
    }
  }

  lemma DumpsLeaveGrants(ports: Ports, s: Store, command: Command, at: Time)
    requires TouchesDumps(command) && !command.BeginUpload?
    ensures GrantsAlone(s.ledger, s.Execute(ports, command, at).0.ledger)
  {
    hide Store.Execute, DumpEdge.Apply, DumpEdge.Permits, DumpEdge.Action, Store.Inspected;
    if command.SetRetention? || command.ImportDump? {
      PlainDumpCommand(ports, s, command, at);
    } else {
      EdgeCommand(ports, s, command, at);
    }
  }

  lemma AloneKeepsAccounts(l: Ledger, m: Ledger, c: Chronicle)
    requires Accounted(l, c) && Later(l, m) && GrantsAlone(l, m)
    ensures Accounted(m, c)
  {
    forall g | g in c.issued ensures GrantAccounted(m, c, g) {
      assert GrantAccounted(l, c, g);
    }
  }

  lemma IssueKeepsAccounts(l: Ledger, c: Chronicle, id: GrantId, caseId: CaseId, digest: Digest, expiresAt: Time,
                           maxBytes: nat, maxUploads: nat, at: Time)
    requires Accounted(l, c) && 1 <= maxUploads
    ensures match l.IssueGrant(id, caseId, digest, expiresAt, maxBytes, maxUploads, at)
            case Ok(m) => Accounted(m, c.(issued := c.issued + {id}))
            case Err(_) => true
  {
    match l.IssueGrant(id, caseId, digest, expiresAt, maxBytes, maxUploads, at)
    case Err(_) =>
    case Ok(m) =>
      var d := c.(issued := c.issued + {id});
      forall g | g in d.issued ensures GrantAccounted(m, d, g) {
        assert d.BegunUnder(g) == c.BegunUnder(g);
        if g in c.issued {
          assert GrantAccounted(l, c, g);
        }
      }
  }

  lemma ClosingKeepsAccounts(l: Ledger, c: Chronicle, id: CaseId, at: Time)
    requires Accounted(l, c)
    ensures l.CloseCase(id, at).Ok? ==> Accounted(l.CloseCase(id, at).value, c)
  {
    match l.CloseCase(id, at)
    case Err(_) =>
    case Ok(m) =>
      forall g | g in c.issued ensures GrantAccounted(m, c, g) {
        assert GrantAccounted(l, c, g);
      }
  }

  lemma TransitionKeepsAccounts(l: Ledger, c: Chronicle, id: GrantId, next: GrantState, at: Time)
    requires Accounted(l, c) && (next == Revoked || next == Expired)
    ensures l.TransitionGrant(id, next, at).Ok? ==> Accounted(l.TransitionGrant(id, next, at).value, c)
  {
    match l.TransitionGrant(id, next, at)
    case Err(_) =>
    case Ok(m) =>
      forall g | g in c.issued ensures GrantAccounted(m, c, g) {
        assert GrantAccounted(l, c, g);
      }
  }

  lemma ImportKeepsAccounts(l: Ledger, c: Chronicle, id: GrantId, record: Grant, force: bool, at: Time)
    requires Accounted(l, c)
    ensures l.ImportGrant(id, record, force, at).Ok? ==> Accounted(l.ImportGrant(id, record, force, at).value, c)
  {
    match l.ImportGrant(id, record, force, at)
    case Err(_) =>
    case Ok(m) =>
      forall g | g in c.issued ensures GrantAccounted(m, c, g) {
        assert GrantAccounted(l, c, g);
      }
  }

  lemma BeginKeepsAccounts(l: Ledger, c: Chronicle, grantId: GrantId, id: DumpId, name: string, at: Time)
    requires Accounted(l, c)
    ensures match l.BeginUpload(grantId, id, name, at)
            case Ok(m) => Accounted(m, c.(begun := c.begun[grantId := c.BegunUnder(grantId) + [id]]))
            case Err(_) => true
  {
    match l.BeginUpload(grantId, id, name, at)
    case Err(_) =>
    case Ok(m) =>
      var d := c.(begun := c.begun[grantId := c.BegunUnder(grantId) + [id]]);
      forall g | g in d.issued ensures GrantAccounted(m, d, g) {
        assert GrantAccounted(l, c, g);
      }
  }

  lemma CommandKeepsAccounts(ports: Ports, s: Store, c: Chronicle, command: Command, at: Time)
    requires Accounted(s.ledger, c) && !command.BeginUpload? && !command.IssueGrant?
    ensures Accounted(s.Execute(ports, command, at).0.ledger, c)
  {
    hide Store.Execute, Accounted;
    if !ChangesGrants(command) {
      ExecuteLater(ports, s, command, at);
      OthersLeaveGrants(ports, s, command, at);
      AloneKeepsAccounts(s.ledger, s.Execute(ports, command, at).0.ledger, c);
    } else {
      OtherCommand(ports, s, command, at);
      TransactionKeepsAccounts(s.ledger, c, command, at);
    }
  }

  lemma TransactionKeepsAccounts(l: Ledger, c: Chronicle, command: Command, at: Time)
    requires Accounted(l, c) && ChangesGrants(command) && !command.BeginUpload? && !command.IssueGrant?
    ensures TransactionOf(l, command, at).Ok? ==> Accounted(TransactionOf(l, command, at).value, c)
  {
    hide Accounted, Ledger.CloseCase, Ledger.TransitionGrant, Ledger.ImportGrant;
    match command
    case CloseCase(id) => ClosingKeepsAccounts(l, c, id, at);
    case RevokeGrant(id) => TransitionKeepsAccounts(l, c, id, Revoked, at);
    case ExpireGrant(id) => TransitionKeepsAccounts(l, c, id, Expired, at);
    case ImportGrant(id, record, force) => ImportKeepsAccounts(l, c, id, record, force, at);
  }

  lemma StagingKeepsAccounts(ports: Ports, s: Store, c: Chronicle, id: DumpId, row: Dump, chunks: seq<seq<byte>>, at: Time)
    requires Accounted(s.ledger, c)
    ensures Accounted(StageDump(ports, s, id, row, chunks, at).0.ledger, c)
  {
    hide Store.Execute, Accounted, MismatchRecord, Concat;
    CommandKeepsAccounts(ports, s, c, ImportDump(id, MismatchRecord(row)), at);
    CommandKeepsAccounts(ports, s.(vault := s.vault.RemoveStaging(id)), c, ImportDump(id, MismatchRecord(row)), at);
    var closed := s.vault.(staging := s.vault.staging[id := StagingObject(chunks, at, false)]);
    CommandKeepsAccounts(ports, s.(vault := closed), c, ImportDump(id, row), at);
    CommandKeepsAccounts(ports, s, c, ImportDump(id, row), at);
  }

  lemma OpenKeepsAccounts(ports: Ports, w: World, c: Chronicle, act: Act)
    requires Accounted(w.store.ledger, c) && act.OpenUpload?
    ensures Accounted(act.Next(ports, w).store.ledger, c.Noting(ports, w, act))
  {
    var grant := w.store.OpenGrant(act.secretDigest, act.at);
    if grant.Ok? {
      BeginKeepsAccounts(w.store.ledger, c, grant.value, act.id, act.originalName, act.at);
    }
  }

  lemma RunKeepsAccounts(ports: Ports, w: World, c: Chronicle, act: Act)
    requires Accounted(w.store.ledger, c) && act.Run? && act.Enabled(w)
    ensures Accounted(act.Next(ports, w).store.ledger, c.Noting(ports, w, act))
  {
    hide Accounted, Store.Execute;
    if act.command.IssueGrant? {
      IssuingKeepsAccounts(ports, w.store, c, act.command, act.at);
    } else {
      CommandKeepsAccounts(ports, w.store, c, act.command, act.at);
    }
  }

  lemma IssuingKeepsAccounts(ports: Ports, s: Store, c: Chronicle, k: Command, at: Time)
    requires Accounted(s.ledger, c) && k.IssueGrant?
    ensures var (t, receipt) := s.Execute(ports, k, at);
            Accounted(t.ledger, if receipt == Done then c.(issued := c.issued + {k.grantId}) else c)
  {
    hide Accounted, Ledger.IssueGrant;
    if 1 <= k.maxUploads {
      IssueKeepsAccounts(s.ledger, c, k.grantId, k.caseId, k.secretDigest, k.expiresAt, k.maxBytes, k.maxUploads, at);
    }
  }

  lemma NextKeepsAccounts(ports: Ports, w: World, c: Chronicle, act: Act)
    requires Accounted(w.store.ledger, c) && act.Enabled(w)
    ensures Accounted(act.Next(ports, w).store.ledger, c.Noting(ports, w, act))
  {
    hide Accounted, Store.Execute, Store.BeginUpload, Store.SealUpload, Store.FailUpload, StageDump;
    match act
    case Run(_, _) => RunKeepsAccounts(ports, w, c, act);
    case OpenUpload(_, _, _, _) => OpenKeepsAccounts(ports, w, c, act);
    case StageImport(id, row, chunks, at) => StagingKeepsAccounts(ports, w.store, c, id, row, chunks, at);
    case SealSession(id, at) =>
      UploadCommands(ports, w.store, id, at);
      if id in w.sessions {
        CommandKeepsAccounts(ports, w.store, c, SealUpload(id, |w.sessions[id].received|, ports.hash(w.sessions[id].received)), at);
      }
    case AbortUpload(id, at) =>
      UploadCommands(ports, w.store, id, at);
      CommandKeepsAccounts(ports, w.store, c, FailUpload(id), at);
    case _ =>
  }

  lemma {:induction false} RunAccounts(ports: Ports, w: World, c: Chronicle, acts: seq<Act>, end: World, d: Chronicle)
    requires Accounted(w.store.ledger, c) && Observed(ports, w, c, acts, end, d)
    ensures Accounted(end.store.ledger, d)
    decreases |acts|
  {
    if acts != [] {
      NextKeepsAccounts(ports, w, c, acts[0]);
      RunAccounts(ports, acts[0].Next(ports, w), c.Noting(ports, w, acts[0]), acts[1..], end, d);
    }
  }

  /** In every run, imports and crashes included: a grant issued here has used exactly the slots of the dumps begun under
      it, never more than it has; it is consumed exactly when they are all used, by the first of them; its dumps stay in
      its case; and it is not open while that case is closed, however often the case was reopened and closed. */
  lemma GrantsAccounted(ports: Ports, origin: nat, acts: seq<Act>, end: World, seen: Chronicle, g: GrantId)
    requires Observed(ports, EmptyWorld(origin), Chronicle({}, map[]), acts, end, seen) && g in seen.issued
    ensures var l := end.store.ledger;
            && g in l.grants && l.grants[g].caseId in l.cases
            && l.grants[g].uploadsUsed == |seen.BegunUnder(g)| <= l.grants[g].maxUploads
            && (l.grants[g].state == Consumed <==> |seen.BegunUnder(g)| == l.grants[g].maxUploads)
            && (seen.BegunUnder(g) != [] ==> l.grants[g].consumedBy == Some(seen.BegunUnder(g)[0]))
            && BegunInCase(l, l.grants[g].caseId, seen.BegunUnder(g)) && Distinct(seen.BegunUnder(g))
            && (l.cases[l.grants[g].caseId].status == Closed ==> l.grants[g].state != Issued)
  {
    RunAccounts(ports, EmptyWorld(origin), Chronicle({}, map[]), acts, end, seen);
    assert GrantAccounted(end.store.ledger, seen, g);
  }
}
