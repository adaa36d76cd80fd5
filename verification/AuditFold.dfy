/** The audit log is a complete account: without imports, folding it alone rebuilds the status of every case,
    the state and slots of every grant, and the lifecycle of every dump. */
module AuditFold {
  import opened Domain
  import opened Vaults
  import opened Ledgers
  import opened Engines
  import opened Coupling
  import opened History
  import opened Runs

  datatype GrantPicture = GrantPicture(caseId: CaseId, state: GrantState, maxUploads: nat, uploadsUsed: nat, consumedBy: Option<DumpId>)

  datatype DumpPicture = DumpPicture(caseId: CaseId, phase: Phase, blob: BlobState, validation: Validation, downloadable: bool)

  datatype Picture = Picture(
    customers: set<CustomerId>, cases: map<CaseId, (CustomerId, CaseStatus)>,
    grants: map<GrantId, GrantPicture>, dumps: map<DumpId, DumpPicture>)

  function GrantFields(g: Grant): GrantPicture {
    GrantPicture(g.caseId, g.state, g.maxUploads, g.uploadsUsed, g.consumedBy)
  }

  function DumpFields(d: Dump): DumpPicture {
    DumpPicture(d.caseId, d.phase, d.blob, d.validation, d.downloadable)
  }

  /** What the tables say. */
  function PictureOf(l: Ledger): Picture {
    Picture(
      l.customers.Keys,
      map c | c in l.cases :: (l.cases[c].customerId, l.cases[c].status),
      map g | g in l.grants :: GrantFields(l.grants[g]),
      map d | d in l.dumps :: DumpFields(l.dumps[d]))
  }

  function CaseStatusAfter(action: Action): Option<CaseStatus> {
    match action
    case StartInvestigationA => Some(Investigating)
    case ResumeInvestigationA => Some(Investigating)
    case WaitForCustomerA => Some(WaitingForCustomer)
    case ResolveCaseA => Some(CaseStatus.Resolved)
    case CloseCaseA => Some(Closed)
    case _ => None
  }

  function DumpAfter(d: DumpPicture, action: Action): DumpPicture {
    match action
    case SealUploadA => d.(phase := Sealed)
    case FailUploadA => d.(phase := Rejected, blob := NoBlob, validation := TransferFailed, downloadable := false)
    case PromoteObjectA => d.(blob := InVault)
    case MarkQuarantinedA => d.(phase := Quarantined)
    case AcceptDumpA => d.(phase := Available, validation := Valid, downloadable := true)
    case RejectDumpA => d.(phase := Rejected, validation := Invalid, downloadable := false)
    case BeginPurgeA => d.(phase := Deleting, downloadable := false)
    case FinishPurgeA => d.(phase := Deleted, blob := NoBlob, downloadable := false)
    case _ => d
  }

  function SlotTaken(g: GrantPicture, dumpId: DumpId): GrantPicture {
    g.(uploadsUsed := g.uploadsUsed + 1,
       state := if g.uploadsUsed + 1 == g.maxUploads then Consumed else Issued,
       consumedBy := if g.uploadsUsed == 0 then Some(dumpId) else g.consumedBy)
  }

  /** One audit event replayed, knowing nothing but the event. */
  function Replay(p: Picture, e: AuditEvent): Picture {
    match e.action
    case CreateCustomerA => if e.customerId.Some? then p.(customers := p.customers + {e.customerId.value}) else p
    case CreateCaseA =>
      if e.caseId.Some? && e.customerId.Some? then p.(cases := p.cases[e.caseId.value := (e.customerId.value, New)]) else p
    case IssueGrantA =>
      if e.caseId.Some? && e.detail.IssueDetail?
      then p.(grants := p.grants[e.detail.grantId := GrantPicture(e.caseId.value, Issued, e.detail.maxUploads, 0, None)])
      else p
    case RevokeGrantA => GrantMoved(p, e.detail, Revoked)
    case ExpireGrantA => GrantMoved(p, e.detail, Expired)
    case BeginUploadA =>
      if e.caseId.Some? && e.dumpId.Some? && e.detail.GrantDetail? && e.detail.grantId in p.grants then
        p.(grants := p.grants[e.detail.grantId := SlotTaken(p.grants[e.detail.grantId], e.dumpId.value)],
           dumps := p.dumps[e.dumpId.value := DumpPicture(e.caseId.value, Receiving, InStaging, NotChecked, false)])
      else p
    case _ =>
      if e.dumpId.Some? && e.dumpId.value in p.dumps then
        p.(dumps := p.dumps[e.dumpId.value := DumpAfter(p.dumps[e.dumpId.value], e.action)])
      else if e.caseId.Some? && e.caseId.value in p.cases && CaseStatusAfter(e.action).Some? then
        CaseMoved(p, e.caseId.value, CaseStatusAfter(e.action).value, e.detail)
      else p
  }

  function GrantMoved(p: Picture, detail: Detail, state: GrantState): Picture {
    if detail.GrantDetail? && detail.grantId in p.grants
    then p.(grants := p.grants[detail.grantId := p.grants[detail.grantId].(state := state)])
    else p
  }

  function CaseMoved(p: Picture, id: CaseId, status: CaseStatus, detail: Detail): Picture
    requires id in p.cases
  {
    var revoked := if detail.CloseDetail? then detail.revokedGrantIds else [];
    p.(cases := p.cases[id := (p.cases[id].0, status)],
       grants := map g | g in p.grants :: if g in revoked then p.grants[g].(state := Revoked) else p.grants[g])
  }

  function Fold(audit: seq<AuditEvent>): Picture {
    if audit == [] then Picture({}, map[], map[], map[])
    else Replay(Fold(audit[..|audit| - 1]), audit[|audit| - 1])
  }

  /** The log explains the tables. */
  ghost predicate Explained(l: Ledger) {
    Fold(l.audit) == PictureOf(l) && SlotsSound(l)
  }

  /** An issued grant has a free slot, and an unused grant no consumer. */
  ghost predicate SlotsSound(l: Ledger) {
    forall g :: g in l.grants ==> SlotSound(l.grants[g])
  }

  predicate SlotSound(g: Grant) {
    && (g.state == Issued ==> g.uploadsUsed < g.maxUploads)
    && (g.uploadsUsed == 0 <==> g.consumedBy.None?)
  }

  /** One more event, and the tables moved as it says. */
  lemma Explains(l: Ledger, m: Ledger, e: AuditEvent)
    requires Explained(l) && m.audit == l.audit + [e]
    requires PictureOf(m) == Replay(PictureOf(l), e) && SlotsSound(m)
    ensures Explained(m)
  {
    assert m.audit[..|m.audit| - 1] == l.audit;
  }

  lemma EdgeReplayed(d: Dump, edge: DumpEdge, at: Time)
    ensures DumpFields(edge.Apply(d, at)) == DumpAfter(DumpFields(d), edge.Action())
  {}

  lemma DumpEventReplayed(p: Picture, e: AuditEvent, edge: DumpEdge, id: DumpId)
    requires e.action == edge.Action() && e.dumpId == Some(id) && id in p.dumps
    ensures Replay(p, e) == p.(dumps := p.dumps[id := DumpAfter(p.dumps[id], e.action)])
  {}

  lemma EdgeExplained(l: Ledger, id: DumpId, edge: DumpEdge, at: Time)
    requires Explained(l)
    ensures l.TransitionDump(id, edge, at).Ok? ==> Explained(l.TransitionDump(id, edge, at).value)
  {
    hide Fold, Replay, DumpAfter, DumpEdge.Apply, DumpEdge.Action, DumpEdge.Permits, DumpFields;
    match l.TransitionDump(id, edge, at)
    case Err(_) =>
    case Ok(m) =>
      var e := m.audit[|l.audit|];
      EdgeReplayed(l.dumps[id], edge, at);
      DumpEventReplayed(PictureOf(l), e, edge, id);
      assert PictureOf(m).dumps == PictureOf(l).dumps[id := DumpFields(m.dumps[id])];
      Explains(l, m, e);
  }

  lemma RetentionExplained(l: Ledger, id: DumpId, purgeAt: Time, at: Time)
    requires Explained(l)
    ensures l.SetRetention(id, purgeAt, at).Ok? ==> Explained(l.SetRetention(id, purgeAt, at).value)
    ensures l.AuthorizeDownload(id, at).Ok? ==> Explained(l.AuthorizeDownload(id, at).value)
  {
    hide Fold, Replay, Explained;
    match l.SetRetention(id, purgeAt, at) {
      case Err(_) =>
      case Ok(m) => NothingShown(l, m, m.audit[|l.audit|], id);
    }
    match l.AuthorizeDownload(id, at) {
      case Err(_) =>
      case Ok(m) => NothingShown(l, m, m.audit[|l.audit|], id);
    }
  }

  /** An event about a dump of which the picture shows nothing new. */
  lemma NothingShown(l: Ledger, m: Ledger, e: AuditEvent, id: DumpId)
    requires Explained(l) && m.audit == l.audit + [e] && m.customers == l.customers && m.cases == l.cases && m.grants == l.grants
    requires id in l.dumps && e.dumpId == Some(id) && (e.action == SetRetentionA || e.action == AuthorizeDownloadA)
    requires m.dumps.Keys == l.dumps.Keys && forall d :: d in l.dumps ==> DumpFields(m.dumps[d]) == DumpFields(l.dumps[d])
    ensures Explained(m)
  {
    hide Fold;
    assert PictureOf(m).dumps == PictureOf(l).dumps;
    assert PictureOf(l).dumps[id := PictureOf(l).dumps[id]] == PictureOf(l).dumps;
    Explains(l, m, e);
  }

  lemma BeginExplained(l: Ledger, grantId: GrantId, id: DumpId, name: string, at: Time)
    requires Explained(l)
    ensures l.BeginUpload(grantId, id, name, at).Ok? ==> Explained(l.BeginUpload(grantId, id, name, at).value)
  {
    hide Fold, Replay, SlotTaken, GrantFields, DumpFields;
    match l.BeginUpload(grantId, id, name, at)
    case Err(_) =>
    case Ok(m) =>
      var e := m.audit[|l.audit|];
      SlotTakenSound(l, m, grantId, id);
      assert PictureOf(m).dumps == PictureOf(l).dumps[id := DumpFields(m.dumps[id])];
      assert PictureOf(m).grants == PictureOf(l).grants[grantId := GrantFields(m.grants[grantId])];
      BeginReplayed(PictureOf(l), e, grantId, id, m.dumps[id]);
      Explains(l, m, e);
  }

  /** Taking a slot, as a row and as a picture. */
  lemma SlotTakenSound(l: Ledger, m: Ledger, grantId: GrantId, id: DumpId)
    requires SlotsSound(l) && grantId in l.grants && l.grants[grantId].state == Issued && l.grants[grantId].uploadsUsed < l.grants[grantId].maxUploads
    requires var g := l.grants[grantId];
             m.grants == l.grants[grantId := g.(uploadsUsed := g.uploadsUsed + 1,
                                                state := if g.uploadsUsed + 1 >= g.maxUploads then Consumed else Issued,
                                                consumedBy := if g.consumedBy.Some? then g.consumedBy else Some(id))]
    ensures SlotsSound(m) && GrantFields(m.grants[grantId]) == SlotTaken(GrantFields(l.grants[grantId]), id)
  {
    assert SlotSound(l.grants[grantId]);
  }

  lemma BeginReplayed(p: Picture, e: AuditEvent, grantId: GrantId, id: DumpId, d: Dump)
    requires e.action == BeginUploadA && e.detail == GrantDetail(grantId) && grantId in p.grants && e.dumpId == Some(id) && e.caseId == Some(d.caseId)
    requires d.phase == Receiving && d.blob == InStaging && d.validation == NotChecked && !d.downloadable
    ensures Replay(p, e) == p.(grants := p.grants[grantId := SlotTaken(p.grants[grantId], id)], dumps := p.dumps[id := DumpFields(d)])
  {}

  lemma GrantExplained(l: Ledger, id: GrantId, next: GrantState, at: Time)
    requires Explained(l) && (next == Revoked || next == Expired)
    ensures l.TransitionGrant(id, next, at).Ok? ==> Explained(l.TransitionGrant(id, next, at).value)
  {
    hide Fold;
    match l.TransitionGrant(id, next, at)
    case Err(_) =>
    case Ok(m) =>
      assert SlotSound(l.grants[id]);
      assert PictureOf(m).grants == PictureOf(l).grants[id := GrantFields(m.grants[id])];
      Explains(l, m, m.audit[|l.audit|]);
  }

  lemma IssueExplained(l: Ledger, id: GrantId, caseId: CaseId, digest: Digest, expiresAt: Time, maxBytes: nat, maxUploads: nat, at: Time)
    requires Explained(l) && 1 <= maxUploads
    ensures match l.IssueGrant(id, caseId, digest, expiresAt, maxBytes, maxUploads, at)
            case Ok(m) => Explained(m)
            case Err(_) => true
  {
    hide Fold;
    match l.IssueGrant(id, caseId, digest, expiresAt, maxBytes, maxUploads, at)
    case Err(_) =>
    case Ok(m) =>
      assert PictureOf(m).grants == PictureOf(l).grants[id := GrantFields(m.grants[id])];
      Explains(l, m, m.audit[|l.audit|]);
  }

  lemma CaseExplained(l: Ledger, id: CaseId, edge: CaseEdge, at: Time)
    requires Explained(l)
    ensures l.TransitionCase(id, edge, at).Ok? ==> Explained(l.TransitionCase(id, edge, at).value)
  {
    hide Fold, Replay;
    match l.TransitionCase(id, edge, at)
    case Err(_) =>
    case Ok(m) =>
      var e, p := m.audit[|l.audit|], PictureOf(l);
      CaseEdgeReplayed(p, e, edge, id);
      assert PictureOf(m).cases == p.cases[id := (p.cases[id].0, m.cases[id].status)];
      assert PictureOf(m).grants == p.grants;
      Explains(l, m, e);
  }

  lemma CaseEdgeReplayed(p: Picture, e: AuditEvent, edge: CaseEdge, id: CaseId)
    requires e.action == edge.Action() && e.dumpId.None? && e.caseId == Some(id) && e.detail == NoDetail && id in p.cases
    ensures Replay(p, e) == p.(cases := p.cases[id := (p.cases[id].0, edge.Target())])
  {
    assert (map g | g in p.grants :: p.grants[g]) == p.grants;
  }

  lemma CloseReplayed(p: Picture, e: AuditEvent, id: CaseId)
    requires e.action == CloseCaseA && e.dumpId.None? && e.caseId == Some(id) && id in p.cases
    ensures Replay(p, e) == CaseMoved(p, id, Closed, e.detail)
  {}

  lemma CloseExplained(l: Ledger, id: CaseId, at: Time)
    requires Explained(l)
    ensures l.CloseCase(id, at).Ok? ==> Explained(l.CloseCase(id, at).value)
  {
    hide Fold, Replay, CaseMoved, GrantFields, SlotsSound;
    match l.CloseCase(id, at)
    case Err(_) =>
    case Ok(m) =>
      var e := m.audit[|l.audit|];
      CloseReplayed(PictureOf(l), e, id);
      ClosedPicture(l, m, e, id);
      RevokedSound(l, m, l.IssuedFor(id));
      Explains(l, m, e);
  }

  lemma ClosedPicture(l: Ledger, m: Ledger, e: AuditEvent, id: CaseId)
    requires id in l.cases && m.customers == l.customers && m.dumps == l.dumps && m.cases == l.cases[id := l.cases[id].(status := Closed)]
    requires m.grants == RevokeAll(l.grants, l.IssuedFor(id)) && e.detail == CloseDetail(SortedIds(l.IssuedFor(id)))
    ensures PictureOf(m) == CaseMoved(PictureOf(l), id, Closed, e.detail)
  {
    hide SortedIds;
    var p, q := PictureOf(l), PictureOf(m);
    assert q.cases == p.cases[id := (p.cases[id].0, Closed)];
    assert forall g :: g in e.detail.revokedGrantIds <==> g in l.IssuedFor(id);
    assert q.grants == CaseMoved(p, id, Closed, e.detail).grants;
  }

  lemma RevokedSound(l: Ledger, m: Ledger, revoked: set<GrantId>)
    requires SlotsSound(l) && m.grants == RevokeAll(l.grants, revoked)
    ensures SlotsSound(m)
  {
    forall g | g in m.grants ensures SlotSound(m.grants[g]) {
      assert SlotSound(l.grants[g]);
    }
  }

  lemma CreationsExplained(l: Ledger, customerId: CustomerId, caseId: CaseId, text: string, at: Time)
    requires Explained(l)
    ensures l.CreateCustomer(customerId, text, at).Ok? ==> Explained(l.CreateCustomer(customerId, text, at).value)
    ensures l.CreateCase(caseId, customerId, text, at).Ok? ==> Explained(l.CreateCase(caseId, customerId, text, at).value)
  {
    hide Fold;
    match l.CreateCustomer(customerId, text, at) {
      case Err(_) =>
      case Ok(m) => Explains(l, m, m.audit[|l.audit|]);
    }
    match l.CreateCase(caseId, customerId, text, at) {
      case Err(_) =>
      case Ok(m) =>
        assert PictureOf(m).cases == PictureOf(l).cases[caseId := (customerId, New)];
        Explains(l, m, m.audit[|l.audit|]);
    }
  }

  predicate RunsEdge(command: Command) {
    TouchesDumps(command) && !command.SetRetention? && !command.ImportDump? && !command.BeginUpload?
  }

  lemma EdgeCommandExplained(ports: Ports, s: Store, command: Command, at: Time)
    requires Explained(s.ledger) && RunsEdge(command)
    ensures Explained(s.Execute(ports, command, at).0.ledger)
  {
    hide Explained;
    EdgeCommand(ports, s, command, at);
    if EdgeOf(ports, s, command).Some? {
      EdgeExplained(s.ledger, command.dumpId, EdgeOf(ports, s, command).value, at);
    }
  }

  lemma CommandExplained(ports: Ports, s: Store, command: Command, at: Time)
    requires Explained(s.ledger) && !command.IsImport()
    ensures Explained(s.Execute(ports, command, at).0.ledger)
  {
    hide Explained;
    if RunsEdge(command) {
      EdgeCommandExplained(ports, s, command, at);
    } else {
      match command
      case CreateCustomer(id, name) => CreationsExplained(s.ledger, id, 0, name, at);
      case CreateCase(id, customerId, title) => CreationsExplained(s.ledger, customerId, id, title, at);
      case MoveCase(id, edge) => CaseExplained(s.ledger, id, edge, at);
      case CloseCase(id) => CloseExplained(s.ledger, id, at);
      case IssueGrant(id, caseId, digest, expiresAt, maxBytes, maxUploads) =>
        if 1 <= maxUploads {
          IssueExplained(s.ledger, id, caseId, digest, expiresAt, maxBytes, maxUploads, at);
        }
      case RevokeGrant(id) => GrantExplained(s.ledger, id, Revoked, at);
      case ExpireGrant(id) => GrantExplained(s.ledger, id, Expired, at);
      case BeginUpload(id, digest, name) =>
        if s.OpenGrant(digest, at).Ok? {
          BeginExplained(s.ledger, s.OpenGrant(digest, at).value, id, name, at);
        }
      case SetRetention(id, purgeAt) => RetentionExplained(s.ledger, id, purgeAt, at);
      case AuthorizeDownload(id) => RetentionExplained(s.ledger, id, 0, at);
      case _ =>
    }
  }

  ghost predicate Native(act: Act) {
    !act.StageImport? && (act.Run? ==> !act.command.IsImport())
  }

  lemma NextExplained(ports: Ports, w: World, act: Act)
    requires Explained(w.store.ledger) && Native(act)
    ensures Explained(act.Next(ports, w).store.ledger)
  {
    hide Explained, Store.Execute, Store.BeginUpload, Store.SealUpload, Store.FailUpload;
    match act
    case Run(command, at) => CommandExplained(ports, w.store, command, at);
    case OpenUpload(id, digest, name, at) =>
      UploadCommands(ports, w.store, id, at);
      CommandExplained(ports, w.store, BeginUpload(id, digest, name), at);
    case SealSession(id, at) =>
      UploadCommands(ports, w.store, id, at);
      if id in w.sessions {
        CommandExplained(ports, w.store, SealUpload(id, |w.sessions[id].received|, ports.hash(w.sessions[id].received)), at);
      }
    case AbortUpload(id, at) =>
      UploadCommands(ports, w.store, id, at);
      CommandExplained(ports, w.store, FailUpload(id), at);
    case _ =>
  }

  lemma {:induction false} RunExplained(ports: Ports, w: World, acts: seq<Act>, end: World)
    requires Explained(w.store.ledger) && Reaches(ports, w, acts, end)
    requires forall k :: 0 <= k < |acts| ==> Native(acts[k])
    ensures Explained(end.store.ledger)
    decreases |acts|
  {
    if acts != [] {
      NextExplained(ports, w, acts[0]);
      RunExplained(ports, acts[0].Next(ports, w), acts[1..], end);
    }
  }

  /** In every run without imports, crashes included, the audit log alone rebuilds the tables' lifecycle columns. */
  lemma AuditRebuildsTables(ports: Ports, origin: nat, acts: seq<Act>, end: World)
    requires Reaches(ports, EmptyWorld(origin), acts, end)
    requires forall k :: 0 <= k < |acts| ==> Native(acts[k])
    ensures Fold(end.store.ledger.audit) == PictureOf(end.store.ledger)
  {
    assert PictureOf(EmptyLedger(origin)) == Picture({}, map[], map[], map[]);
    RunExplained(ports, EmptyWorld(origin), acts, end);
  }
}
