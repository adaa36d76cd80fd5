/** Safety of every run: the invariant of every reachable world, the immutability of sealed bytes, upload limits. */
module Safety {
  import opened Domain
  import opened Vaults
  import opened Ledgers
  import opened Engines
  import opened Coupling
  import opened History
  import opened Runs

  /** A dump command touches the row and the bytes of its own dump only. */
  lemma ExecuteElsewhere(ports: Ports, s: Store, command: Command, at: Time)
    requires TouchesDumps(command)
    ensures SameElsewhere(s, s.Execute(ports, command, at).0, command.dumpId)
  {
    if command.SetRetention? || command.ImportDump? {
      PlainElsewhere(ports, s, command, at);
    } else if command.BeginUpload? {
      BeginElsewhere(ports, s, command, at);
    } else {
      EdgeCommand(ports, s, command, at);
      EdgeVault(ports, s, command, at);
    }
  }

  lemma PlainElsewhere(ports: Ports, s: Store, command: Command, at: Time)
    requires command.SetRetention? || command.ImportDump?
    ensures SameElsewhere(s, s.Execute(ports, command, at).0, command.dumpId)
  {
    hide Ledger.CreateCustomer, Ledger.CreateCase, Ledger.TransitionCase, Ledger.CloseCase, Ledger.IssueGrant, Ledger.TransitionGrant,
         Ledger.AuthorizeDownload, Ledger.BeginImport, Ledger.ImportCustomer, Ledger.ImportCase, Ledger.ImportGrant,
         Ledger.ImportAuditEvent, Ledger.FinishImport;
  }

  lemma BeginElsewhere(ports: Ports, s: Store, command: Command, at: Time)
    requires command.BeginUpload?
    ensures SameElsewhere(s, s.Execute(ports, command, at).0, command.dumpId)
  {}

  lemma EdgeVault(ports: Ports, s: Store, command: Command, at: Time)
    requires TouchesDumps(command) && !command.SetRetention? && !command.ImportDump? && !command.BeginUpload?
    ensures SameElsewhere(s, s.(vault := s.Execute(ports, command, at).0.vault), command.dumpId)
    ensures var t := s.Execute(ports, command, at).0.vault;
            command.dumpId in t.staging ==> command.dumpId in s.vault.staging && t.staging[command.dumpId] == s.vault.staging[command.dumpId]
    ensures command.FailUpload? && s.Execute(ports, command, at).0 != s ==>
              command.dumpId !in s.Execute(ports, command, at).0.vault.staging
  {
    hide Ledger.CreateCustomer, Ledger.CreateCase, Ledger.TransitionCase, Ledger.CloseCase, Ledger.IssueGrant, Ledger.TransitionGrant,
         Ledger.AuthorizeDownload, Ledger.BeginImport, Ledger.ImportCustomer, Ledger.ImportCase, Ledger.ImportGrant,
         Ledger.ImportAuditEvent, Ledger.FinishImport, Ledger.TransitionDump, Ledger.ImportDump, Ledger.SetRetention;
  }

  /** Sessions and limits survive a step that touches one dump, if they hold for that dump afterwards. */
  lemma ElsewhereKeepsSessions(w: World, t: World, id: DumpId)
    requires Later(w.store.ledger, t.store.ledger) && SameElsewhere(w.store, t.store, id)
    requires forall x :: x != id ==> (x in t.sessions <==> x in w.sessions) && (x in t.uploadedUnder <==> x in w.uploadedUnder)
    requires forall x :: x != id && x in w.sessions ==> t.sessions[x] == w.sessions[x]
    requires forall x :: x != id && x in w.uploadedUnder ==> t.uploadedUnder[x] == w.uploadedUnder[x]
    requires forall x :: SessionOwns(w, x) && WithinGrant(w, x)
    requires SessionOwns(t, id) && WithinGrant(t, id)
    ensures forall x :: SessionOwns(t, x) && WithinGrant(t, x)
  {
    forall x ensures SessionOwns(t, x) && WithinGrant(t, x) {
      assert SessionOwns(w, x) && WithinGrant(w, x);
    }
  }

  lemma EdgeQuiet(ports: Ports, w: World, command: Command, at: Time)
    requires Inv(ports, w)
    requires TouchesDumps(command) && !command.BeginUpload? && !command.SealUpload? && !command.ImportDump? && !command.SetRetention?
    ensures SessionOwns(w.(store := w.store.Execute(ports, command, at).0), command.dumpId)
    ensures WithinGrant(w.(store := w.store.Execute(ports, command, at).0), command.dumpId)
  {
    EdgeKeepsSession(ports, w, command, at);
    EdgeKeepsGrant(ports, w, command, at);
  }

  lemma EdgeKeepsSession(ports: Ports, w: World, command: Command, at: Time)
    requires TouchesDumps(command) && !command.BeginUpload? && !command.SealUpload? && !command.ImportDump? && !command.SetRetention?
    requires SessionOwns(w, command.dumpId)
    ensures SessionOwns(w.(store := w.store.Execute(ports, command, at).0), command.dumpId)
  {
    hide Store.Execute, DumpEdge.Apply, Store.Inspected, DumpLater;
    ExecuteLater(ports, w.store, command, at);
    EdgeCommand(ports, w.store, command, at);
    EdgeVault(ports, w.store, command, at);
    EdgeLeavesReceiving(ports, w.store, command, at);
  }

  /** Of these edges only the failing one starts from a receiving row. */
  lemma EdgeLeavesReceiving(ports: Ports, s: Store, command: Command, at: Time)
    requires TouchesDumps(command) && !command.BeginUpload? && !command.SealUpload? && !command.ImportDump? && !command.SetRetention?
    ensures var t := s.Execute(ports, command, at).0;
            command.dumpId in s.ledger.dumps && s.ledger.dumps[command.dumpId].phase == Receiving && !command.FailUpload? ==>
              t.ledger == s.ledger
  {
    hide Store.Execute, DumpEdge.Apply, Store.Inspected;
    EdgeCommand(ports, s, command, at);
  }

  lemma EdgeKeepsGrant(ports: Ports, w: World, command: Command, at: Time)
    requires TouchesDumps(command) && !command.BeginUpload? && !command.SealUpload? && !command.ImportDump? && !command.SetRetention?
    requires WithinGrant(w, command.dumpId)
    ensures WithinGrant(w.(store := w.store.Execute(ports, command, at).0), command.dumpId)
  {
    hide Store.Execute, Store.Inspected, DumpEdge.Apply, DumpEdge.Permits, DumpLater;
    ExecuteLater(ports, w.store, command, at);
    EdgeCommand(ports, w.store, command, at);
    if EdgeOf(ports, w.store, command).Some? && command.dumpId in w.store.ledger.dumps {
      EdgeKeepsBytes(w.store.ledger.dumps[command.dumpId], EdgeOf(ports, w.store, command).value, at);
    }
  }

  lemma EdgeKeepsBytes(d: Dump, edge: DumpEdge, at: Time)
    requires !edge.SealEdge?
    ensures edge.Apply(d, at).caseId == d.caseId && edge.Apply(d, at).byteSize == d.byteSize
  {}

  lemma RetentionQuiet(ports: Ports, w: World, command: Command, at: Time)
    requires Inv(ports, w) && command.SetRetention?
    ensures SessionOwns(w.(store := w.store.Execute(ports, command, at).0), command.dumpId)
    ensures WithinGrant(w.(store := w.store.Execute(ports, command, at).0), command.dumpId)
  {
    assert SessionOwns(w, command.dumpId) && WithinGrant(w, command.dumpId);
  }

  lemma CommandKeepsInv(ports: Ports, w: World, command: Command, at: Time)
    requires Inv(ports, w) && !command.BeginUpload? && !command.SealUpload? && !command.ImportDump?
    ensures Inv(ports, w.(store := w.store.Execute(ports, command, at).0))
  {
    var t := w.(store := w.store.Execute(ports, command, at).0);
    ExecuteKeepsCoupled(ports, w.store, command, at);
    ExecuteLater(ports, w.store, command, at);
    if TouchesDumps(command) {
      ExecuteElsewhere(ports, w.store, command, at);
      if command.SetRetention? {
        RetentionQuiet(ports, w, command, at);
      } else {
        EdgeQuiet(ports, w, command, at);
      }
      ElsewhereKeepsSessions(w, t, command.dumpId);
    } else {
      OtherLeavesDumps(ports, w.store, command, at);
      forall x ensures SessionOwns(t, x) && WithinGrant(t, x) {
        assert SessionOwns(w, x) && WithinGrant(w, x);
      }
    }
  }

  lemma RestartKeepsInv(ports: Ports, w: World)
    requires Coupled(ports, w.store) && forall id :: WithinGrant(w, id)
    ensures Inv(ports, Restart(w))
  {
    var t := Restart(w);
    forall id | id in t.store.ledger.dumps ensures RowCoupled(ports, t.store.ledger.dumps[id], t.store.vault, id) {
      assert RowCoupled(ports, w.store.ledger.dumps[id], w.store.vault, id);
      if id in w.store.vault.staging {
        assert t.store.vault.staging[id].Bytes() == w.store.vault.staging[id].Bytes();
      }
    }
    forall id ensures SessionOwns(t, id) && WithinGrant(t, id) {
      assert WithinGrant(w, id);
    }
  }

  lemma CoupledParts(ports: Ports, s: Store)
    requires Coupled(ports, s)
    ensures References(s.ledger) && s.vault.objects.Keys <= s.ledger.dumps.Keys
    ensures forall id :: id in s.ledger.dumps ==> RowCoupled(ports, s.ledger.dumps[id], s.vault, id)
  {}

  /** One vault call leaves the row coupled as its phase allows. */
  lemma VaultCallKeepsRow(ports: Ports, d: Dump, v: Vault, id: DumpId)
    requires RowCoupled(ports, d, v, id)
    ensures d.phase == Receiving ==> RowCoupled(ports, d, v.RemoveStaging(id), id)
    ensures d.phase == Sealed && v.Promote(id).Ok? ==> RowCoupled(ports, d, v.Promote(id).value, id)
    ensures d.phase == Deleting ==> RowCoupled(ports, d, v.RemoveStaging(id), id) && RowCoupled(ports, d, v.Remove(id), id)
  {}

  /** Between a command's vault call and its transaction the stores are still coupled. */
  lemma HalfDoneKeepsCoupled(ports: Ports, s: Store, command: Command, at: Time, v: Vault)
    requires Coupled(ports, s) && v in s.HalfDone(command, at)
    requires command.BeginUpload? ==> Unused(s, command.dumpId)
    ensures Coupled(ports, s.(vault := v))
  {
    hide Coupled, References, RowCoupled;
    CoupledParts(ports, s);
    if command.BeginUpload? {
      OneRow(ports, s, s.(vault := v), command.dumpId);
    } else if v != s.vault {
      assert command.FailUpload? || command.PromoteObject? || command.FinishPurge?;
      VaultCallKeepsRow(ports, s.ledger.dumps[command.dumpId], s.vault, command.dumpId);
      OneRow(ports, s, s.(vault := v), command.dumpId);
    }
  }

  lemma CrashInKeepsInv(ports: Ports, w: World, command: Command, at: Time, v: Vault)
    requires Inv(ports, w) && CrashIn(command, at, v).Enabled(w)
    ensures Inv(ports, CrashIn(command, at, v).Next(ports, w))
  {
    HalfDoneKeepsCoupled(ports, w.store, command, at, v);
    var half := w.(store := w.store.(vault := v));
    forall id ensures WithinGrant(half, id) {
      assert WithinGrant(w, id);
    }
    RestartKeepsInv(ports, half);
  }

  lemma OpenKeepsInv(ports: Ports, w: World, id: DumpId, digest: Digest, name: string, at: Time)
    requires Inv(ports, w) && Unused(w.store, id)
    ensures Inv(ports, OpenSession(w, id, digest, name, at))
  {
    hide Store.Execute, Store.BeginUpload, Coupled, DumpLater;
    var command := BeginUpload(id, digest, name);
    UploadCommands(ports, w.store, id, at);
    ExecuteKeepsCoupled(ports, w.store, command, at);
    ExecuteLater(ports, w.store, command, at);
    ExecuteElsewhere(ports, w.store, command, at);
    var t := OpenSession(w, id, digest, name, at);
    assert SessionOwns(w, id) && WithinGrant(w, id);
    assert t.store == w.store.Execute(ports, command, at).0;
    OpenedOwns(w, id, digest, name, at);
    ElsewhereKeepsSessions(w, t, id);
  }

  lemma OpenedOwns(w: World, id: DumpId, digest: Digest, name: string, at: Time)
    requires Unused(w.store, id) && SessionOwns(w, id) && WithinGrant(w, id)
    ensures SessionOwns(OpenSession(w, id, digest, name, at), id)
    ensures WithinGrant(OpenSession(w, id, digest, name, at), id)
  {}

  /** A step of one session changes nothing but that session and its staging bytes. */
  lemma SessionStepKeepsCoupled(ports: Ports, w: World, v: Vault, id: DumpId)
    requires Coupled(ports, w.store) && SameElsewhere(w.store, w.store.(vault := v), id)
    requires v.objects == w.store.vault.objects && v.staging.Keys == w.store.vault.staging.Keys
    requires id in w.store.ledger.dumps && w.store.ledger.dumps[id].phase == Receiving
    ensures Coupled(ports, w.store.(vault := v))
  {
    assert RowCoupled(ports, w.store.ledger.dumps[id], w.store.vault, id);
    OneRow(ports, w.store, w.store.(vault := v), id);
  }

  lemma SessionChange(ports: Ports, w: World, t: World, id: DumpId)
    requires Inv(ports, w) && Coupled(ports, t.store) && t.store.ledger == w.store.ledger
    requires t.uploadedUnder == w.uploadedUnder && SameElsewhere(w.store, t.store, id)
    requires forall x :: x != id ==> (x in t.sessions <==> x in w.sessions)
    requires forall x :: x != id && x in w.sessions ==> t.sessions[x] == w.sessions[x]
    requires SessionOwns(t, id)
    ensures Inv(ports, t)
  {
    assert WithinGrant(w, id);
    ElsewhereKeepsSessions(w, t, id);
  }

  lemma ChunkKeepsInv(ports: Ports, w: World, id: DumpId, bytes: seq<byte>)
    requires Inv(ports, w) && id in w.sessions
    ensures Inv(ports, ReceiveChunk(w, id, bytes))
  {
    var t := ReceiveChunk(w, id, bytes);
    assert SessionOwns(w, id);
    if t.store != w.store {
      ConcatSnoc(w.store.vault.staging[id].chunks, bytes);
      SessionStepKeepsCoupled(ports, w, t.store.vault, id);
    }
    SessionChange(ports, w, t, id);
  }

  lemma TearKeepsInv(ports: Ports, w: World, id: DumpId, written: seq<byte>)
    requires Inv(ports, w) && id in w.sessions
    ensures Inv(ports, Tear(w, id, written))
  {
    var t := Tear(w, id, written);
    assert SessionOwns(w, id);
    if t.store != w.store {
      SessionStepKeepsCoupled(ports, w, t.store.vault, id);
    }
    SessionChange(ports, w, t, id);
  }

  lemma CloseKeepsInv(ports: Ports, w: World, id: DumpId)
    requires Inv(ports, w) && id in w.sessions
    ensures Inv(ports, CloseStaging(w, id))
  {
    var t := CloseStaging(w, id);
    assert SessionOwns(w, id);
    if t.store != w.store {
      SessionStepKeepsCoupled(ports, w, t.store.vault, id);
    }
    SessionChange(ports, w, t, id);
  }

  lemma SealedOwns(ports: Ports, w: World, id: DumpId, at: Time)
    requires id in w.sessions && SessionOwns(w, id) && WithinGrant(w, id)
    ensures SessionOwns(Seal(ports, w, id, at), id)
    ensures WithinGrant(Seal(ports, w, id, at), id)
  {
    var command := SealUpload(id, |w.sessions[id].received|, ports.hash(w.sessions[id].received));
    ExecuteLater(ports, w.store, command, at);
    EdgeCommand(ports, w.store, command, at);
    EdgeVault(ports, w.store, command, at);
  }

  lemma SealKeepsInv(ports: Ports, w: World, id: DumpId, at: Time)
    requires Inv(ports, w) && id in w.sessions
    ensures Inv(ports, Seal(ports, w, id, at))
  {
    hide Store.Execute, Store.SealUpload, Coupled, Later;
    var s := w.sessions[id];
    assert SessionOwns(w, id) && WithinGrant(w, id);
    if !s.broken && s.closed {
      UploadCommands(ports, w.store, id, at);
      var command := SealUpload(id, |s.received|, ports.hash(s.received));
      assert Owed(ports, w.store, command);
      ExecuteKeepsCoupled(ports, w.store, command, at);
      ExecuteLater(ports, w.store, command, at);
      ExecuteElsewhere(ports, w.store, command, at);
      SealedOwns(ports, w, id, at);
      assert Seal(ports, w, id, at).store == w.store.Execute(ports, command, at).0;
      ElsewhereKeepsSessions(w, Seal(ports, w, id, at), id);
    }
  }

  lemma AbortKeepsInv(ports: Ports, w: World, id: DumpId, at: Time)
    requires Inv(ports, w) && id in w.sessions
    ensures Inv(ports, AbortUpload(id, at).Next(ports, w))
  {
    CommandKeepsInv(ports, w, FailUpload(id), at);
    var t := w.(store := w.store.Execute(ports, FailUpload(id), at).0);
    forall x ensures SessionOwns(t.(sessions := w.sessions - {id}), x) && WithinGrant(t.(sessions := w.sessions - {id}), x) {
      assert SessionOwns(t, x) && WithinGrant(t, x);
    }
  }

  lemma ImportExecuteKeepsInv(ports: Ports, w: World, s: Store, id: DumpId, record: Dump, at: Time)
    requires Inv(ports, w) && Unused(w.store, id)
    requires s.ledger == w.store.ledger && SameElsewhere(w.store, s, id) && s.vault.objects == w.store.vault.objects
    requires Owed(ports, s, ImportDump(id, record))
    ensures Inv(ports, w.(store := s.Execute(ports, ImportDump(id, record), at).0))
  {
    hide Store.Execute, Coupled, References, RowCoupled, DumpLater;
    var command := ImportDump(id, record);
    CoupledParts(ports, w.store);
    OneRow(ports, w.store, s, id);
    ExecuteKeepsCoupled(ports, s, command, at);
    ExecuteLater(ports, s, command, at);
    ExecuteElsewhere(ports, s, command, at);
    assert SessionOwns(w, id) && WithinGrant(w, id);
    ElsewhereKeepsSessions(w, w.(store := s.Execute(ports, command, at).0), id);
  }

  lemma StageKeepsInv(ports: Ports, w: World, id: DumpId, row: Dump, chunks: seq<seq<byte>>, at: Time)
    requires Inv(ports, w) && Unused(w.store, id)
    ensures Inv(ports, StageImport(id, row, chunks, at).Next(ports, w))
  {
    var v, bytes := w.store.vault, Concat(chunks);
    if row.phase == Available {
      if row.byteSize.Some? && row.sha256.Some? {
        if |bytes| != row.byteSize.value {
          ImportExecuteKeepsInv(ports, w, w.store, id, MismatchRecord(row), at);
        } else if ports.hash(bytes) != row.sha256.value {
          assert v.RemoveStaging(id) == v;
          ImportExecuteKeepsInv(ports, w, w.store, id, MismatchRecord(row), at);
        } else {
          var closed := v.(staging := v.staging[id := StagingObject(chunks, at, false)]);
          ImportExecuteKeepsInv(ports, w, w.store.(vault := closed), id, row, at);
        }
      }
    } else if row.phase == Rejected || row.phase == Deleted {
      ImportExecuteKeepsInv(ports, w, w.store, id, row, at);
    }
  }

  lemma VaultChangeKeepsCoupled(ports: Ports, w: World, v: Vault, id: DumpId)
    requires Inv(ports, w) && SameElsewhere(w.store, w.store.(vault := v), id) && v.objects == w.store.vault.objects
    requires id in w.store.ledger.dumps ==> w.store.ledger.dumps[id].phase == Receiving
    ensures Coupled(ports, w.store.(vault := v))
    ensures forall x :: WithinGrant(w.(store := w.store.(vault := v)), x)
  {
    if id in w.store.ledger.dumps {
      assert RowCoupled(ports, w.store.ledger.dumps[id], w.store.vault, id);
    }
    OneRow(ports, w.store, w.store.(vault := v), id);
    forall x ensures WithinGrant(w.(store := w.store.(vault := v)), x) {
      assert WithinGrant(w, x);
    }
  }

  /** One step of any run keeps the invariant. */
  lemma NextKeepsInv(ports: Ports, w: World, act: Act)
    requires Inv(ports, w) && act.Enabled(w)
    ensures Inv(ports, act.Next(ports, w))
  {
    match act
    case Run(command, at) => CommandKeepsInv(ports, w, command, at);
    case CrashIn(command, at, v) => CrashInKeepsInv(ports, w, command, at, v);
    case OpenUpload(id, digest, name, at) => OpenKeepsInv(ports, w, id, digest, name, at);
    case WriteChunk(id, bytes) => if id in w.sessions { ChunkKeepsInv(ports, w, id, bytes); }
    case TearChunk(id, written) => if id in w.sessions { TearKeepsInv(ports, w, id, written); }
    case CloseUpload(id) => if id in w.sessions { CloseKeepsInv(ports, w, id); }
    case SealSession(id, at) => if id in w.sessions { SealKeepsInv(ports, w, id, at); }
    case AbortUpload(id, at) => if id in w.sessions { AbortKeepsInv(ports, w, id, at); }
    case StageImport(id, row, chunks, at) => StageKeepsInv(ports, w, id, row, chunks, at);
    case CrashStaging(id, chunks, at) =>
      var v := w.store.vault.(staging := w.store.vault.staging[id := StagingObject(chunks, at, true)]);
      VaultChangeKeepsCoupled(ports, w, v, id);
      RestartKeepsInv(ports, w.(store := w.store.(vault := v)));
    case DropStaging(id) =>
      var v := w.store.vault.RemoveStaging(id);
      VaultChangeKeepsCoupled(ports, w, v, id);
      SessionChange(ports, w, w.(store := w.store.(vault := v)), id);
    case Crash => RestartKeepsInv(ports, w);
  }

  lemma {:induction false} RunKeepsInv(ports: Ports, w: World, acts: seq<Act>, end: World)
    requires Inv(ports, w) && Reaches(ports, w, acts, end)
    ensures Inv(ports, end)
    decreases |acts|
  {
    if acts != [] {
      NextKeepsInv(ports, w, acts[0]);
      RunKeepsInv(ports, acts[0].Next(ports, w), acts[1..], end);
    }
  }

  /** In every reachable world ledger and vault are coupled and every upload is within its grant. */
  lemma ReachableInv(ports: Ports, w: World)
    requires Reachable(ports, w)
    ensures Inv(ports, w)
  {
    var origin, acts :| Reaches(ports, EmptyWorld(origin), acts, w);
    RunKeepsInv(ports, EmptyWorld(origin), acts, w);
  }

  /** Availability means exactly the sealed bytes: recorded size, recorded hash, accepted by the inspector,
      and no more than the grant allowed when the dump was uploaded here. */
  lemma AvailableBytesAreSealed(ports: Ports, w: World, id: DumpId)
    requires Reachable(ports, w) && id in w.store.ledger.dumps && w.store.ledger.dumps[id].phase == Available
    ensures id in w.store.vault.objects && id !in w.store.vault.staging
    ensures w.store.ledger.dumps[id].byteSize == Some(|w.store.vault.objects[id]|)
    ensures w.store.ledger.dumps[id].sha256 == Some(ports.hash(w.store.vault.objects[id]))
    ensures ports.inspect(w.store.vault.objects[id]).Sound?
    ensures id in w.uploadedUnder ==>
              w.uploadedUnder[id] in w.store.ledger.grants &&
              |w.store.vault.objects[id]| <= w.store.ledger.grants[w.uploadedUnder[id]].maxBytes &&
              w.store.ledger.dumps[id].caseId == w.store.ledger.grants[w.uploadedUnder[id]].caseId
  {
    ReachableInv(ports, w);
    assert RowCoupled(ports, w.store.ledger.dumps[id], w.store.vault, id);
    assert WithinGrant(w, id);
  }

  lemma ImportKeepsObjects(ports: Ports, s: Store, id: DumpId, row: Dump, at: Time)
    ensures s.Execute(ports, ImportDump(id, row), at).0.vault.objects == s.vault.objects
    ensures Later(s.ledger, s.Execute(ports, ImportDump(id, row), at).0.ledger)
  {
    ExecuteLater(ports, s, ImportDump(id, row), at);
  }

  lemma StageLater(ports: Ports, s: Store, id: DumpId, row: Dump, chunks: seq<seq<byte>>, at: Time)
    ensures StageDump(ports, s, id, row, chunks, at).0.vault.objects == s.vault.objects
    ensures Later(s.ledger, StageDump(ports, s, id, row, chunks, at).0.ledger)
  {
    ImportKeepsObjects(ports, s, id, MismatchRecord(row), at);
    ImportKeepsObjects(ports, s.(vault := s.vault.RemoveStaging(id)), id, MismatchRecord(row), at);
    var closed := s.vault.(staging := s.vault.staging[id := StagingObject(chunks, at, false)]);
    ImportKeepsObjects(ports, s.(vault := closed), id, row, at);
    ImportKeepsObjects(ports, s, id, row, at);
    assert Later(s.ledger, s.ledger);
  }

  lemma NothingIsLater(s: Store)
    ensures Later(s.ledger, s.ledger) && ObjectsKept(s, s)
  {}

  lemma SessionActLater(ports: Ports, w: World, act: Act)
    requires act.WriteChunk? || act.TearChunk? || act.CloseUpload? || act.SealSession? || act.AbortUpload?
    ensures Later(w.store.ledger, act.Next(ports, w).store.ledger)
    ensures ObjectsKept(w.store, act.Next(ports, w).store)
  {
    NothingIsLater(w.store);
    hide Later, Store.Execute, Store.SealUpload, Store.FailUpload;
    match act
    case SealSession(id, at) =>
      UploadCommands(ports, w.store, id, at);
      if id in w.sessions {
        var command := SealUpload(id, |w.sessions[id].received|, ports.hash(w.sessions[id].received));
        ExecuteLater(ports, w.store, command, at);
        ExecuteKeepsObjects(ports, w.store, command, at);
      }
    case AbortUpload(id, at) =>
      UploadCommands(ports, w.store, id, at);
      ExecuteLater(ports, w.store, FailUpload(id), at);
      ExecuteKeepsObjects(ports, w.store, FailUpload(id), at);
    case _ =>
  }

  /** In every step of every run, crashes included: identities, terminal grants, tombstones and the audit prefix stay,
      and an object in the vault keeps its bytes until its dump is being purged. */
  lemma NextIsLater(ports: Ports, w: World, act: Act)
    requires act.Enabled(w)
    ensures Later(w.store.ledger, act.Next(ports, w).store.ledger)
    ensures ObjectsKept(w.store, act.Next(ports, w).store)
  {
    NothingIsLater(w.store);
    hide Later, Store.Execute, Store.HalfDone, Store.BeginUpload, StageDump;
    match act
    case Run(command, at) =>
      ExecuteLater(ports, w.store, command, at);
      ExecuteKeepsObjects(ports, w.store, command, at);
    case CrashIn(command, at, v) => ExecuteKeepsObjects(ports, w.store, command, at);
    case OpenUpload(id, digest, name, at) =>
      UploadCommands(ports, w.store, id, at);
      ExecuteLater(ports, w.store, BeginUpload(id, digest, name), at);
      ExecuteKeepsObjects(ports, w.store, BeginUpload(id, digest, name), at);
    case StageImport(id, row, chunks, at) => StageLater(ports, w.store, id, row, chunks, at);
    case CrashStaging(_, _, _) =>
    case DropStaging(_) =>
    case Crash =>
    case _ => SessionActLater(ports, w, act);
  }
}
