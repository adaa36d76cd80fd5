/** What an exporter can rely on in every reachable ledger: distinct event ids, audit references that resolve,
    importable grants with distinct secrets. */
module Integrity {
  import opened Domain
  import opened Vaults
  import opened Ledgers
  import opened Engines
  import opened Coupling
  import opened History
  import opened Runs
  import opened Safety

  /** Native events are numbered by their position, and no id occurs twice. */
  ghost predicate EventsDistinct(l: Ledger) {
    && (forall i :: 0 <= i < |l.audit| && l.audit[i].eventId.origin == l.origin ==> l.audit[i].eventId.serial == i)
    && (forall i, j :: 0 <= i < j < |l.audit| ==> l.audit[i].eventId != l.audit[j].eventId)
  }

  ghost predicate EventsResolve(l: Ledger) {
    forall i :: 0 <= i < |l.audit| ==> l.ReferencesExist(l.audit[i])
  }

  ghost predicate GrantsSound(l: Ledger) {
    && (forall g :: g in l.grants ==> ImportableGrant(l.grants[g]))
    && (forall g, h :: g in l.grants && h in l.grants && l.grants[g].secretDigest == l.grants[h].secretDigest ==> g == h)
  }

  /** At most one event was appended: a native one, or a replayed one with an id not seen before. */
  ghost predicate Appended(l: Ledger, m: Ledger) {
    || m.audit == l.audit
    || (&& |m.audit| == |l.audit| + 1 && m.audit[..|l.audit|] == l.audit
        && var e := m.audit[|l.audit|];
           && m.ReferencesExist(e)
           && (e.eventId == l.NextEventId() || (e.eventId.origin != l.origin && !l.HasEvent(e.eventId))))
  }

  ghost predicate EventsSound(l: Ledger) {
    EventsDistinct(l) && EventsResolve(l)
  }

  lemma AppendedKeepsEvents(l: Ledger, m: Ledger)
    requires EventsSound(l) && Later(l, m) && Appended(l, m)
    ensures EventsSound(m)
  {
    forall i | 0 <= i < |l.audit| ensures m.audit[i] == l.audit[i] && l.ReferencesExist(l.audit[i]) {
      assert l.audit <= m.audit;
    }
    if m.audit != l.audit {
      var e := m.audit[|l.audit|];
      forall i | 0 <= i < |l.audit| ensures l.audit[i].eventId != e.eventId {
        if e.eventId.origin != l.origin {
          assert !l.HasEvent(e.eventId);
        }
      }
    }
  }

  lemma EdgeAppends(l: Ledger, id: DumpId, edge: DumpEdge, at: Time)
    requires References(l)
    ensures l.TransitionDump(id, edge, at).Ok? ==> Appended(l, l.TransitionDump(id, edge, at).value)
  {
    hide DumpEdge.Apply, DumpEdge.Permits, DumpEdge.Action;
  }

  lemma DumpCommandAppends(ports: Ports, s: Store, command: Command, at: Time)
    requires References(s.ledger) && TouchesDumps(command)
    ensures Appended(s.ledger, s.Execute(ports, command, at).0.ledger)
  {
    if command.SetRetention? || command.ImportDump? {
      PlainAppends(ports, s, command, at);
    } else if command.BeginUpload? {
      BeginAppends(ports, s, command, at);
    } else {
      EdgeCommand(ports, s, command, at);
      if EdgeOf(ports, s, command).Some? {
        EdgeAppends(s.ledger, command.dumpId, EdgeOf(ports, s, command).value, at);
      }
    }
  }

  lemma PlainAppends(ports: Ports, s: Store, command: Command, at: Time)
    requires References(s.ledger) && (command.SetRetention? || command.ImportDump?)
    ensures Appended(s.ledger, s.Execute(ports, command, at).0.ledger)
  {
    hide Store.Execute;
    PlainDumpCommand(ports, s, command, at);
  }

  lemma BeginAppends(ports: Ports, s: Store, command: Command, at: Time)
    requires References(s.ledger) && command.BeginUpload?
    ensures Appended(s.ledger, s.Execute(ports, command, at).0.ledger)
  {}

  lemma OtherCommandAppends(ports: Ports, s: Store, command: Command, at: Time)
    requires References(s.ledger) && !TouchesDumps(command)
    requires command.ImportAuditEvent? ==> command.event.eventId.origin != s.ledger.origin
    ensures Appended(s.ledger, s.Execute(ports, command, at).0.ledger)
  {
    hide Store.Execute, Appended;
    OtherCommand(ports, s, command, at);
    NothingAppended(s.ledger);
    if command.IsImport() {
      ImportAppends(s.ledger, command, at);
    } else {
      NativeAppends(s.ledger, command, at);
    }
  }

  lemma NothingAppended(l: Ledger)
    ensures Appended(l, l)
  {}

  lemma ImportAppends(l: Ledger, command: Command, at: Time)
    requires References(l) && !TouchesDumps(command) && command.IsImport()
    requires command.ImportAuditEvent? ==> command.event.eventId.origin != l.origin
    ensures TransactionOf(l, command, at).Ok? ==> Appended(l, TransactionOf(l, command, at).value)
  {}

  lemma NativeAppends(l: Ledger, command: Command, at: Time)
    requires References(l) && !TouchesDumps(command) && !command.IsImport()
    ensures TransactionOf(l, command, at).Ok? ==> Appended(l, TransactionOf(l, command, at).value)
  {}

  lemma CommandKeepsEvents(ports: Ports, s: Store, command: Command, at: Time)
    requires References(s.ledger) && EventsSound(s.ledger)
    requires command.ImportAuditEvent? ==> command.event.eventId.origin != s.ledger.origin
    ensures EventsSound(s.Execute(ports, command, at).0.ledger)
  {
    hide Appended, Store.Execute, Later;
    ExecuteLater(ports, s, command, at);
    if TouchesDumps(command) {
      DumpCommandAppends(ports, s, command, at);
    } else {
      OtherCommandAppends(ports, s, command, at);
    }
    AppendedKeepsEvents(s.ledger, s.Execute(ports, command, at).0.ledger);
  }

  lemma NoDigest(l: Ledger, digest: Digest)
    requires l.FindGrantByDigest(digest).None?
    ensures forall g :: g in l.grants ==> l.grants[g].secretDigest != digest
  {
    forall g | g in l.grants ensures l.grants[g].secretDigest != digest {
      assert g !in l.HoldersOf(digest);
    }
  }

  lemma InsertedGrantSound(l: Ledger, m: Ledger, id: GrantId)
    requires GrantsSound(l) && id in m.grants && ImportableGrant(m.grants[id])
    requires m.grants == l.grants[id := m.grants[id]] && l.FindGrantByDigest(m.grants[id].secretDigest).None?
    ensures GrantsSound(m)
  {
    NoDigest(l, m.grants[id].secretDigest);
  }

  lemma LaterGrantsSound(l: Ledger, m: Ledger)
    requires GrantsSound(l) && m.grants.Keys == l.grants.Keys && GrantsLater(l, m)
    requires forall g :: g in m.grants ==> m.grants[g].uploadsUsed <= MAX_GRANT_UPLOAD_SLOTS
    ensures GrantsSound(m)
  {
    forall g | g in m.grants
      ensures ImportableGrant(m.grants[g]) && m.grants[g].secretDigest == l.grants[g].secretDigest
    {
      assert GrantLater(l.grants[g], m.grants[g]) && ImportableGrant(l.grants[g]);
    }
  }

  lemma GrantCommandSound(ports: Ports, s: Store, command: Command, at: Time)
    requires GrantsSound(s.ledger) && (command.CloseCase? || command.RevokeGrant? || command.ExpireGrant? || command.BeginUpload?)
    ensures GrantsSound(s.Execute(ports, command, at).0.ledger)
  {
    var m := s.Execute(ports, command, at).0.ledger;
    GrantSlots(ports, s, command, at);
    ExecuteLater(ports, s, command, at);
    LaterGrantsSound(s.ledger, m);
  }

  lemma GrantSlots(ports: Ports, s: Store, command: Command, at: Time)
    requires GrantsSound(s.ledger) && (command.CloseCase? || command.RevokeGrant? || command.ExpireGrant? || command.BeginUpload?)
    ensures var m := s.Execute(ports, command, at).0.ledger;
            && m.grants.Keys == s.ledger.grants.Keys
            && forall g :: g in m.grants ==> m.grants[g].uploadsUsed <= MAX_GRANT_UPLOAD_SLOTS
  {
    assert forall g :: g in s.ledger.grants ==> ImportableGrant(s.ledger.grants[g]);
    if command.BeginUpload? {
      BegunSlots(ports, s, command, at);
    } else {
      hide Store.Execute;
      OtherCommand(ports, s, command, at);
    }
  }

  lemma BegunSlots(ports: Ports, s: Store, command: Command, at: Time)
    requires command.BeginUpload? && forall g :: g in s.ledger.grants ==> ImportableGrant(s.ledger.grants[g])
    ensures var m := s.Execute(ports, command, at).0.ledger;
            && m.grants.Keys == s.ledger.grants.Keys
            && forall g :: g in m.grants ==> m.grants[g].uploadsUsed <= MAX_GRANT_UPLOAD_SLOTS
  {}

  lemma CommandKeepsGrants(ports: Ports, s: Store, command: Command, at: Time)
    requires GrantsSound(s.ledger)
    ensures GrantsSound(s.Execute(ports, command, at).0.ledger)
  {
    hide GrantsSound;
    var m := s.Execute(ports, command, at).0.ledger;
    if command.CloseCase? || command.RevokeGrant? || command.ExpireGrant? || command.BeginUpload? {
      GrantCommandSound(ports, s, command, at);
    } else if command.IssueGrant? || command.ImportGrant? {
      if m != s.ledger {
        InsertedGrantSound(s.ledger, m, command.grantId);
      }
    } else {
      GrantsUntouched(ports, s, command, at);
      assert GrantsSound(m) by { SameGrantsSound(s.ledger, m); }
    }
  }

  lemma SameGrantsSound(l: Ledger, m: Ledger)
    requires GrantsSound(l) && m.grants == l.grants
    ensures GrantsSound(m)
  {}

  lemma GrantsUntouched(ports: Ports, s: Store, command: Command, at: Time)
    requires !command.IssueGrant? && !command.ImportGrant? && !command.CloseCase? && !command.RevokeGrant? && !command.ExpireGrant?
    requires !command.BeginUpload?
    ensures s.Execute(ports, command, at).0.ledger.grants == s.ledger.grants
  {
    hide Store.Execute;
    if command.SetRetention? || command.ImportDump? {
      PlainDumpCommand(ports, s, command, at);
    } else if TouchesDumps(command) {
      EdgeCommand(ports, s, command, at);
    } else {
      OtherCommand(ports, s, command, at);
    }
  }

  ghost predicate LedgerSound(l: Ledger) {
    EventsSound(l) && GrantsSound(l)
  }

  lemma CommandKeepsLedger(ports: Ports, s: Store, command: Command, at: Time)
    requires References(s.ledger) && LedgerSound(s.ledger)
    requires command.ImportAuditEvent? ==> command.event.eventId.origin != s.ledger.origin
    ensures LedgerSound(s.Execute(ports, command, at).0.ledger)
  {
    CommandKeepsEvents(ports, s, command, at);
    CommandKeepsGrants(ports, s, command, at);
  }

  lemma StagingKeepsLedger(ports: Ports, s: Store, id: DumpId, row: Dump, chunks: seq<seq<byte>>, at: Time)
    requires References(s.ledger) && LedgerSound(s.ledger)
    ensures LedgerSound(StageDump(ports, s, id, row, chunks, at).0.ledger)
  {
    hide LedgerSound, Store.Execute;
    CommandKeepsLedger(ports, s, ImportDump(id, MismatchRecord(row)), at);
    CommandKeepsLedger(ports, s.(vault := s.vault.RemoveStaging(id)), ImportDump(id, MismatchRecord(row)), at);
    var closed := s.vault.(staging := s.vault.staging[id := StagingObject(chunks, at, false)]);
    CommandKeepsLedger(ports, s.(vault := closed), ImportDump(id, row), at);
    CommandKeepsLedger(ports, s, ImportDump(id, row), at);
  }

  lemma NextKeepsLedger(ports: Ports, w: World, act: Act)
    requires Inv(ports, w) && LedgerSound(w.store.ledger) && act.Enabled(w)
    ensures LedgerSound(act.Next(ports, w).store.ledger)
  {
    hide LedgerSound, Store.Execute, Store.BeginUpload, Store.SealUpload, Store.FailUpload, StageDump, References, RowCoupled;
    match act
    case Run(command, at) => CommandKeepsLedger(ports, w.store, command, at);
    case OpenUpload(id, digest, name, at) =>
      UploadCommands(ports, w.store, id, at);
      CommandKeepsLedger(ports, w.store, BeginUpload(id, digest, name), at);
    case SealSession(id, at) =>
      UploadCommands(ports, w.store, id, at);
      if id in w.sessions {
        CommandKeepsLedger(ports, w.store, SealUpload(id, |w.sessions[id].received|, ports.hash(w.sessions[id].received)), at);
      }
    case AbortUpload(id, at) =>
      UploadCommands(ports, w.store, id, at);
      CommandKeepsLedger(ports, w.store, FailUpload(id), at);
    case StageImport(id, row, chunks, at) => StagingKeepsLedger(ports, w.store, id, row, chunks, at);
    case _ =>
  }

  lemma {:induction false} RunKeepsLedger(ports: Ports, w: World, acts: seq<Act>, end: World)
    requires Inv(ports, w) && LedgerSound(w.store.ledger) && Reaches(ports, w, acts, end)
    ensures LedgerSound(end.store.ledger)
    decreases |acts|
  {
    hide Inv, LedgerSound;
    if acts != [] {
      NextKeepsInv(ports, w, acts[0]);
      NextKeepsLedger(ports, w, acts[0]);
      RunKeepsLedger(ports, acts[0].Next(ports, w), acts[1..], end);
    }
  }

  /** In every reachable ledger event ids are distinct, every event refers to rows that exist, grants stay within the
      bounds the engine checks, and no two grants share a secret. */
  lemma ReachableLedgerSound(ports: Ports, w: World)
    requires Reachable(ports, w)
    ensures References(w.store.ledger) && LedgerSound(w.store.ledger)
  {
    ReachableInv(ports, w);
    var origin, acts :| Reaches(ports, EmptyWorld(origin), acts, w);
    RunKeepsLedger(ports, EmptyWorld(origin), acts, w);
  }
}
