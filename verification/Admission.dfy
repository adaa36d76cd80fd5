/** Which commands an instance takes: in every reachable world the receipt is decided by the rows alone. */
module Admission {
  import opened Domain
  import opened Vaults
  import opened Ledgers
  import opened Engines
  import opened Coupling
  import opened Runs
  import opened Safety
  import opened Integrity
  import opened Restarts

  predicate Holds(l: Ledger, g: GrantId, digest: Digest) {
    g in l.grants && l.grants[g].secretDigest == digest
  }

  ghost predicate Unheld(l: Ledger, digest: Digest) {
    forall g :: g in l.grants ==> l.grants[g].secretDigest != digest
  }

  lemma HolderFound(l: Ledger, g: GrantId, digest: Digest)
    requires GrantsSound(l) && Holds(l, g, digest)
    ensures l.FindGrantByDigest(digest) == Some(g)
  {
    assert g in l.HoldersOf(digest);
    var least := Least(l.HoldersOf(digest));
    assert Holds(l, least, digest);
  }

  lemma NobodyFound(l: Ledger, digest: Digest)
    requires Unheld(l, digest)
    ensures l.FindGrantByDigest(digest) == None
  {}

  /** A secret nobody holds opens nothing. */
  lemma UnknownSecretRefused(ports: Ports, w: World, id: DumpId, digest: Digest, name: string, at: Time)
    requires Unheld(w.store.ledger, digest)
    ensures w.store.BeginUpload(id, digest, name, at) == (w.store, Refused(GrantInvalid))
  {
    NobodyFound(w.store.ledger, digest);
  }

  /** What an upload under the grant `g` comes to, read off the grant's row, its case and the id. */
  lemma HeldSecretDecided(ports: Ports, w: World, id: DumpId, g: GrantId, name: string, at: Time)
    requires Reachable(ports, w) && g in w.store.ledger.grants
    ensures var s, grant := w.store, w.store.ledger.grants[g];
            var (t, r) := s.BeginUpload(id, grant.secretDigest, name, at);
            var taken := id in s.vault.staging || id in s.vault.objects;
            && grant.caseId in s.ledger.cases
            && var closed := s.ledger.cases[grant.caseId].status == Closed;
            && (r.Begun? <==>
                  && grant.state == Issued && at < grant.expiresAt && grant.uploadsUsed < grant.maxUploads
                  && !closed && id !in s.ledger.dumps && id !in s.vault.staging)
            && (r.Begun? ==> r == Begun(grant.caseId, g, grant.maxBytes))
            && (r == Refused(GrantExhausted) <==>
                  || grant.state == Consumed
                  || (grant.state == Issued && at < grant.expiresAt && !taken && !closed && grant.uploadsUsed >= grant.maxUploads))
            && (r == Refused(GrantExpired) <==> grant.state == Expired || (grant.state in {Issued, Revoked} && grant.expiresAt <= at))
            && (r == Refused(GrantInvalid) <==> grant.state == Revoked && at < grant.expiresAt)
            && (r == Refused(IntegrityFailure) <==> grant.state == Issued && at < grant.expiresAt && taken)
            && (r == Refused(InvalidTransition) <==> grant.state == Issued && at < grant.expiresAt && !taken && closed)
            && (r == Refused(StorageUnavailable) <==>
                  && grant.state == Issued && at < grant.expiresAt && !taken && !closed && grant.uploadsUsed < grant.maxUploads
                  && id in s.ledger.dumps)
            && (r.Begun? || (r.Refused? && t == s))
  {
    hide LedgerSound, RowCoupled;
    ReachableInv(ports, w);
    ReachableLedgerSound(ports, w);
    assert GrantsSound(w.store.ledger) by { SoundGrants(w.store.ledger); }
    HolderFound(w.store.ledger, g, w.store.ledger.grants[g].secretDigest);
    StagingUndone(w.store.vault, id, at);
  }

  lemma SoundGrants(l: Ledger)
    requires LedgerSound(l)
    ensures GrantsSound(l)
  {}

  lemma StagingUndone(v: Vault, id: DumpId, at: Time)
    ensures v.CreateStaging(id, at).Ok? ==> v.CreateStaging(id, at).value.RemoveStaging(id) == v
  {
    if v.CreateStaging(id, at).Ok? {
      assert v.CreateStaging(id, at).value.staging - {id} == v.staging;
    }
  }

  /** An upload is admitted exactly when some grant row holds the secret, is issued, unexpired and has a slot left, its case is
      not closed, and the id is free. */
  lemma UploadAdmitted(ports: Ports, w: World, id: DumpId, digest: Digest, name: string, at: Time)
    requires Reachable(ports, w)
    ensures var l, r := w.store.ledger, w.store.BeginUpload(id, digest, name, at).1;
            && (r.Begun? <==>
                  && id !in l.dumps && id !in w.store.vault.staging
                  && exists g :: Holds(l, g, digest) && l.grants[g].state == Issued && at < l.grants[g].expiresAt
                                 && l.grants[g].uploadsUsed < l.grants[g].maxUploads
                                 && l.grants[g].caseId in l.cases && l.cases[l.grants[g].caseId].status != Closed)
            && (r.Begun? ==> Holds(l, r.grantId, digest) && r.caseId == l.grants[r.grantId].caseId && r.maxBytes == l.grants[r.grantId].maxBytes)
            && (r == Refused(GrantInvalid) <==>
                  Unheld(l, digest) || exists g :: Holds(l, g, digest) && l.grants[g].state == Revoked && at < l.grants[g].expiresAt)
  {
    hide Reachable, Store.BeginUpload;
    var l := w.store.ledger;
    if Unheld(l, digest) {
      UnknownSecretRefused(ports, w, id, digest, name, at);
      assert forall g :: !Holds(l, g, digest);
    } else {
      var g :| g in l.grants && l.grants[g].secretDigest == digest;
      HeldSecretDecided(ports, w, id, g, name, at);
      OneHolder(ports, w, g, digest);
      assert Holds(l, g, digest);
    }
  }

  lemma OneHolder(ports: Ports, w: World, g: GrantId, digest: Digest)
    requires Reachable(ports, w) && Holds(w.store.ledger, g, digest)
    ensures forall h :: Holds(w.store.ledger, h, digest) <==> h == g
  {
    ReachableLedgerSound(ports, w);
    SoundGrants(w.store.ledger);
  }

  /** Uploads begun one after the other under one secret. */
  function Uploads(s: Store, digest: Digest, ids: seq<DumpId>, name: string, ats: seq<Time>): (r: seq<Receipt>)
    requires |ids| == |ats|
    ensures |r| == |ids|
    decreases |ids|
  {
    if ids == [] then []
    else
      var (t, r) := s.BeginUpload(ids[0], digest, name, ats[0]);
      [r] + Uploads(t, digest, ids[1..], name, ats[1..])
  }

  lemma OpenedIsReachable(ports: Ports, w: World, id: DumpId, digest: Digest, name: string, at: Time)
    requires Reachable(ports, w) && Unused(w.store, id)
    ensures Reachable(ports, OpenSession(w, id, digest, name, at))
    ensures OpenSession(w, id, digest, name, at).store == w.store.BeginUpload(id, digest, name, at).0
  {
    var act := OpenUpload(id, digest, name, at);
    var end := OpenSession(w, id, digest, name, at);
    assert act.Next(ports, w) == end && Reaches(ports, end, [], end);
    ReachesStep(ports, w, act, [], end);
    ReachesReachable(ports, w, [act] + [], end);
  }

  /** What a begun upload leaves of its grant, its case and the other ids. */
  lemma SlotTaken(w: World, id: DumpId, g: GrantId, digest: Digest, name: string, at: Time)
    requires g in w.store.ledger.grants && w.store.ledger.FindGrantByDigest(digest) == Some(g)
    requires w.store.BeginUpload(id, digest, name, at).1.Begun?
    ensures var l, t := w.store.ledger, w.store.BeginUpload(id, digest, name, at).0;
            var m := t.ledger;
            && m.cases == l.cases && g in m.grants
            && m.grants[g] == l.grants[g].(uploadsUsed := l.grants[g].uploadsUsed + 1, state := m.grants[g].state, consumedBy := m.grants[g].consumedBy)
            && (m.grants[g].state == if m.grants[g].uploadsUsed == l.grants[g].maxUploads then Consumed else Issued)
            && forall x :: x != id && Unused(w.store, x) ==> Unused(t, x)
  {}

  /** An issued grant of a case that is open admits exactly the uploads it has slots left for, and refuses those after. */
  lemma {:induction false} GrantAdmitsItsSlots(ports: Ports, w: World, g: GrantId, ids: seq<DumpId>, name: string, ats: seq<Time>)
    requires Reachable(ports, w) && g in w.store.ledger.grants && |ids| == |ats|
    requires var grant := w.store.ledger.grants[g];
             && (grant.state == Issued || (grant.state == Consumed && grant.uploadsUsed == grant.maxUploads))
             && grant.uploadsUsed <= grant.maxUploads && grant.caseId in w.store.ledger.cases && w.store.ledger.cases[grant.caseId].status != Closed
             && forall k :: 0 <= k < |ats| ==> ats[k] < grant.expiresAt
    requires forall k :: 0 <= k < |ids| ==> Unused(w.store, ids[k])
    requires forall j, k :: 0 <= j < k < |ids| ==> ids[j] != ids[k]
    ensures var grant := w.store.ledger.grants[g];
            forall k :: 0 <= k < |ids| ==>
              Uploads(w.store, grant.secretDigest, ids, name, ats)[k] ==
              if k < grant.maxUploads - grant.uploadsUsed then Begun(grant.caseId, g, grant.maxBytes) else Refused(GrantExhausted)
    decreases |ids|
  {
    if ids != [] {
      hide Reachable, Store.BeginUpload, OpenSession, Unused, Ledger.FindGrantByDigest;
      var grant, id, rest := w.store.ledger.grants[g], ids[0], ids[1..];
      var (t, r) := w.store.BeginUpload(id, grant.secretDigest, name, ats[0]);
      assert Unused(w.store, ids[0]);
      assert id !in w.store.ledger.dumps && id !in w.store.vault.staging && id !in w.store.vault.objects by { UnusedNowhere(w.store, id); }
      HeldSecretDecided(ports, w, id, g, name, ats[0]);
      OpenedIsReachable(ports, w, id, grant.secretDigest, name, ats[0]);
      if r.Begun? {
        assert w.store.ledger.FindGrantByDigest(grant.secretDigest) == Some(g) by {
          ReachableLedgerSound(ports, w);
          SoundGrants(w.store.ledger);
          HolderFound(w.store.ledger, g, grant.secretDigest);
        }
        SlotTaken(w, id, g, grant.secretDigest, name, ats[0]);
      }
      forall k | 0 <= k < |rest| ensures Unused(t, rest[k]) {
        assert rest[k] == ids[k + 1] && ids[k + 1] != ids[0];
      }
      GrantAdmitsItsSlots(ports, OpenSession(w, id, grant.secretDigest, name, ats[0]), g, rest, name, ats[1..]);
    }
  }

  lemma UnusedNowhere(s: Store, id: DumpId)
    requires Unused(s, id)
    ensures id !in s.ledger.dumps && id !in s.vault.staging && id !in s.vault.objects
  {}

  // ---- the other commands ----

  lemma RowSound(ports: Ports, w: World, id: DumpId)
    requires Reachable(ports, w) && id in w.store.ledger.dumps
    ensures RowCoupled(ports, w.store.ledger.dumps[id], w.store.vault, id) && w.store.ledger.dumps[id].caseId in w.store.ledger.cases
  {
    ReachableInv(ports, w);
  }

  lemma NoRowNoObject(ports: Ports, w: World, id: DumpId)
    requires Reachable(ports, w) && id !in w.store.ledger.dumps
    ensures id !in w.store.vault.objects
  {
    ReachableInv(ports, w);
  }

  /** A dump can be downloaded exactly while it is available; the ledger gains one event and nothing else happens. */
  lemma DownloadDecided(ports: Ports, w: World, id: DumpId, at: Time)
    requires Reachable(ports, w)
    ensures var s := w.store;
            var (t, r) := s.Execute(ports, AuthorizeDownload(id), at);
            && (r == Done <==> id in s.ledger.dumps && s.ledger.dumps[id].phase == Available)
            && (r == Done || (r.Refused? && t == s))
            && (r == Done ==> t.vault == s.vault && t.ledger.dumps == s.ledger.dumps && t.ledger.grants == s.ledger.grants
                              && t.ledger.cases == s.ledger.cases && t.ledger.customers == s.ledger.customers
                              && |t.ledger.audit| == |s.ledger.audit| + 1 && s.ledger.audit <= t.ledger.audit
                              && var e := t.ledger.audit[|s.ledger.audit|];
                                 e.action == AuthorizeDownloadA && e.dumpId == Some(id) && e.caseId == Some(s.ledger.dumps[id].caseId))
  {
    if id in w.store.ledger.dumps { RowSound(ports, w, id); } else { NoRowNoObject(ports, w, id); }
  }

  /** The phase each command asks of its dump. */
  lemma LifecycleDecided(ports: Ports, w: World, id: DumpId, at: Time)
    requires Reachable(ports, w) && id in w.store.ledger.dumps
    ensures var s, d := w.store, w.store.ledger.dumps[id];
            && (s.Execute(ports, FailUpload(id), at).1 == Done <==> d.phase == Receiving)
            && (s.Execute(ports, PromoteObject(id), at).1 == Done <==> d.phase == Sealed && d.blob == InStaging)
            && (s.Execute(ports, MarkQuarantined(id), at).1 == Done <==> d.phase == Sealed && d.blob == InVault)
            && (s.Execute(ports, BeginPurge(id), at).1 == Done <==> d.phase == Available || d.phase == Rejected)
            && (s.Execute(ports, FinishPurge(id), at).1 == Done <==> d.phase == Deleting)
            && (forall purgeAt: Time :: s.Execute(ports, SetRetention(id, purgeAt), at).1 == Done <==>
                                          purgeAt > at && (d.phase == Available || d.phase == Rejected))
  {
    hide Reachable, RowCoupled, Store.Execute, Store.PromoteObject, Store.MarkQuarantined, Store.FailUpload, Store.BeginPurge, Store.FinishPurge;
    RowSound(ports, w, id);
    FailDecided(ports, w.store, id, at);
    PromoteDecided(ports, w.store, id, at);
    QuarantineDecided(ports, w.store, id, at);
    PurgeDecided(ports, w.store, id, at);
  }

  lemma FailDecided(ports: Ports, s: Store, id: DumpId, at: Time)
    requires id in s.ledger.dumps && s.ledger.dumps[id].caseId in s.ledger.cases
    ensures s.Execute(ports, FailUpload(id), at).1 == Done <==> s.ledger.dumps[id].phase == Receiving
  {}

  lemma PromoteDecided(ports: Ports, s: Store, id: DumpId, at: Time)
    requires id in s.ledger.dumps && s.ledger.dumps[id].caseId in s.ledger.cases && RowCoupled(ports, s.ledger.dumps[id], s.vault, id)
    ensures s.Execute(ports, PromoteObject(id), at).1 == Done <==> s.ledger.dumps[id].phase == Sealed && s.ledger.dumps[id].blob == InStaging
  {}

  lemma QuarantineDecided(ports: Ports, s: Store, id: DumpId, at: Time)
    requires id in s.ledger.dumps && s.ledger.dumps[id].caseId in s.ledger.cases && RowCoupled(ports, s.ledger.dumps[id], s.vault, id)
    ensures s.Execute(ports, MarkQuarantined(id), at).1 == Done <==> s.ledger.dumps[id].phase == Sealed && s.ledger.dumps[id].blob == InVault
  {}

  lemma PurgeDecided(ports: Ports, s: Store, id: DumpId, at: Time)
    requires id in s.ledger.dumps && s.ledger.dumps[id].caseId in s.ledger.cases
    ensures var settled := s.ledger.dumps[id].phase == Available || s.ledger.dumps[id].phase == Rejected;
            && (s.Execute(ports, BeginPurge(id), at).1 == Done <==> settled)
            && (s.Execute(ports, FinishPurge(id), at).1 == Done <==> s.ledger.dumps[id].phase == Deleting)
            && (forall purgeAt: Time :: s.Execute(ports, SetRetention(id, purgeAt), at).1 == Done <==> purgeAt > at && settled)
  {}

  lemma InspectionDecided(ports: Ports, w: World, id: DumpId, at: Time)
    requires Reachable(ports, w) && id in w.store.ledger.dumps
    ensures var s, d := w.store, w.store.ledger.dumps[id];
            && (d.phase == Quarantined ==> id in s.vault.objects)
            && (s.Execute(ports, AcceptDump(id), at).1 == Done <==> d.phase == Quarantined && ports.inspect(s.vault.objects[id]).Sound?)
            && (s.Execute(ports, RejectDump(id), at).1 == Done <==> d.phase == Quarantined && ports.inspect(s.vault.objects[id]).Unsound?)
  {
    RowSound(ports, w, id);
  }

  /** One row rewritten: the others are as they were. */
  predicate Rewrites(s: Store, t: Store, r: Receipt, id: DumpId) {
    && id in s.ledger.dumps && id in t.ledger.dumps && (r == Done || (r.Refused? && t.ledger == s.ledger))
    && t.ledger.dumps == s.ledger.dumps[id := t.ledger.dumps[id]]
  }

  /** What a command that is taken makes of its row; a refused one changes none. */
  lemma LifecycleMoves(ports: Ports, w: World, command: Command, at: Time)
    requires command.FailUpload? || command.PromoteObject? || command.MarkQuarantined? || command.AcceptDump? || command.RejectDump?
             || command.BeginPurge? || command.FinishPurge? || command.SetRetention?
    requires command.dumpId in w.store.ledger.dumps
    ensures var s, id := w.store, command.dumpId;
            var (t, r) := s.Execute(ports, command, at);
            && Rewrites(s, t, r, id)
            && (r == Done ==>
                  var d, e := s.ledger.dumps[id], t.ledger.dumps[id];
                  && (command.FailUpload? ==> e.phase == Rejected && e.validation == TransferFailed && e.blob == NoBlob)
                  && (command.PromoteObject? ==> e == d.(blob := InVault))
                  && (command.MarkQuarantined? ==> e == d.(phase := Quarantined))
                  && (command.AcceptDump? ==> e.phase == Available && e.validation == Valid && e.downloadable && e.availableAt == Some(at))
                  && (command.RejectDump? ==> e.phase == Rejected && e.validation == Invalid && e.inspectionError.Some?)
                  && (command.BeginPurge? ==> e == d.(phase := Deleting, downloadable := false))
                  && (command.FinishPurge? ==> e.phase == Deleted && e.blob == NoBlob && e.purgedAt == Some(at))
                  && (command.SetRetention? ==> e == d.(purgeAt := Some(command.purgeAt))))
  {
    hide Rewrites, Store.Execute;
    var s, id := w.store, command.dumpId;
    if command.FailUpload? {
      FailMoves(ports, s, id, at);
    } else if command.FinishPurge? {
      FinishMoves(ports, s, id, at);
    } else if command.PromoteObject? || command.MarkQuarantined? {
      PromoteMoves(ports, s, id, at);
    } else if command.AcceptDump? || command.RejectDump? {
      InspectMoves(ports, s, id, at);
    } else {
      PurgeMoves(ports, s, id, if command.SetRetention? then command.purgeAt else 0, at);
    }
  }

  lemma FailMoves(ports: Ports, s: Store, id: DumpId, at: Time)
    requires id in s.ledger.dumps
    ensures var (t, r) := s.Execute(ports, FailUpload(id), at);
            && Rewrites(s, t, r, id)
            && (r == Done ==> var e := t.ledger.dumps[id]; e.phase == Rejected && e.validation == TransferFailed && e.blob == NoBlob)
  {}

  lemma FinishMoves(ports: Ports, s: Store, id: DumpId, at: Time)
    requires id in s.ledger.dumps
    ensures var (t, r) := s.Execute(ports, FinishPurge(id), at);
            && Rewrites(s, t, r, id)
            && (r == Done ==> var e := t.ledger.dumps[id]; e.phase == Deleted && e.blob == NoBlob && e.purgedAt == Some(at))
  {}

  lemma PromoteMoves(ports: Ports, s: Store, id: DumpId, at: Time)
    requires id in s.ledger.dumps
    ensures var (t, r) := s.Execute(ports, PromoteObject(id), at);
            Rewrites(s, t, r, id) && (r == Done ==> t.ledger.dumps[id] == s.ledger.dumps[id].(blob := InVault))
    ensures var (t, r) := s.Execute(ports, MarkQuarantined(id), at);
            Rewrites(s, t, r, id) && (r == Done ==> t.ledger.dumps[id] == s.ledger.dumps[id].(phase := Quarantined))
  {}

  lemma InspectMoves(ports: Ports, s: Store, id: DumpId, at: Time)
    requires id in s.ledger.dumps
    ensures var (t, r) := s.Execute(ports, AcceptDump(id), at);
            && Rewrites(s, t, r, id)
            && (r == Done ==> var e := t.ledger.dumps[id]; e.phase == Available && e.validation == Valid && e.downloadable && e.availableAt == Some(at))
    ensures var (t, r) := s.Execute(ports, RejectDump(id), at);
            && Rewrites(s, t, r, id)
            && (r == Done ==> var e := t.ledger.dumps[id]; e.phase == Rejected && e.validation == Invalid && e.inspectionError.Some?)
  {}

  lemma PurgeMoves(ports: Ports, s: Store, id: DumpId, purgeAt: Time, at: Time)
    requires id in s.ledger.dumps
    ensures var (t, r) := s.Execute(ports, BeginPurge(id), at);
            Rewrites(s, t, r, id) && (r == Done ==> t.ledger.dumps[id] == s.ledger.dumps[id].(phase := Deleting, downloadable := false))
    ensures var (t, r) := s.Execute(ports, SetRetention(id, purgeAt), at);
            Rewrites(s, t, r, id) && (r == Done ==> t.ledger.dumps[id] == s.ledger.dumps[id].(purgeAt := Some(purgeAt)))
  {}

  /** Customers, cases and grants. */
  lemma CaseCommandsDecided(ports: Ports, w: World, id: CaseId, customerId: CustomerId, text: string, at: Time)
    requires Reachable(ports, w)
    ensures var s, l := w.store, w.store.ledger;
            && (s.Execute(ports, CreateCustomer(customerId, text), at).1 == Done <==> customerId !in l.customers)
            && (s.Execute(ports, CreateCase(id, customerId, text), at).1 == Done <==> id !in l.cases && customerId in l.customers)
            && (s.Execute(ports, MoveCase(id, StartEdge), at).1 == Done <==> id in l.cases && l.cases[id].status == New)
            && (s.Execute(ports, MoveCase(id, WaitEdge), at).1 == Done <==> id in l.cases && l.cases[id].status == Investigating)
            && (s.Execute(ports, MoveCase(id, ResumeEdge), at).1 == Done <==>
                  id in l.cases && l.cases[id].status in {WaitingForCustomer, CaseStatus.Resolved, Closed})
            && (s.Execute(ports, MoveCase(id, ResolveEdge), at).1 == Done <==>
                  id in l.cases && l.cases[id].status in {Investigating, WaitingForCustomer})
            && (s.Execute(ports, CloseCase(id), at).1.CaseClosed? <==> id in l.cases && l.cases[id].status == CaseStatus.Resolved)
  {
    hide Reachable;
  }

  lemma GrantCommandsDecided(ports: Ports, w: World, g: GrantId, caseId: CaseId, digest: Digest, expiresAt: Time, maxBytes: nat,
                             maxUploads: nat, at: Time)
    requires Reachable(ports, w)
    ensures var s, l := w.store, w.store.ledger;
            && (s.Execute(ports, IssueGrant(g, caseId, digest, expiresAt, maxBytes, maxUploads), at).1 == Done <==>
                  && maxBytes > 0 && at < expiresAt && 1 <= maxUploads <= 128
                  && caseId in l.cases && l.cases[caseId].status != Closed && g !in l.grants && Unheld(l, digest))
            && (s.Execute(ports, RevokeGrant(g), at).1 == Done <==> g in l.grants && l.grants[g].state == Issued)
            && (s.Execute(ports, ExpireGrant(g), at).1 == Done <==> g in l.grants && l.grants[g].state == Issued)
  {
    hide Reachable;
    ReachableInv(ports, w);
    if Unheld(w.store.ledger, digest) {
      NobodyFound(w.store.ledger, digest);
    } else {
      var h :| h in w.store.ledger.grants && w.store.ledger.grants[h].secretDigest == digest;
      assert h in w.store.ledger.HoldersOf(digest);
    }
  }

  /** What these commands make of their rows. */
  lemma CaseCommandsMove(ports: Ports, s: Store, id: CaseId, edge: CaseEdge, at: Time)
    ensures var (t, r) := s.Execute(ports, MoveCase(id, edge), at);
            && t.vault == s.vault && (r == Done || t == s)
            && (r == Done ==>
                  && id in s.ledger.cases && t.ledger.grants == s.ledger.grants && t.ledger.dumps == s.ledger.dumps
                  && t.ledger.cases == s.ledger.cases[id := s.ledger.cases[id].(status :=
                       if edge.StartEdge? || edge.ResumeEdge? then Investigating
                       else if edge.WaitEdge? then WaitingForCustomer else CaseStatus.Resolved)])
    ensures var (t, r) := s.Execute(ports, CloseCase(id), at);
            && t.vault == s.vault && (r.CaseClosed? || t == s)
            && (r.CaseClosed? ==>
                  && id in s.ledger.cases && t.ledger.cases == s.ledger.cases[id := s.ledger.cases[id].(status := Closed)]
                  && t.ledger.dumps == s.ledger.dumps && t.ledger.grants.Keys == s.ledger.grants.Keys
                  && (forall g :: g in s.ledger.grants ==>
                        t.ledger.grants[g] == if s.ledger.grants[g].caseId == id && s.ledger.grants[g].state == Issued
                                              then s.ledger.grants[g].(state := Revoked) else s.ledger.grants[g])
                  && (forall g :: g in r.revokedGrantIds <==>
                        g in s.ledger.grants && s.ledger.grants[g].caseId == id && s.ledger.grants[g].state == Issued))
  {}

  lemma GrantCommandsMove(ports: Ports, s: Store, g: GrantId, caseId: CaseId, digest: Digest, expiresAt: Time, maxBytes: nat,
                          maxUploads: nat, at: Time)
    ensures var (t, r) := s.Execute(ports, IssueGrant(g, caseId, digest, expiresAt, maxBytes, maxUploads), at);
            && (r == Done || t == s)
            && (r == Done ==> t.ledger.grants ==
                              s.ledger.grants[g := Grant(caseId, digest, Issued, expiresAt, maxBytes, maxUploads, 0, None, at)])
    ensures var (t, r) := s.Execute(ports, RevokeGrant(g), at);
            && (r == Done || t == s)
            && (r == Done ==> g in s.ledger.grants && t.ledger.grants == s.ledger.grants[g := s.ledger.grants[g].(state := Revoked)])
    ensures var (t, r) := s.Execute(ports, ExpireGrant(g), at);
            && (r == Done || t == s)
            && (r == Done ==> g in s.ledger.grants && t.ledger.grants == s.ledger.grants[g := s.ledger.grants[g].(state := Expired)])
  {}
}
