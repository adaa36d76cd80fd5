/** The upload session and the post-upload processor: the callers that drive one dump from its first byte to a verdict. */
module Intake {
  import opened Domain
  import opened Vaults
  import opened Ledgers
  import opened Engines
  import opened Coupling

  datatype UploadOutcome = Received(byteSize: nat, sha256: Digest) | NotBegun(code: ErrorCode) | TooLarge | Incomplete | Broken

  /** The bytes the vault holds for a dump, wherever a crash may have left them. */
  function HeldBytes(v: Vault, id: DumpId): seq<byte> {
    if id in v.objects then v.objects[id] else if id in v.staging then v.staging[id].Bytes() else []
  }

  predicate FailedUpload(s: Store, id: DumpId) {
    && id in s.ledger.dumps && s.ledger.dumps[id].phase == Rejected && s.ledger.dumps[id].validation == TransferFailed
    && id !in s.vault.staging && id !in s.vault.objects
  }

  predicate SealedUpload(ports: Ports, s: Store, id: DumpId, bytes: seq<byte>) {
    && id in s.ledger.dumps && s.ledger.dumps[id].phase == Sealed && s.ledger.dumps[id].byteSize == Some(|bytes|)
    && s.ledger.dumps[id].sha256 == Some(ports.hash(bytes))
    && id in s.vault.staging && !s.vault.staging[id].open && s.vault.staging[id].Bytes() == bytes
  }

  predicate ReceivingInto(s: Store, id: DumpId, bytes: seq<byte>) {
    && id in s.ledger.dumps && s.ledger.dumps[id].phase == Receiving && s.ledger.dumps[id].caseId in s.ledger.cases
    && id in s.vault.staging && s.vault.staging[id].open && s.vault.staging[id].Bytes() == bytes
    && id !in s.vault.objects
  }

  /** Dropping a receiving upload always leaves the byte-free rejected row. */
  method Abandon(engine: Engine, id: DumpId, at: Time) returns (ok: bool)
    requires id in engine.ledger.dumps && engine.ledger.dumps[id].phase == Receiving
    requires engine.ledger.dumps[id].caseId in engine.ledger.cases && id !in engine.vault.objects
    modifies engine.ledger, engine.vault
    ensures ok && FailedUpload(engine.State(), id)
    ensures SameElsewhere(old(engine.State()), engine.State(), id)
    ensures engine.State() == old(engine.State()).Execute(engine.ports, FailUpload(id), at).0
  {
    assert engine.State().ledger.TransitionDump(id, FailEdge, at).Ok?;
    var receipt := engine.FailUpload(id, at);
    ok := !receipt.Refused?;
  }

  /** The `write` callback over the arriving chunks: count first, refuse the chunk that passes the limit, then append. */
  method ReceiveChunks(engine: Engine, id: DumpId, maxBytes: nat, chunks: seq<seq<byte>>) returns (fits: bool, received: seq<byte>)
    requires ReceivingInto(engine.State(), id, [])
    modifies engine.vault
    ensures fits <==> |Concat(chunks)| <= maxBytes
    ensures fits ==> received == Concat(chunks) && ReceivingInto(engine.State(), id, received)
    ensures !fits ==> id in engine.vault.staging && ReceivingInto(engine.State(), id, engine.vault.staging[id].Bytes())
    ensures SameElsewhere(old(engine.State()), engine.State(), id)
    ensures engine.ledger.State() == old(engine.ledger.State())
  {
    var byteSize := 0;
    received := [];
    for k := 0 to |chunks|
      invariant received == Concat(chunks[..k]) && byteSize == |received| <= maxBytes
      invariant ReceivingInto(engine.State(), id, received)
      invariant SameElsewhere(old(engine.State()), engine.State(), id)
      invariant engine.ledger.State() == old(engine.ledger.State())
    {
      assert chunks[..k + 1] == chunks[..k] + [chunks[k]];
      ConcatSnoc(chunks[..k], chunks[k]);
      PrefixBound(chunks, k + 1);
      byteSize := byteSize + |chunks[k]|;
      if byteSize > maxBytes { return false, received; }
      ConcatSnoc(engine.vault.staging[id].chunks, chunks[k]);
      var appended := engine.vault.Append(id, chunks[k]);
      received := received + chunks[k];
    }
    assert chunks[..|chunks|] == chunks;
    fits := true;
  }

  lemma BegunReceives(ports: Ports, s: Store, id: DumpId, secretDigest: Digest, originalName: string, at: Time)
    requires Coupled(ports, s) && Unused(s, id)
    ensures var (t, receipt) := s.BeginUpload(id, secretDigest, originalName, at);
            && SameElsewhere(s, t, id)
            && (receipt.Refused? ==> Unused(t, id))
            && (!receipt.Refused? ==> receipt.Begun? && ReceivingInto(t, id, []))
  {}

  lemma Sealable(ports: Ports, s: Store, id: DumpId, bytes: seq<byte>, at: Time)
    requires ReceivingInto(s, id, bytes)
    ensures s.vault.SyncAndClose(id).Ok?
    ensures var (t, receipt) := s.(vault := s.vault.SyncAndClose(id).value).SealUpload(id, |bytes|, ports.hash(bytes), at);
            receipt == Done && SealedUpload(ports, t, id, bytes) && SameElsewhere(s, t, id)
  {}

  /** `UploadSession.receive`: whatever arrives, the dump ends sealed with exactly the bytes sent, within the grant's
      limit, or rejected with nothing stored. */
  method Receive(engine: Engine, id: DumpId, secretDigest: Digest, originalName: string, contentLength: Option<nat>,
                 chunks: seq<seq<byte>>, interrupted: bool, at: Time)
    returns (outcome: UploadOutcome, maxBytes: nat)
    requires Coupled(engine.ports, engine.State()) && Unused(engine.State(), id)
    modifies engine.ledger, engine.vault
    ensures SameElsewhere(old(engine.State()), engine.State(), id)
    ensures outcome.NotBegun? ==> Unused(engine.State(), id)
    ensures outcome.NotBegun? <==> old(engine.State()).BeginUpload(id, secretDigest, originalName, at).1.Refused?
    ensures !outcome.NotBegun? ==>
              old(engine.State()).BeginUpload(id, secretDigest, originalName, at).1.maxBytes == maxBytes
    ensures outcome.Received? ==>
              SealedUpload(engine.ports, engine.State(), id, Concat(chunks)) && outcome.byteSize == |Concat(chunks)| <= maxBytes
    ensures outcome.TooLarge? || outcome.Incomplete? ==> FailedUpload(engine.State(), id)
    ensures outcome.TooLarge? <==>
              (!outcome.NotBegun? && ((contentLength.Some? && contentLength.value > maxBytes) || |Concat(chunks)| > maxBytes))
    ensures outcome.Incomplete? <==> (!outcome.NotBegun? && !outcome.TooLarge? && interrupted)
    ensures outcome != Broken
  {
    hide Coupled, ReceivingInto, SealedUpload, FailedUpload, SameElsewhere, Unused, Store.BeginUpload, Store.SealUpload,
         Store.Execute, Concat;
    ghost var s := engine.State();
    BegunReceives(engine.ports, s, id, secretDigest, originalName, at);
    var begun := engine.BeginUpload(id, secretDigest, originalName, at);
    if begun.Refused? { return NotBegun(begun.code), 0; }
    maxBytes := begun.maxBytes;
    ghost var t := engine.State();
    if contentLength.Some? && contentLength.value > maxBytes {
      Abandonable(t, id, []);
      var ok := Abandon(engine, id, at);
      ElsewhereJoin(s, t, engine.State(), id);
      return if ok then TooLarge else Broken, maxBytes;
    }
    var fits, received := ReceiveChunks(engine, id, maxBytes, chunks);
    ghost var u := engine.State();
    ElsewhereJoin(s, t, u, id);
    if !fits || interrupted {
      Abandonable(u, id, if fits then received else engine.vault.staging[id].Bytes());
      var ok := Abandon(engine, id, at);
      ElsewhereJoin(s, u, engine.State(), id);
      return if !ok then Broken else if fits then Incomplete else TooLarge, maxBytes;
    }
    Sealable(engine.ports, u, id, received, at);
    var closed := engine.vault.SyncAndClose(id);
    var sha := engine.ports.hash(received);
    var sealedUp := engine.SealUpload(id, |received|, sha, at);
    ElsewhereJoin(s, u, engine.State(), id);
    outcome := if sealedUp.Refused? then Broken else Received(|received|, sha);
  }

  lemma ElsewhereJoin(s: Store, t: Store, u: Store, id: DumpId)
    requires SameElsewhere(s, t, id) && SameElsewhere(t, u, id)
    ensures SameElsewhere(s, u, id)
  {}

  lemma Abandonable(s: Store, id: DumpId, bytes: seq<byte>)
    requires ReceivingInto(s, id, bytes)
    ensures id in s.ledger.dumps && s.ledger.dumps[id].phase == Receiving && s.ledger.dumps[id].caseId in s.ledger.cases
    ensures id !in s.vault.objects
  {}

  predicate Verdict(ports: Ports, s: Store, id: DumpId, bytes: seq<byte>) {
    && id in s.ledger.dumps
    && (s.ledger.dumps[id].phase == Available <==> ports.inspect(bytes).Sound?)
    && (s.ledger.dumps[id].phase == Rejected <==> ports.inspect(bytes).Unsound?)
    && id in s.vault.objects && s.vault.objects[id] == bytes && id !in s.vault.staging
  }

  /** The two inspection commands settle a quarantined dump by its bytes. */
  method Judge(engine: Engine, id: DumpId, at: Time) returns (available: bool, thrown: bool)
    requires Coupled(engine.ports, engine.State()) && id in engine.ledger.dumps && engine.ledger.dumps[id].phase == Quarantined
    modifies engine.ledger
    ensures !thrown && Coupled(engine.ports, engine.State())
    ensures available <==> engine.ledger.dumps[id].phase == Available
    ensures Verdict(engine.ports, engine.State(), id, old(HeldBytes(engine.vault.State(), id)))
  {
    ghost var s := engine.State();
    assert RowCoupled(engine.ports, s.ledger.dumps[id], s.vault, id);
    InspectionKeepsCoupled(engine.ports, s, id, at);
    var accepted := engine.AcceptDump(id, at);
    if !accepted.Refused? { return true, false; }
    if accepted.code != InspectionOutcomeMismatch { return false, true; }
    InspectionKeepsCoupled(engine.ports, engine.State(), id, at);
    var rejected := engine.RejectDump(id, at);
    available, thrown := false, rejected.Refused?;
  }

  /** `EngineUploadPostProcessor.process`, resumable: from wherever a crash left a sealed upload, the verdict depends on
      its sealed bytes alone, and a dump already judged keeps its verdict. */
  method Process(engine: Engine, id: DumpId, at: Time) returns (available: bool, thrown: bool)
    requires Coupled(engine.ports, engine.State())
    modifies engine.ledger, engine.vault
    ensures Coupled(engine.ports, engine.State())
    ensures thrown <==>
              id !in old(engine.ledger.dumps) || old(engine.ledger.dumps)[id].phase !in {Sealed, Quarantined, Available, Rejected}
    ensures thrown ==> !available
    ensures !thrown ==> id in engine.ledger.dumps
    ensures !thrown ==> (available <==> engine.ledger.dumps[id].phase == Available)
    ensures !thrown ==> (!available <==> engine.ledger.dumps[id].phase == Rejected)
    ensures !thrown && old(engine.ledger.dumps)[id].phase in {Sealed, Quarantined} ==>
              Verdict(engine.ports, engine.State(), id, old(HeldBytes(engine.vault.State(), id)))
    ensures thrown || old(engine.ledger.dumps)[id].phase !in {Sealed, Quarantined} ==> engine.State() == old(engine.State())
  {
    available, thrown := false, false;
    ghost var s := engine.State();
    if id !in engine.ledger.dumps || engine.ledger.dumps[id].phase in {Receiving, Deleting, Deleted} { return false, true; }
    assert RowCoupled(engine.ports, s.ledger.dumps[id], s.vault, id);
    var d := engine.ledger.dumps[id];
    if d.phase == Available || d.phase == Rejected { return d.phase == Available, false; }
    if d.phase == Sealed {
      if d.blob == InStaging {
        assert s.vault.Promote(id).Ok? && s.ledger.TransitionDump(id, PromotedEdge, at).Ok?;
        PromoteKeepsCoupled(engine.ports, s, id, at);
        var promoted := engine.PromoteObject(id, at);
        if promoted.Refused? { return false, true; }
      }
      ghost var t := engine.State();
      assert RowCoupled(engine.ports, t.ledger.dumps[id], t.vault, id);
      assert t.ledger.TransitionDump(id, QuarantinedEdge, at).Ok?;
      QuarantineKeepsCoupled(engine.ports, t, id, at);
      var marked := engine.MarkQuarantined(id, at);
      if marked.Refused? { return false, true; }
    }
    available, thrown := Judge(engine, id, at);
  }
}
