/** Runs of the whole service: commands, interleaved uploads, import staging, orphan removal and crashes between
    any vault call and its transaction. Every reachable world keeps the coupling, and stored bytes keep their seal. */
module Runs {
  import opened Domain
  import opened Vaults
  import opened Ledgers
  import opened Engines
  import opened Coupling

  /** An upload in flight: the bytes counted and hashed so far, lost in a crash. */
  datatype Session = Session(grantId: GrantId, maxBytes: nat, received: seq<byte>, closed: bool, broken: bool)

  /** `uploadedUnder` is history: the grant each native upload was begun under. */
  datatype World = World(store: Store, sessions: map<DumpId, Session>, uploadedUnder: map<DumpId, GrantId>)

  function Restart(w: World): World {
    w.(store := w.store.(vault := w.store.vault.Restarted()), sessions := map[])
  }

  datatype Act =
    | Run(command: Command, at: Time)
    | CrashIn(command: Command, at: Time, vault: Vault)
    | OpenUpload(id: DumpId, secretDigest: Digest, originalName: string, at: Time)
    | WriteChunk(id: DumpId, bytes: seq<byte>)
    | TearChunk(id: DumpId, written: seq<byte>)
    | CloseUpload(id: DumpId)
    | SealSession(id: DumpId, at: Time)
    | AbortUpload(id: DumpId, at: Time)
    | StageImport(id: DumpId, row: Dump, chunks: seq<seq<byte>>, at: Time)
    | CrashStaging(id: DumpId, chunks: seq<seq<byte>>, at: Time)
    | DropStaging(id: DumpId)
    | Crash
  {
    /** Sealing and beginning belong to the upload session, staging available dumps to the import session; drawn ids are
        new, so no replayed event carries one of ours; recovery drops the staging of ids without a row, or of a receiving
        row it is about to fail. */
    ghost predicate Enabled(w: World) {
      match this
      case Run(command, _) =>
        && !command.BeginUpload? && !command.SealUpload? && !command.ImportDump?
        && (command.ImportAuditEvent? ==> command.event.eventId.origin != w.store.ledger.origin)
      case CrashIn(command, at, v) =>
        v in w.store.HalfDone(command, at) && (command.BeginUpload? ==> Unused(w.store, command.dumpId))
      case OpenUpload(id, _, _, _) => Unused(w.store, id)
      case StageImport(id, row, _, _) => Unused(w.store, id)
      case CrashStaging(id, _, _) => Unused(w.store, id)
      case DropStaging(id) => id !in w.sessions && (id in w.store.ledger.dumps ==> w.store.ledger.dumps[id].phase == Receiving)
      case _ => true
    }

    function Next(ports: Ports, w: World): World {
      match this
      case Run(command, at) => w.(store := w.store.Execute(ports, command, at).0)
      case CrashIn(_, _, v) => Restart(w.(store := w.store.(vault := v)))
      case OpenUpload(id, digest, name, at) => OpenSession(w, id, digest, name, at)
      case WriteChunk(id, bytes) => if id in w.sessions then ReceiveChunk(w, id, bytes) else w
      case TearChunk(id, written) => if id in w.sessions then Tear(w, id, written) else w
      case CloseUpload(id) => if id in w.sessions then CloseStaging(w, id) else w
      case SealSession(id, at) => if id in w.sessions then Seal(ports, w, id, at) else w
      case AbortUpload(id, at) =>
        if id in w.sessions then w.(store := w.store.FailUpload(id, at).0, sessions := w.sessions - {id}) else w
      case StageImport(id, row, chunks, at) => w.(store := StageDump(ports, w.store, id, row, chunks, at).0)
      case CrashStaging(id, chunks, at) =>
        Restart(w.(store := w.store.(vault := w.store.vault.(staging := w.store.vault.staging[id := StagingObject(chunks, at, true)]))))
      case DropStaging(id) => w.(store := w.store.(vault := w.store.vault.RemoveStaging(id)))
      case Crash => Restart(w)
    }
  }

  function OpenSession(w: World, id: DumpId, digest: Digest, name: string, at: Time): World {
    var (store, receipt) := w.store.BeginUpload(id, digest, name, at);
    match receipt
    case Begun(_, grantId, maxBytes) =>
      World(store, w.sessions[id := Session(grantId, maxBytes, [], false, false)], w.uploadedUnder[id := grantId])
    case _ => w.(store := store)
  }

  /** The `write` callback: count, bound, hash, append. */
  function ReceiveChunk(w: World, id: DumpId, bytes: seq<byte>): World
    requires id in w.sessions
  {
    var s := w.sessions[id];
    if s.broken || s.closed then w
    else if |s.received| + |bytes| > s.maxBytes then w.(sessions := w.sessions[id := s.(broken := true)])
    else
      match w.store.vault.Append(id, bytes)
      case Err(_) => w.(sessions := w.sessions[id := s.(broken := true)])
      case Ok(v) =>
        w.(store := w.store.(vault := v), sessions := w.sessions[id := s.(received := s.received + bytes)])
  }

  /** An append that failed after writing part of its chunk. */
  function Tear(w: World, id: DumpId, written: seq<byte>): World
    requires id in w.sessions
  {
    var s := w.sessions[id];
    if s.broken || s.closed then w
    else
      match w.store.vault.Append(id, written)
      case Err(_) => w.(sessions := w.sessions[id := s.(broken := true)])
      case Ok(v) => w.(store := w.store.(vault := v), sessions := w.sessions[id := s.(broken := true)])
  }

  function CloseStaging(w: World, id: DumpId): World
    requires id in w.sessions
  {
    var s := w.sessions[id];
    if s.broken then w
    else
      match w.store.vault.SyncAndClose(id)
      case Err(_) => w.(sessions := w.sessions[id := s.(broken := true)])
      case Ok(v) => w.(store := w.store.(vault := v), sessions := w.sessions[id := s.(closed := true)])
  }

  function Seal(ports: Ports, w: World, id: DumpId, at: Time): World
    requires id in w.sessions
  {
    var s := w.sessions[id];
    if s.broken || !s.closed then w
    else
      var (store, receipt) := w.store.SealUpload(id, |s.received|, ports.hash(s.received), at);
      if receipt == Done then w.(store := store, sessions := w.sessions - {id})
      else w.(store := store, sessions := w.sessions[id := s.(broken := true)])
  }

  const IMPORT_HASH_MISMATCH := "import sha256 mismatch"

  function MismatchRecord(row: Dump): Dump {
    Dump(row.caseId, Rejected, NoBlob, row.originalName, row.byteSize, row.sha256, TransferFailed, None, false,
         Some(IMPORT_HASH_MISMATCH), None, row.receivedAt, None, row.purgeAt, None)
  }

  datatype Disposition = Staged | Mismatch | TombstoneRejected | TombstoneDeleted | Failed(code: ErrorCode)

  /** `stageDump`: stream an available dump's bytes through the hash into staging, then land its row. */
  function StageDump(ports: Ports, s: Store, id: DumpId, row: Dump, chunks: seq<seq<byte>>, at: Time): (Store, Disposition) {
    var bytes := Concat(chunks);
    if row.phase == Available then
      if row.byteSize.None? || row.sha256.None? then (s, Failed(IntegrityFailure))
      else if |bytes| != row.byteSize.value then
        Landed(s.Execute(ports, ImportDump(id, MismatchRecord(row)), at), Mismatch)
      else
        match s.vault.CreateStaging(id, at)
        case Err(e) => (s, Failed(e))
        case Ok(_) =>
          if ports.hash(bytes) != row.sha256.value then
            Landed(s.(vault := s.vault.RemoveStaging(id)).Execute(ports, ImportDump(id, MismatchRecord(row)), at), Mismatch)
          else
            var closed := s.vault.(staging := s.vault.staging[id := StagingObject(chunks, at, false)]);
            Landed(s.(vault := closed).Execute(ports, ImportDump(id, row), at), Staged)
    else if row.phase == Rejected then Landed(s.Execute(ports, ImportDump(id, row), at), TombstoneRejected)
    else if row.phase == Deleted then Landed(s.Execute(ports, ImportDump(id, row), at), TombstoneDeleted)
    else (s, Failed(InvalidTransition))
  }

  function Landed(outcome: (Store, Receipt), disposition: Disposition): (Store, Disposition) {
    (outcome.0, if outcome.1.Refused? then Failed(outcome.1.code) else disposition)
  }

  /** A live session still owns exactly the bytes it counted, within its grant's bound. */
  ghost predicate SessionOwns(w: World, id: DumpId) {
    id in w.sessions ==>
      var s := w.sessions[id];
      && id in w.store.ledger.dumps && id in w.uploadedUnder
      && s.grantId == w.uploadedUnder[id] && s.grantId in w.store.ledger.grants
      && s.maxBytes == w.store.ledger.grants[s.grantId].maxBytes
      && |s.received| <= s.maxBytes
      && (!s.broken && id in w.store.vault.staging ==>
            && w.store.ledger.dumps[id].phase == Receiving
            && w.store.vault.staging[id].Bytes() == s.received
            && (s.closed ==> !w.store.vault.staging[id].open))
  }

  /** A native dump keeps its grant's case and never outgrows its grant's byte limit. */
  ghost predicate WithinGrant(w: World, id: DumpId) {
    id in w.uploadedUnder ==>
      && id in w.store.ledger.dumps && w.uploadedUnder[id] in w.store.ledger.grants
      && var g := w.store.ledger.grants[w.uploadedUnder[id]];
         && w.store.ledger.dumps[id].caseId == g.caseId
         && (w.store.ledger.dumps[id].byteSize.Some? ==> w.store.ledger.dumps[id].byteSize.value <= g.maxBytes)
  }

  ghost predicate Inv(ports: Ports, w: World) {
    && Coupled(ports, w.store)
    && (forall id :: SessionOwns(w, id))
    && (forall id :: WithinGrant(w, id))
  }

  ghost predicate Reaches(ports: Ports, w: World, acts: seq<Act>, end: World)
    decreases |acts|
  {
    if acts == [] then end == w
    else acts[0].Enabled(w) && Reaches(ports, acts[0].Next(ports, w), acts[1..], end)
  }

  function EmptyWorld(origin: nat): World {
    World(Store(EmptyLedger(origin), Vault(map[], map[])), map[], map[])
  }

  ghost predicate Reachable(ports: Ports, w: World) {
    exists origin, acts :: Reaches(ports, EmptyWorld(origin), acts, w)
  }
}
