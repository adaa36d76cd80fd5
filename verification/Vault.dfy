/** Byte storage: staging objects being written and immutable vault objects.
    `Vault` is the durable state and the effect of each call; `MemoryVault` performs the calls in place. */
module Vaults {
  import opened Domain

  datatype StagingObject = StagingObject(chunks: seq<seq<byte>>, createdAt: Time, open: bool) {
    function Bytes(): seq<byte> {
      Concat(chunks)
    }
  }

  datatype Presence = Presence(staging: bool, vault: bool)

  function Concat(chunks: seq<seq<byte>>): seq<byte> {
    if chunks == [] then [] else chunks[0] + Concat(chunks[1..])
  }

  lemma {:induction false} ConcatSnoc(chunks: seq<seq<byte>>, last: seq<byte>)
    ensures Concat(chunks + [last]) == Concat(chunks) + last
  {
    if chunks == [] {
      assert Concat([last]) == last + Concat([]);
    } else {
      assert (chunks + [last])[1..] == chunks[1..] + [last];
      ConcatSnoc(chunks[1..], last);
    }
  }

  datatype Vault = Vault(staging: map<DumpId, StagingObject>, objects: map<DumpId, seq<byte>>) {
    function Inspect(id: DumpId): Presence {
      Presence(id in staging, id in objects)
    }

    function CreateStaging(id: DumpId, at: Time): Result<Vault> {
      if id in staging || id in objects then Err(IntegrityFailure)
      else Ok(this.(staging := staging[id := StagingObject([], at, true)]))
    }

    function Append(id: DumpId, bytes: seq<byte>): Result<Vault> {
      if id !in staging || !staging[id].open then Err(InvalidTransition)
      else Ok(this.(staging := staging[id := staging[id].(chunks := staging[id].chunks + [bytes])]))
    }

    function SyncAndClose(id: DumpId): Result<Vault> {
      if id !in staging then Err(StorageUnavailable)
      else Ok(this.(staging := staging[id := staging[id].(open := false)]))
    }

    function Promote(id: DumpId): Result<Vault> {
      if id !in staging then
        if id in objects then Ok(this) else Err(StorageUnavailable)
      else if staging[id].open then Err(InvalidTransition)
      else if id in objects then Err(IntegrityFailure)
      else Ok(Vault(staging - {id}, objects[id := staging[id].Bytes()]))
    }

    function RemoveStaging(id: DumpId): Vault {
      this.(staging := staging - {id})
    }

    function Remove(id: DumpId): Vault {
      Vault(staging - {id}, objects - {id})
    }

    /** What a process restart leaves: every object survives, every open handle is gone. */
    function Restarted(): Vault {
      this.(staging := map id | id in staging :: staging[id].(open := false))
    }
  }

  class MemoryVault {
    var staging: map<DumpId, StagingObject>
    var objects: map<DumpId, seq<byte>>

    function State(): Vault
      reads this
    {
      Vault(staging, objects)
    }

    constructor ()
      ensures State() == Vault(map[], map[])
    {
      staging, objects := map[], map[];
    }

    method CreateStaging(id: DumpId, at: Time) returns (r: Result<()>)
      modifies this
      ensures match old(State()).CreateStaging(id, at)
              case Ok(v) => r == Ok(()) && State() == v
              case Err(e) => r == Err(e) && State() == old(State())
    {
      if id in staging || id in objects { return Err(IntegrityFailure); }
      staging := staging[id := StagingObject([], at, true)];
      r := Ok(());
    }

    method Append(id: DumpId, bytes: seq<byte>) returns (r: Result<()>)
      modifies this
      ensures match old(State()).Append(id, bytes)
              case Ok(v) => r == Ok(()) && State() == v
              case Err(e) => r == Err(e) && State() == old(State())
    {
      if id !in staging || !staging[id].open { return Err(InvalidTransition); }
      var open := staging[id];
      staging := staging[id := open.(chunks := open.chunks + [bytes])];
      r := Ok(());
    }

    method SyncAndClose(id: DumpId) returns (r: Result<()>)
      modifies this
      ensures match old(State()).SyncAndClose(id)
              case Ok(v) => r == Ok(()) && State() == v
              case Err(e) => r == Err(e) && State() == old(State())
    {
      if id !in staging { return Err(StorageUnavailable); }
      staging := staging[id := staging[id].(open := false)];
      r := Ok(());
    }

    method Promote(id: DumpId) returns (r: Result<()>)
      modifies this
      ensures match old(State()).Promote(id)
              case Ok(v) => r == Ok(()) && State() == v
              case Err(e) => r == Err(e) && State() == old(State())
    {
      if id !in staging {
        return if id in objects then Ok(()) else Err(StorageUnavailable);
      }
      if staging[id].open { return Err(InvalidTransition); }
      if id in objects { return Err(IntegrityFailure); }
      var bytes := Concatenate(staging[id].chunks);
      objects := objects[id := bytes];
      staging := staging - {id};
      r := Ok(());
    }

    method RemoveStaging(id: DumpId)
      modifies this
      ensures State() == old(State()).RemoveStaging(id)
    {
      staging := staging - {id};
    }

    method Remove(id: DumpId)
      modifies this
      ensures State() == old(State()).Remove(id)
    {
      staging := staging - {id};
      objects := objects - {id};
    }
  }

  /** Joins the chunks by filling one preallocated buffer, as `concatenate` does. */
  method Concatenate(chunks: seq<seq<byte>>) returns (result: seq<byte>)
    ensures result == Concat(chunks)
  {
    var total := 0;
    for k := 0 to |chunks|
      invariant total == |Concat(chunks[..k])|
    {
      assert chunks[..k + 1] == chunks[..k] + [chunks[k]];
      ConcatSnoc(chunks[..k], chunks[k]);
      total := total + |chunks[k]|;
    }
    assert chunks[..|chunks|] == chunks;
    var buffer := new byte[total];
    var offset := 0;
    for k := 0 to |chunks|
      invariant offset == |Concat(chunks[..k])| <= total
      invariant buffer[..offset] == Concat(chunks[..k])
    {
      assert chunks[..k + 1] == chunks[..k] + [chunks[k]];
      ConcatSnoc(chunks[..k], chunks[k]);
      PrefixBound(chunks, k + 1);
      ghost var before := buffer[..offset];
      for i := 0 to |chunks[k]|
        invariant buffer[..offset] == before
        invariant buffer[offset..offset + i] == chunks[k][..i]
      {
        buffer[offset + i] := chunks[k][i];
        assert buffer[offset..offset + i + 1] == buffer[offset..offset + i] + [chunks[k][i]];
      }
      assert buffer[..offset + |chunks[k]|] == buffer[..offset] + buffer[offset..offset + |chunks[k]|];
      offset := offset + |chunks[k]|;
    }
    assert chunks[..|chunks|] == chunks;
    result := buffer[..];
  }

  lemma {:induction false} PrefixBound(chunks: seq<seq<byte>>, k: nat)
    requires k <= |chunks|
    ensures |Concat(chunks[..k])| <= |Concat(chunks)|
    decreases |chunks| - k
  {
    if k == |chunks| {
      assert chunks[..k] == chunks;
    } else {
      assert chunks[..k + 1] == chunks[..k] + [chunks[k]];
      ConcatSnoc(chunks[..k], chunks[k]);
      PrefixBound(chunks, k + 1);
    }
  }
}
