/** The fixed-window limiter: bounded memory, and at most twice the limit in any interval of one window. */
module RateLimiter {
  import opened Domain

  datatype Options = Options(limit: nat, window: nat, maxKeys: nat) {
    predicate Valid() {
      limit >= 1 && window >= 1 && maxKeys >= 1
    }
  }

  datatype Window = Window(startedAt: Time, attempts: nat, lastSeenAt: Time)

  /** The entries, and the insertion order in which the map is walked. */
  datatype Table = Table(entries: map<string, Window>, order: seq<string>) {
    ghost predicate Valid() {
      && (forall k :: k in order <==> k in entries)
      && (forall i, j :: 0 <= i < j < |order| ==> order[i] != order[j])
    }

    function Removed(k: string): Table {
      Table(entries - {k}, Without(order, k))
    }

    function Set(k: string, w: Window): Table {
      Table(entries[k := w], if k in entries then order else order + [k])
    }
  }

  function Without(order: seq<string>, k: string): (r: seq<string>)
    ensures forall x :: x in r <==> x in order && x != k
    ensures |r| <= |order|
  {
    if order == [] then [] else (if order[0] == k then [] else [order[0]]) + Without(order[1..], k)
  }

  lemma {:induction false} WithoutKeepsDistinct(order: seq<string>, k: string)
    requires forall i, j :: 0 <= i < j < |order| ==> order[i] != order[j]
    ensures forall i, j :: 0 <= i < j < |Without(order, k)| ==> Without(order, k)[i] != Without(order, k)[j]
  {
    if order != [] {
      var rest := Without(order[1..], k);
      WithoutKeepsDistinct(order[1..], k);
      assert forall i :: 0 <= i < |rest| ==> rest[i] in rest;
      assert order[0] !in order[1..];
    }
  }

  lemma RemovedValid(t: Table, k: string)
    requires t.Valid()
    ensures t.Removed(k).Valid()
  {
    WithoutKeepsDistinct(t.order, k);
  }

  predicate Over(w: Window, window: nat, now: Time) {
    now >= w.startedAt + window
  }

  /** `#prune` over the keys as they were listed. */
  function Prune(t: Table, keys: seq<string>, window: nat, now: Time): Table
    decreases |keys|
  {
    if keys == [] then t
    else Prune(if keys[0] in t.entries && Over(t.entries[keys[0]], window, now) then t.Removed(keys[0]) else t, keys[1..], window, now)
  }

  /** The first of the least recently seen keys, in insertion order. */
  function OldestIn(t: Table, keys: seq<string>): (r: Option<string>)
    requires forall k :: k in keys ==> k in t.entries
    ensures r.None? <==> keys == []
    ensures r.Some? ==> r.value in keys && forall k :: k in keys ==> t.entries[r.value].lastSeenAt <= t.entries[k].lastSeenAt
  {
    if keys == [] then None
    else
      var rest := OldestIn(t, keys[1..]);
      if rest.Some? && t.entries[rest.value].lastSeenAt < t.entries[keys[0]].lastSeenAt then rest else Some(keys[0])
  }

  function Pruned(t: Table, options: Options, now: Time): Table {
    Prune(t, t.order, options.window, now)
  }

  /** The key a take evicts, if any. */
  function Victim(t: Table, options: Options, key: string, now: Time): Option<string>
    requires Pruned(t, options, now).Valid()
  {
    var p := Pruned(t, options, now);
    if key in p.entries || |p.entries| < options.maxKeys then None else OldestIn(p, p.order)
  }

  /** `take`. */
  function Take(t: Table, options: Options, key: string, now: Time): (Table, bool)
    requires Pruned(t, options, now).Valid()
  {
    var p := Pruned(t, options, now);
    if key in p.entries then
      var w := p.entries[key];
      (p.Set(key, Window(w.startedAt, w.attempts + 1, now)), w.attempts < options.limit)
    else
      var victim := Victim(t, options, key, now);
      ((if victim.Some? then p.Removed(victim.value) else p).Set(key, Window(now, 1, now)), true)
  }

  /** Pruning drops exactly the keys whose window is over. */
  lemma {:induction false} PruneIsExact(t: Table, keys: seq<string>, window: nat, now: Time)
    requires t.Valid()
    ensures var p := Prune(t, keys, window, now);
            && p.Valid()
            && (forall k :: k in p.entries <==> k in t.entries && !(k in keys && Over(t.entries[k], window, now)))
            && (forall k :: k in p.entries ==> p.entries[k] == t.entries[k])
            && |p.entries| <= |t.entries|
    decreases |keys|
  {
    hide Over;
    if keys != [] {
      var next := if keys[0] in t.entries && Over(t.entries[keys[0]], window, now) then t.Removed(keys[0]) else t;
      RemovedValid(t, keys[0]);
      FewerEntries(t, keys[0]);
      PruneIsExact(next, keys[1..], window, now);
      assert forall k :: k in keys <==> k == keys[0] || k in keys[1..];
    }
  }

  lemma FewerEntries(t: Table, k: string)
    ensures |t.Removed(k).entries| <= |t.entries|
    ensures k in t.entries ==> |t.Removed(k).entries| == |t.entries| - 1
  {
    var m := t.entries - {k};
    assert m.Keys == t.entries.Keys - {k};
    if k !in t.entries {
      assert m == t.entries;
    }
  }

  lemma PrunedFacts(t: Table, options: Options, now: Time)
    requires t.Valid()
    ensures var p := Pruned(t, options, now);
            && p.Valid() && |p.entries| <= |t.entries|
            && (forall k :: k in p.entries <==> k in t.entries && !Over(t.entries[k], options.window, now))
            && (forall k :: k in p.entries ==> p.entries[k] == t.entries[k])
  {
    PruneIsExact(t, t.order, options.window, now);
  }

  lemma SetValid(t: Table, k: string, w: Window)
    requires t.Valid()
    ensures t.Set(k, w).Valid()
    ensures |t.Set(k, w).entries| == |t.entries| + if k in t.entries then 0 else 1
  {
    var m := t.entries[k := w];
    assert m.Keys == t.entries.Keys + {k};
  }

  lemma NotEmpty(t: Table)
    requires t.Valid() && |t.entries| >= 1
    ensures t.order != []
  {
    assert |t.entries| == |t.entries.Keys|;
    var k :| k in t.entries;
    assert k in t.order;
  }

  /** However the clock moves, the table never holds more than `maxKeys` entries. */
  lemma TableStaysBounded(t: Table, options: Options, key: string, now: Time)
    requires options.Valid() && t.Valid() && |t.entries| <= options.maxKeys
    ensures Pruned(t, options, now).Valid()
    ensures var after := Take(t, options, key, now).0;
            after.Valid() && |after.entries| <= options.maxKeys && key in after.entries
  {
    PrunedFacts(t, options, now);
    var p := Pruned(t, options, now);
    if key in p.entries {
      SetValid(p, key, Window(p.entries[key].startedAt, p.entries[key].attempts + 1, now));
    } else {
      var victim := Victim(t, options, key, now);
      if |p.entries| >= options.maxKeys { NotEmpty(p); }
      if victim.Some? {
        RemovedValid(p, victim.value);
        FewerEntries(p, victim.value);
      }
      SetValid(if victim.Some? then p.Removed(victim.value) else p, key, Window(now, 1, now));
    }
  }

  lemma PruneUnfolds(t: Table, keys: seq<string>, i: nat, window: nat, now: Time)
    requires i < |keys|
    ensures Prune(t, keys[i..], window, now) ==
            Prune(if keys[i] in t.entries && Over(t.entries[keys[i]], window, now) then t.Removed(keys[i]) else t, keys[i + 1..], window, now)
  {
    assert keys[i..][1..] == keys[i + 1..];
  }

  lemma PruneNothing(t: Table, window: nat, now: Time)
    ensures Prune(t, [], window, now) == t
  {}

  class FixedWindowRateLimiter {
    const options: Options
    var entries: map<string, Window>
    var order: seq<string>

    function State(): Table
      reads this
    {
      Table(entries, order)
    }

    ghost predicate Valid()
      reads this
    {
      options.Valid() && State().Valid() && |entries| <= options.maxKeys
    }

    constructor (options: Options)
      requires options.Valid()
      ensures Valid() && this.options == options && entries == map[]
    {
      this.options := options;
      entries, order := map[], [];
    }

    method Delete(k: string)
      modifies this
      ensures State() == old(State()).Removed(k)
    {
      entries := entries - {k};
      order := Without(order, k);
    }

    method PruneEntries(now: Time)
      requires State().Valid()
      modifies this
      ensures State() == Pruned(old(State()), options, now)
    {
      hide Prune, Without;
      var keys := order;
      ghost var before := State();
      assert keys[0..] == keys;
      for i := 0 to |keys|
        invariant Prune(before, keys, options.window, now) == Prune(State(), keys[i..], options.window, now)
      {
        PruneUnfolds(State(), keys, i, options.window, now);
        if keys[i] in entries && now >= entries[keys[i]].startedAt + options.window { Delete(keys[i]); }
      }
      assert keys[|keys|..] == [];
      PruneNothing(State(), options.window, now);
    }

    /** The scan keeps the first strictly smaller `lastSeenAt`. */
    method EvictOldest()
      requires State().Valid() && order != []
      modifies this
      ensures State() == old(State()).Removed(OldestIn(old(State()), old(order)).value)
    {
      var oldest := order[0];
      for i := 1 to |order|
        invariant State() == old(State())
        invariant oldest in order[..i]
        invariant forall j :: 0 <= j < i ==> entries[oldest].lastSeenAt <= entries[order[j]].lastSeenAt
        invariant forall j :: 0 <= j < i && order[j] != oldest && entries[order[j]].lastSeenAt == entries[oldest].lastSeenAt ==> oldest in order[..j]
      {
        if entries[order[i]].lastSeenAt < entries[oldest].lastSeenAt { oldest := order[i]; }
        assert order[..i + 1] == order[..i] + [order[i]];
      }
      assert order[..|order|] == order;
      FirstOldest(State(), order, oldest);
      Delete(oldest);
    }

    method TakeOne(key: string, now: Time) returns (admitted: bool)
      requires Valid()
      modifies this
      ensures Valid() && Pruned(old(State()), options, now).Valid()
      ensures var taken := Take(old(State()), options, key, now);
              State() == taken.0 && admitted == taken.1
    {
      TableStaysBounded(State(), options, key, now);
      PruneEntries(now);
      if key in entries {
        var w := entries[key];
        entries := entries[key := Window(w.startedAt, w.attempts + 1, now)];
        return w.attempts < options.limit;
      }
      if |entries| >= options.maxKeys {
        NotEmpty(State());
        EvictOldest();
      }
      order := order + [key];
      entries := entries[key := Window(now, 1, now)];
      admitted := true;
    }
  }

  lemma {:induction false} FirstOldest(t: Table, keys: seq<string>, oldest: string)
    requires (forall k :: k in keys ==> k in t.entries) && (forall i, j :: 0 <= i < j < |keys| ==> keys[i] != keys[j])
    requires oldest in keys && forall j :: 0 <= j < |keys| ==> t.entries[oldest].lastSeenAt <= t.entries[keys[j]].lastSeenAt
    requires forall j :: 0 <= j < |keys| && keys[j] != oldest && t.entries[keys[j]].lastSeenAt == t.entries[oldest].lastSeenAt ==> oldest in keys[..j]
    ensures OldestIn(t, keys) == Some(oldest)
    decreases |keys|
  {
    var rest := keys[1..];
    if keys[0] != oldest {
      forall j | 0 <= j < |rest| && rest[j] != oldest && t.entries[rest[j]].lastSeenAt == t.entries[oldest].lastSeenAt
        ensures oldest in rest[..j]
      {
        assert rest[j] == keys[j + 1] && keys[..j + 1] == [keys[0]] + rest[..j];
      }
      assert forall j :: 0 <= j < |rest| ==> rest[j] == keys[j + 1];
      FirstOldest(t, rest, oldest);
      assert t.entries[oldest].lastSeenAt < t.entries[keys[0]].lastSeenAt;
    } else {
      var r := OldestIn(t, rest);
      assert r.Some? ==> r.value in keys;
    }
  }

  // ---- one key over a whole run ----

  datatype Attempt = Attempt(key: string, at: Time)

  predicate NonDecreasing(attempts: seq<Attempt>) {
    forall i, j :: 0 <= i <= j < |attempts| ==> attempts[i].at <= attempts[j].at
  }

  /** No take of the run evicts `key`. */
  predicate NeverEvicted(t: Table, options: Options, attempts: seq<Attempt>, key: string)
    requires options.Valid() && t.Valid() && |t.entries| <= options.maxKeys
    decreases |attempts|
  {
    attempts == [] ||
    (TableStaysBounded(t, options, attempts[0].key, attempts[0].at);
     Victim(t, options, attempts[0].key, attempts[0].at) != Some(key)
     && NeverEvicted(Take(t, options, attempts[0].key, attempts[0].at).0, options, attempts[1..], key))
  }

  /** How many attempts of `key` between `from` and `to`, both included, were admitted. */
  function Admitted(t: Table, options: Options, attempts: seq<Attempt>, key: string, from: Time, to: Time): nat
    requires options.Valid() && t.Valid() && |t.entries| <= options.maxKeys
    decreases |attempts|
  {
    if attempts == [] then 0
    else
      TableStaysBounded(t, options, attempts[0].key, attempts[0].at);
      var (next, admitted) := Take(t, options, attempts[0].key, attempts[0].at);
      (if admitted && attempts[0].key == key && from <= attempts[0].at <= to then 1 else 0)
      + Admitted(next, options, attempts[1..], key, from, to)
  }

  /** What the key's current window still admits. */
  function Room(t: Table, options: Options, key: string): nat {
    if key in t.entries && t.entries[key].attempts < options.limit then options.limit - t.entries[key].attempts else 0
  }

  /** What a take does to one key. */
  lemma TakeAt(t: Table, options: Options, a: Attempt, key: string)
    requires options.Valid() && t.Valid() && |t.entries| <= options.maxKeys
    ensures Pruned(t, options, a.at).Valid()
    ensures Victim(t, options, a.key, a.at) != Some(key) ==>
              var (next, admitted) := Take(t, options, a.key, a.at);
              var open := key in t.entries && !Over(t.entries[key], options.window, a.at);
              if a.key != key then
                (key in next.entries <==> open) && (open ==> next.entries[key] == t.entries[key])
              else if open then
                key in next.entries && admitted == (t.entries[key].attempts < options.limit) &&
                next.entries[key].startedAt == t.entries[key].startedAt && next.entries[key].attempts == t.entries[key].attempts + 1
              else
                key in next.entries && admitted && next.entries[key].startedAt == a.at && next.entries[key].attempts == 1
  {
    hide Over;
    PrunedFacts(t, options, a.at);
  }

  lemma {:induction false} NoneAfter(t: Table, options: Options, attempts: seq<Attempt>, key: string, from: Time, to: Time)
    requires options.Valid() && t.Valid() && |t.entries| <= options.maxKeys
    requires forall i :: 0 <= i < |attempts| ==> attempts[i].at > to
    ensures Admitted(t, options, attempts, key, from, to) == 0
    decreases |attempts|
  {
    hide Table.Valid;
    if attempts != [] {
      TableStaysBounded(t, options, attempts[0].key, attempts[0].at);
      NoneAfter(Take(t, options, attempts[0].key, attempts[0].at).0, options, attempts[1..], key, from, to);
    }
  }

  /** Up to the end of the key's current window, only its remaining room is admitted. */
  lemma {:induction false} WithinOneWindow(t: Table, options: Options, attempts: seq<Attempt>, key: string, from: Time, to: Time)
    requires options.Valid() && t.Valid() && |t.entries| <= options.maxKeys
    requires NonDecreasing(attempts) && NeverEvicted(t, options, attempts, key)
    requires key in t.entries && to < t.entries[key].startedAt + options.window
    ensures Admitted(t, options, attempts, key, from, to) <= Room(t, options, key)
    decreases |attempts|
  {
    hide Table.Valid, Take, Victim, Pruned;
    if attempts != [] {
      var a := attempts[0];
      TableStaysBounded(t, options, a.key, a.at);
      TakeAt(t, options, a, key);
      var next := Take(t, options, a.key, a.at).0;
      assert forall i, j :: 0 <= i <= j < |attempts[1..]| ==> attempts[1..][i] == attempts[i + 1] && attempts[1..][j] == attempts[j + 1];
      if a.at > to {
        NoneAfter(next, options, attempts[1..], key, from, to);
      } else {
        WithinOneWindow(next, options, attempts[1..], key, from, to);
      }
    }
  }

  /** Up to the end of the window after the current one, the remaining room and one more limit are admitted. */
  lemma {:induction false} WithinTwoWindows(t: Table, options: Options, attempts: seq<Attempt>, key: string, from: Time, to: Time, start: Time)
    requires options.Valid() && t.Valid() && |t.entries| <= options.maxKeys
    requires NonDecreasing(attempts) && NeverEvicted(t, options, attempts, key)
    requires to < start + 2 * options.window
    requires if key in t.entries then t.entries[key].startedAt == start
             else forall i :: 0 <= i < |attempts| ==> attempts[i].at >= start + options.window
    ensures Admitted(t, options, attempts, key, from, to) <= Room(t, options, key) + options.limit
    decreases |attempts|
  {
    hide Table.Valid, Take, Victim, Pruned;
    if attempts != [] {
      var a := attempts[0];
      TableStaysBounded(t, options, a.key, a.at);
      TakeAt(t, options, a, key);
      var next := Take(t, options, a.key, a.at).0;
      assert forall i, j :: 0 <= i <= j < |attempts[1..]| ==> attempts[1..][i] == attempts[i + 1] && attempts[1..][j] == attempts[j + 1];
      assert forall i :: 0 <= i < |attempts| ==> a.at <= attempts[i].at;
      if key in next.entries && next.entries[key].startedAt != start {
        WithinOneWindow(next, options, attempts[1..], key, from, to);
      } else {
        WithinTwoWindows(next, options, attempts[1..], key, from, to, start);
      }
    }
  }

  /** With a clock that never goes back, a key that is not evicted is admitted at most twice the limit in any interval of one
      window length, both ends included. */
  lemma {:induction false} AtMostTwiceTheLimit(t: Table, options: Options, attempts: seq<Attempt>, key: string, from: Time, to: Time)
    requires options.Valid() && t.Valid() && |t.entries| <= options.maxKeys
    requires NonDecreasing(attempts) && NeverEvicted(t, options, attempts, key) && to <= from + options.window
    requires forall k :: k in t.entries && attempts != [] ==> t.entries[k].startedAt <= attempts[0].at
    requires forall k :: k in t.entries ==> t.entries[k].attempts >= 1
    ensures Admitted(t, options, attempts, key, from, to) <= 2 * options.limit
    decreases |attempts|
  {
    hide Table.Valid, Take, Victim, Pruned;
    if attempts != [] {
      var a := attempts[0];
      TableStaysBounded(t, options, a.key, a.at);
      TakeAt(t, options, a, key);
      var next := Take(t, options, a.key, a.at).0;
      assert forall i, j :: 0 <= i <= j < |attempts[1..]| ==> attempts[1..][i] == attempts[i + 1] && attempts[1..][j] == attempts[j + 1];
      if a.key == key && from <= a.at {
        WithinTwoWindows(next, options, attempts[1..], key, from, to, next.entries[key].startedAt);
      } else {
        StartsStay(t, options, a, attempts);
        AtMostTwiceTheLimit(next, options, attempts[1..], key, from, to);
      }
    }
  }

  lemma StartsStay(t: Table, options: Options, a: Attempt, attempts: seq<Attempt>)
    requires options.Valid() && t.Valid() && |t.entries| <= options.maxKeys && attempts != [] && a == attempts[0] && NonDecreasing(attempts)
    requires forall k :: k in t.entries ==> t.entries[k].startedAt <= a.at && t.entries[k].attempts >= 1
    ensures Pruned(t, options, a.at).Valid()
    ensures var next := Take(t, options, a.key, a.at).0;
            forall k :: k in next.entries ==> next.entries[k].startedAt <= a.at && next.entries[k].attempts >= 1
  {
    PrunedFacts(t, options, a.at);
  }

  // ---- who is admitted ----

  /** A key without an open window is admitted, and so is one whose window has admitted fewer attempts than the limit. */
  lemma AdmissionDecided(t: Table, options: Options, key: string, now: Time)
    requires options.Valid() && t.Valid()
    ensures Pruned(t, options, now).Valid()
    ensures Take(t, options, key, now).1 <==>
              key !in t.entries || now - t.entries[key].startedAt >= options.window || t.entries[key].attempts < options.limit
  {
    PrunedFacts(t, options, now);
  }

  /** The table after a run. */
  function TableAfter(t: Table, options: Options, attempts: seq<Attempt>): (r: Table)
    requires options.Valid() && t.Valid() && |t.entries| <= options.maxKeys
    ensures r.Valid() && |r.entries| <= options.maxKeys
    decreases |attempts|
  {
    if attempts == [] then t
    else
      var n := |attempts| - 1;
      var before := TableAfter(t, options, attempts[..n]);
      TableStaysBounded(before, options, attempts[n].key, attempts[n].at);
      Take(before, options, attempts[n].key, attempts[n].at).0
  }

  const NO_ENTRIES := Table(map[], [])

  /** How often a key was tried at `since` or later. */
  function Tries(attempts: seq<Attempt>, key: string, since: int): nat {
    if attempts == [] then 0
    else
      var n := |attempts| - 1;
      Tries(attempts[..n], key, since) + if attempts[n].key == key && attempts[n].at >= since then 1 else 0
  }

  lemma {:induction false} LaterIsFewer(attempts: seq<Attempt>, key: string, since: int, later: int)
    requires since <= later
    ensures Tries(attempts, key, later) <= Tries(attempts, key, since)
    decreases |attempts|
  {
    if attempts != [] { LaterIsFewer(attempts[..|attempts| - 1], key, since, later); }
  }

  /** What a key's window counts are tries since it began. */
  lemma {:induction false} CountsTries(options: Options, attempts: seq<Attempt>, key: string)
    requires options.Valid() && NonDecreasing(attempts)
    ensures var t := TableAfter(NO_ENTRIES, options, attempts);
            key in t.entries ==>
              && t.entries[key].attempts <= Tries(attempts, key, t.entries[key].startedAt)
              && (attempts != [] && t.entries[key].startedAt <= attempts[|attempts| - 1].at)
    decreases |attempts|
  {
    if attempts != [] {
      hide Table.Valid, Over, Prune;
      var n := |attempts| - 1;
      var past, a := attempts[..n], attempts[n];
      var before := TableAfter(NO_ENTRIES, options, past);
      assert forall i :: 0 <= i < n ==> past[i] == attempts[i];
      CountsTries(options, past, key);
      AfterTake(before, options, a, key);
    }
  }

  lemma AfterTake(t: Table, options: Options, a: Attempt, key: string)
    requires options.Valid() && t.Valid() && |t.entries| <= options.maxKeys
    ensures Pruned(t, options, a.at).Valid()
    ensures var next := Take(t, options, a.key, a.at).0;
            key in next.entries ==>
              || (a.key != key && key in t.entries && next.entries[key] == t.entries[key])
              || (a.key == key && key in t.entries && next.entries[key] == Window(t.entries[key].startedAt, t.entries[key].attempts + 1, a.at))
              || (a.key == key && next.entries[key] == Window(a.at, 1, a.at))
  {
    hide Over;
    PrunedFacts(t, options, a.at);
  }

  lemma EarlierNonDecreasing(attempts: seq<Attempt>, last: Attempt)
    requires NonDecreasing(attempts + [last])
    ensures NonDecreasing(attempts)
  {
    assert forall i :: 0 <= i < |attempts| ==> (attempts + [last])[i] == attempts[i];
  }

  /** With a clock that never goes back, a key tried fewer times than the limit in the last window length is admitted, whatever
      other keys did and whether or not it was evicted meanwhile. */
  lemma UnderTheLimitIsAdmitted(options: Options, attempts: seq<Attempt>, key: string, now: Time)
    requires options.Valid() && NonDecreasing(attempts + [Attempt(key, now)])
    requires Tries(attempts, key, now - options.window + 1) < options.limit
    ensures var t := TableAfter(NO_ENTRIES, options, attempts);
            Pruned(t, options, now).Valid() && Take(t, options, key, now).1
  {
    assert NonDecreasing(attempts) by { EarlierNonDecreasing(attempts, Attempt(key, now)); }
    CountsTries(options, attempts, key);
    FewTriesAdmitted(TableAfter(NO_ENTRIES, options, attempts), options, attempts, key, now);
  }

  lemma FewTriesAdmitted(t: Table, options: Options, attempts: seq<Attempt>, key: string, now: Time)
    requires options.Valid() && t.Valid() && Tries(attempts, key, now - options.window + 1) < options.limit
    requires key in t.entries ==> t.entries[key].attempts <= Tries(attempts, key, t.entries[key].startedAt)
    ensures Pruned(t, options, now).Valid() && Take(t, options, key, now).1
  {
    hide Take, Tries, Pruned, Table.Valid;
    AdmissionDecided(t, options, key, now);
    if key in t.entries && now - t.entries[key].startedAt < options.window {
      LaterIsFewer(attempts, key, now - options.window + 1, t.entries[key].startedAt);
    }
  }

  /** Another key's open window stays as it is, unless the table is full of open windows, the taken key has none, and the other
      key is one of the least recently seen. */
  lemma WindowsStay(t: Table, options: Options, key: string, other: string, now: Time)
    requires options.Valid() && t.Valid() && |t.entries| <= options.maxKeys && other != key
    requires other in t.entries && now - t.entries[other].startedAt < options.window
    ensures Pruned(t, options, now).Valid()
    ensures var next := Take(t, options, key, now).0;
            var p := Pruned(t, options, now);
            && (other in next.entries ==> next.entries[other] == t.entries[other])
            && (other !in next.entries ==>
                  && |p.entries| == |t.entries| == options.maxKeys && key !in t.entries
                  && forall k :: k in t.entries ==> t.entries[other].lastSeenAt <= t.entries[k].lastSeenAt)
  {
    PrunedFacts(t, options, now);
    var p := Pruned(t, options, now);
    if |p.entries| == |t.entries| { SameSize(p.entries, t.entries); }
  }

  lemma SameSize(a: map<string, Window>, b: map<string, Window>)
    requires a.Keys <= b.Keys && |a| == |b|
    ensures a.Keys == b.Keys
  {
    assert |b.Keys - a.Keys| == |b.Keys| - |a.Keys|;
  }
}
