/** The dispatcher as it runs when nothing interrupts it: one page per subscription per tick, the clock read for every event.
    Its ticks are runs of the step machine, and a finite backlog is settled after boundedly many of them. */
module Dispatchers {
  import opened Domain
  import opened Feed
  import opened Webhooks

  /** The receivers: the reply to the given attempt at an event. */
  type Receiver = (SubId, nat, nat) -> Reply

  /** What the clock shows when an attempt at an event is taken up, and when its failure is recorded. */
  datatype Clock = Clock(takenUp: (SubId, nat, nat) -> Time, failed: (SubId, nat, nat) -> Time)

  /** The row an attempt leaves. */
  function Attempted(settings: Settings, attempts: nat, now: Time, reply: Reply): Delivery {
    if Succeeded(reply) then Delivery(Delivered, attempts, None) else AfterFailure(settings, attempts, now)
  }

  function With(sub: Subscription, rowid: nat, d: Delivery): Subscription {
    sub.(deliveries := sub.deliveries[rowid := d])
  }

  function Advanced(sub: Subscription, rowid: nat): Subscription {
    sub.(cursor := if sub.cursor < rowid then rowid else sub.cursor)
  }

  /** `deliverPage`: head of line first, stopping at a delivery that is not due or has just failed. */
  function DeliverPage(settings: Settings, s: SubId, sub: Subscription, rowids: seq<nat>, now: Clock, ok: Receiver): Subscription
    decreases |rowids|
  {
    if rowids == [] then sub
    else
      var rowid, rest := rowids[0], rowids[1..];
      var d := if rowid in sub.deliveries then sub.deliveries[rowid] else NEW_DELIVERY;
      if Settled(d) then DeliverPage(settings, s, Advanced(sub, rowid), rest, now, ok)
      else if !DueSince(d, now.takenUp(s, rowid, d.attempts)) then sub
      else
        var after := Attempted(settings, d.attempts, now.failed(s, rowid, d.attempts), ok(s, rowid, d.attempts));
        if Settled(after) then DeliverPage(settings, s, Advanced(With(sub, rowid, after), rowid), rest, now, ok)
        else With(sub, rowid, after)
  }

  function DeliverVisit(settings: Settings, feed: seq<AuditEvent>, st: Storage, v: Visit, now: Clock, ok: Receiver): Storage {
    if v.sub in st
    then st[v.sub := DeliverPage(settings, v.sub, st[v.sub], ReadPage(feed, v.filter, v.cursor, settings.pageSize), now, ok)]
    else st
  }

  function DeliverAll(settings: Settings, feed: seq<AuditEvent>, st: Storage, visits: seq<Visit>, now: Clock, ok: Receiver): Storage
    decreases |visits|
  {
    if visits == [] then st
    else DeliverAll(settings, feed, DeliverVisit(settings, feed, st, visits[0], now, ok), visits[1..], now, ok)
  }

  class WebhookStorage {
    var subs: Storage

    constructor (subs: Storage)
      ensures this.subs == subs
    {
      this.subs := subs;
    }

    method CreateDelivery(s: SubId, rowid: nat) returns (r: Result<Delivery>)
      modifies this
      ensures r.Ok? <==> s in old(subs) && rowid !in old(subs)[s].deliveries
      ensures r.Ok? ==> r.value == NEW_DELIVERY
      ensures subs == if r.Ok? then PutDelivery(old(subs), s, rowid, NEW_DELIVERY) else old(subs)
    {
      if s !in subs || rowid in subs[s].deliveries { return Err(StorageUnavailable); }
      subs := subs[s := subs[s].(deliveries := subs[s].deliveries[rowid := NEW_DELIVERY])];
      r := Ok(NEW_DELIVERY);
    }

    method Update(s: SubId, rowid: nat, d: Delivery)
      modifies this
      ensures subs == UpdateDelivery(old(subs), s, rowid, d)
    {
      if s in subs && rowid in subs[s].deliveries {
        subs := subs[s := subs[s].(deliveries := subs[s].deliveries[rowid := d])];
      }
    }

    method Advance(s: SubId, rowid: nat)
      modifies this
      ensures subs == AdvanceCursor(old(subs), s, rowid)
    {
      if s in subs && subs[s].cursor < rowid {
        subs := subs[s := subs[s].(cursor := rowid)];
      }
      assert s in old(subs) && old(subs)[s].cursor >= rowid ==> old(subs)[s := old(subs)[s]] == old(subs);
    }
  }

  datatype AttemptOutcome = WasDelivered | WasExhausted | WillRetry

  class Dispatcher {
    const settings: Settings
    const storage: WebhookStorage
    var delivered: nat
    var exhausted: nat
    var retries: nat

    constructor (settings: Settings, storage: WebhookStorage)
      ensures this.settings == settings && this.storage == storage && delivered == 0 && exhausted == 0 && retries == 0
    {
      this.settings, this.storage := settings, storage;
      delivered, exhausted, retries := 0, 0, 0;
    }

    /** Exhaustion advances past the event, any other failure schedules the backoff. */
    method ScheduleFailure(s: SubId, rowid: nat, d: Delivery, now: Time) returns (outcome: AttemptOutcome)
      modifies this, storage
      ensures var after := AfterFailure(settings, d.attempts, now);
              var updated := UpdateDelivery(old(storage.subs), s, rowid, after);
              && outcome == (if Settled(after) then WasExhausted else WillRetry)
              && storage.subs == if Settled(after) then AdvanceCursor(updated, s, rowid) else updated
      ensures exhausted + retries == old(exhausted) + old(retries) + 1 && delivered == old(delivered)
    {
      var attempts := d.attempts + 1;
      if attempts >= settings.maxAttempts {
        storage.Update(s, rowid, Delivery(Exhausted, attempts, None));
        storage.Advance(s, rowid);
        exhausted := exhausted + 1;
        return WasExhausted;
      }
      var delay := settings.retryBase * Power5(attempts - 1);
      storage.Update(s, rowid, Delivery(Pending, attempts, Some(now + delay)));
      retries := retries + 1;
      outcome := WillRetry;
    }

    method Attempt(s: SubId, rowid: nat, d: Delivery, failedAt: Time, reply: Reply) returns (outcome: AttemptOutcome)
      modifies this, storage
      ensures var after := Attempted(settings, d.attempts, failedAt, reply);
              var updated := UpdateDelivery(old(storage.subs), s, rowid, after);
              && (outcome.WillRetry? <==> !Settled(after))
              && storage.subs == if Settled(after) then AdvanceCursor(updated, s, rowid) else updated
      ensures delivered == old(delivered) + if Succeeded(reply) then 1 else 0
    {
      if Succeeded(reply) {
        storage.Update(s, rowid, Delivery(Delivered, d.attempts, None));
        storage.Advance(s, rowid);
        delivered := delivered + 1;
        return WasDelivered;
      }
      outcome := ScheduleFailure(s, rowid, d, failedAt);
    }

    method RunPage(s: SubId, rowids: seq<nat>, now: Clock, ok: Receiver)
      requires s in storage.subs
      modifies this, storage
      ensures storage.subs == old(storage.subs)[s := DeliverPage(settings, s, old(storage.subs)[s], rowids, now, ok)]
    {
      ghost var before := storage.subs;
      ghost var result := DeliverPage(settings, s, before[s], rowids, now, ok);
      assert rowids[0..] == rowids && before[s := before[s]] == before;
      for k := 0 to |rowids|
        invariant s in storage.subs && storage.subs == before[s := storage.subs[s]]
        invariant DeliverPage(settings, s, storage.subs[s], rowids[k..], now, ok) == result
      {
        var rowid := rowids[k];
        assert rowids[k..][0] == rowid && rowids[k..][1..] == rowids[k + 1..];
        var d := NEW_DELIVERY;
        ghost var sub := storage.subs[s];
        if rowid in storage.subs[s].deliveries {
          d := storage.subs[s].deliveries[rowid];
          if d.status != Pending {
            storage.Advance(s, rowid);
            continue;
          }
          if d.nextAttemptAt.Some? && d.nextAttemptAt.value > now.takenUp(s, rowid, d.attempts) { return; }
        } else {
          var created := storage.CreateDelivery(s, rowid);
        }
        var outcome := Attempt(s, rowid, d, now.failed(s, rowid, d.attempts), ok(s, rowid, d.attempts));
        ghost var after := Attempted(settings, d.attempts, now.failed(s, rowid, d.attempts), ok(s, rowid, d.attempts));
        assert sub.deliveries[rowid := NEW_DELIVERY][rowid := after] == sub.deliveries[rowid := after];
        assert storage.subs[s] == if Settled(after) then Advanced(With(sub, rowid, after), rowid) else With(sub, rowid, after);
        assert before[s := storage.subs[s]] == storage.subs;
        if outcome.WillRetry? { return; }
      }
    }

    /** One sequential tick over the subscriptions as listed when it began. */
    method Tick(order: seq<SubId>, feed: seq<AuditEvent>, now: Clock, ok: Receiver)
      modifies this, storage
      ensures storage.subs == DeliverAll(settings, feed, old(storage.subs), Visits(old(storage.subs), order), now, ok)
      ensures StrictOrder(order) ==>
                forall s :: s in order && s in old(storage.subs) && old(storage.subs)[s].cursor <= |feed| ==>
                  var sub := old(storage.subs)[s];
                  && s in storage.subs
                  && PageHonoured(settings, s, sub, ReadPage(feed, sub.filter, sub.cursor, settings.pageSize), storage.subs[s], now, ok)
    {
      hide PageHonoured, StrictOrder;
      var visits := Visits(storage.subs, order);
      ghost var before := storage.subs;
      assert visits[0..] == visits;
      for k := 0 to |visits|
        invariant DeliverAll(settings, feed, storage.subs, visits[k..], now, ok) == DeliverAll(settings, feed, before, visits, now, ok)
      {
        assert visits[k..][0] == visits[k] && visits[k..][1..] == visits[k + 1..];
        if visits[k].sub in storage.subs {
          var page, _ := ReadAuditEvents(feed, visits[k].filter, visits[k].cursor, settings.pageSize);
          RunPage(visits[k].sub, page, now, ok);
        }
      }
      assert visits[|visits|..] == [];
      if StrictOrder(order) {
        forall s | s in order && s in before && before[s].cursor <= |feed|
          ensures s in storage.subs
          ensures PageHonoured(settings, s, before[s], ReadPage(feed, before[s].filter, before[s].cursor, settings.pageSize), storage.subs[s], now, ok)
        {
          TickHonours(settings, feed, before, order, now, ok, s);
        }
      }
    }
  }

  // ---- what the replies do ----

  function RowOf(sub: Subscription, rowid: nat): Option<Delivery> {
    if rowid in sub.deliveries then Some(sub.deliveries[rowid]) else None
  }

  /** The row was pending or absent, was posted once more, and has become what the reply calls for. */
  predicate Honoured(settings: Settings, before: Option<Delivery>, after: Option<Delivery>, failedAt: Time, reply: Reply) {
    var failures := if before.Some? then before.value.attempts else 0;
    && (before.Some? ==> before.value.status == Pending)
    && if reply.Status? && 200 <= reply.code < 300 then after == Some(Delivery(Delivered, failures, None))
       else if failures + 1 >= settings.maxAttempts then after == Some(Delivery(Exhausted, failures + 1, None))
       else after == Some(Delivery(Pending, failures + 1, Some(failedAt + settings.retryBase * Power5(failures))))
  }

  function Failures(sub: Subscription, rowid: nat): nat {
    if rowid in sub.deliveries then sub.deliveries[rowid].attempts else 0
  }

  predicate RowHonoured(settings: Settings, s: SubId, sub: Subscription, after: Subscription, r: nat, now: Clock, ok: Receiver) {
    Honoured(settings, RowOf(sub, r), RowOf(after, r), now.failed(s, r, Failures(sub, r)), ok(s, r, Failures(sub, r)))
  }

  predicate SettledRow(sub: Subscription, r: nat) {
    r in sub.deliveries && sub.deliveries[r].status != Pending
  }

  predicate Due(s: SubId, sub: Subscription, r: nat, now: Clock) {
    r in sub.deliveries ==> DueSince(sub.deliveries[r], now.takenUp(s, r, sub.deliveries[r].attempts))
  }

  ghost predicate RowStepped(settings: Settings, s: SubId, sub: Subscription, rowids: seq<nat>, after: Subscription, k: nat, now: Clock, ok: Receiver)
    requires k < |rowids|
  {
    if SettledRow(sub, rowids[k]) || !Due(s, sub, rowids[k], now) || (exists j :: 0 <= j < k && !SettledRow(after, rowids[j]))
    then RowOf(after, rowids[k]) == RowOf(sub, rowids[k])
    else RowHonoured(settings, s, sub, after, rowids[k], now, ok)
  }

  /** A page posts its events in turn, up to the first that is not due or fails for now, and every row it changes is changed as
      the reply calls for; the cursor passes exactly the settled ones in front. */
  ghost predicate PageHonoured(settings: Settings, s: SubId, sub: Subscription, rowids: seq<nat>, after: Subscription, now: Clock, ok: Receiver) {
    && (forall r :: r !in rowids ==> RowOf(after, r) == RowOf(sub, r))
    && (forall k :: 0 <= k < |rowids| ==> RowStepped(settings, s, sub, rowids, after, k, now, ok))
    && sub.cursor <= after.cursor
    && (forall k :: 0 <= k < |rowids| && sub.cursor < rowids[k] ==>
          (rowids[k] <= after.cursor <==> forall j :: 0 <= j <= k ==> SettledRow(after, rowids[j])))
  }

  lemma Behind(rowid: nat, rest: seq<nat>)
    requires StrictlyAscending([rowid] + rest)
    ensures rowid !in rest && forall k :: 0 <= k < |rest| ==> rest[k] == ([rowid] + rest)[k + 1] && rowid < rest[k]
  {
    var page := [rowid] + rest;
    forall k | 0 <= k < |rest| ensures rest[k] == page[k + 1] && rowid < rest[k] {
      assert page[0] < page[k + 1];
    }
  }

  lemma StepPassed(settings: Settings, s: SubId, sub: Subscription, mid: Subscription, rowid: nat, rest: seq<nat>, after: Subscription,
                   k: nat, now: Clock, ok: Receiver)
    requires StrictlyAscending([rowid] + rest) && sub.cursor < rowid && mid.cursor == rowid
    requires forall r :: r != rowid ==> RowOf(mid, r) == RowOf(sub, r)
    requires SettledRow(mid, rowid)
    requires if SettledRow(sub, rowid) || !Due(s, sub, rowid, now) then RowOf(mid, rowid) == RowOf(sub, rowid)
             else RowHonoured(settings, s, sub, mid, rowid, now, ok)
    requires PageHonoured(settings, s, mid, rest, after, now, ok)
    requires k <= |rest|
    ensures RowStepped(settings, s, sub, [rowid] + rest, after, k, now, ok)
  {
    hide RowHonoured, SettledRow, Due, RowOf;
    Behind(rowid, rest);
    var page := [rowid] + rest;
    assert RowOf(after, rowid) == RowOf(mid, rowid);
    SameRowSettled(mid, after, rowid);
    if k == 0 {
      SameRowHonoured(settings, s, sub, mid, after, rowid, now, ok);
    } else {
      HeadBehind(after, page, rest, k);
      assert RowStepped(settings, s, mid, rest, after, k - 1, now, ok);
      assert page[k] == rest[k - 1] && page[k] != rowid;
      SameRowStepped(settings, s, sub, mid, after, page[k], now, ok);
    }
  }

  lemma CursorPassed(settings: Settings, s: SubId, sub: Subscription, mid: Subscription, rowid: nat, rest: seq<nat>, after: Subscription,
                     k: nat, now: Clock, ok: Receiver)
    requires StrictlyAscending([rowid] + rest) && sub.cursor < rowid && mid.cursor == rowid
    requires forall r :: r != rowid ==> RowOf(mid, r) == RowOf(sub, r)
    requires SettledRow(mid, rowid)
    requires if SettledRow(sub, rowid) || !Due(s, sub, rowid, now) then RowOf(mid, rowid) == RowOf(sub, rowid)
             else RowHonoured(settings, s, sub, mid, rowid, now, ok)
    requires PageHonoured(settings, s, mid, rest, after, now, ok)
    requires k <= |rest|
    ensures sub.cursor <= after.cursor
    ensures var page := [rowid] + rest; page[k] <= after.cursor <==> forall j :: 0 <= j <= k ==> SettledRow(after, page[j])
  {
    hide RowHonoured, RowStepped, SettledRow, Due, RowOf;
    Behind(rowid, rest);
    var page := [rowid] + rest;
    assert RowOf(after, rowid) == RowOf(mid, rowid);
    SameRowSettled(mid, after, rowid);
    PrefixBehind(after, page, rest, k);
    if k > 0 {
      assert page[k] == rest[k - 1];
      assert (forall j :: 0 <= j <= k - 1 ==> SettledRow(after, rest[j])) <==> (forall j :: 0 <= j < k ==> SettledRow(after, rest[j]));
    }
  }

  /** The head is settled and passed, and the rest of the page follows. */
  lemma HeadPassed(settings: Settings, s: SubId, sub: Subscription, mid: Subscription, rowid: nat, rest: seq<nat>, after: Subscription,
                   now: Clock, ok: Receiver)
    requires StrictlyAscending([rowid] + rest) && sub.cursor < rowid && mid.cursor == rowid
    requires forall r :: r != rowid ==> RowOf(mid, r) == RowOf(sub, r)
    requires SettledRow(mid, rowid)
    requires if SettledRow(sub, rowid) || !Due(s, sub, rowid, now) then RowOf(mid, rowid) == RowOf(sub, rowid)
             else RowHonoured(settings, s, sub, mid, rowid, now, ok)
    requires PageHonoured(settings, s, mid, rest, after, now, ok)
    ensures PageHonoured(settings, s, sub, [rowid] + rest, after, now, ok)
  {
    hide RowHonoured, RowStepped, SettledRow, Due, RowOf;
    var page := [rowid] + rest;
    CursorPassed(settings, s, sub, mid, rowid, rest, after, 0, now, ok);
    forall k | 0 <= k < |page|
      ensures RowStepped(settings, s, sub, page, after, k, now, ok)
      ensures page[k] <= after.cursor <==> forall j :: 0 <= j <= k ==> SettledRow(after, page[j])
    {
      StepPassed(settings, s, sub, mid, rowid, rest, after, k, now, ok);
      CursorPassed(settings, s, sub, mid, rowid, rest, after, k, now, ok);
    }
  }

  lemma PrefixBehind(after: Subscription, page: seq<nat>, rest: seq<nat>, k: nat)
    requires page != [] && page[1..] == rest && k < |page| && SettledRow(after, page[0])
    ensures (forall j :: 0 <= j <= k ==> SettledRow(after, page[j])) <==> (forall j :: 0 <= j < k ==> SettledRow(after, rest[j]))
  {
    hide SettledRow;
    if forall j :: 0 <= j < k ==> SettledRow(after, rest[j]) {
      forall j | 0 <= j <= k ensures SettledRow(after, page[j]) {
        if j > 0 { assert page[j] == rest[j - 1]; }
      }
    }
    if forall j :: 0 <= j <= k ==> SettledRow(after, page[j]) {
      forall j | 0 <= j < k ensures SettledRow(after, rest[j]) {
        assert page[j + 1] == rest[j];
      }
    }
  }

  lemma SameRowSettled(mid: Subscription, after: Subscription, r: nat)
    requires RowOf(after, r) == RowOf(mid, r)
    ensures SettledRow(after, r) <==> SettledRow(mid, r)
  {}

  lemma SameRowHonoured(settings: Settings, s: SubId, sub: Subscription, mid: Subscription, after: Subscription, r: nat, now: Clock, ok: Receiver)
    requires RowOf(after, r) == RowOf(mid, r)
    ensures RowHonoured(settings, s, sub, after, r, now, ok) <==> RowHonoured(settings, s, sub, mid, r, now, ok)
  {}

  lemma SameRowStepped(settings: Settings, s: SubId, sub: Subscription, mid: Subscription, after: Subscription, r: nat, now: Clock, ok: Receiver)
    requires RowOf(mid, r) == RowOf(sub, r)
    ensures SettledRow(mid, r) <==> SettledRow(sub, r)
    ensures Due(s, mid, r, now) <==> Due(s, sub, r, now)
    ensures RowHonoured(settings, s, mid, after, r, now, ok) <==> RowHonoured(settings, s, sub, after, r, now, ok)
  {}

  lemma HeadBehind(after: Subscription, page: seq<nat>, rest: seq<nat>, k: nat)
    requires page != [] && page[1..] == rest && 0 < k < |page| && SettledRow(after, page[0])
    ensures (exists j :: 0 <= j < k && !SettledRow(after, page[j])) <==> (exists j :: 0 <= j < k - 1 && !SettledRow(after, rest[j]))
  {
    if j :| 0 <= j < k && !SettledRow(after, page[j]) {
      assert rest[j - 1] == page[j];
    }
    if j :| 0 <= j < k - 1 && !SettledRow(after, rest[j]) {
      assert page[j + 1] == rest[j];
    }
  }

  /** The page stops at its head. */
  lemma HeadStops(settings: Settings, s: SubId, sub: Subscription, rowids: seq<nat>, after: Subscription, now: Clock, ok: Receiver)
    requires rowids != [] && StrictlyAscending(rowids) && forall x :: x in rowids ==> sub.cursor < x
    requires after.cursor == sub.cursor && !SettledRow(after, rowids[0]) && !SettledRow(sub, rowids[0])
    requires forall r :: r != rowids[0] ==> RowOf(after, r) == RowOf(sub, r)
    requires if !Due(s, sub, rowids[0], now) then RowOf(after, rowids[0]) == RowOf(sub, rowids[0])
             else RowHonoured(settings, s, sub, after, rowids[0], now, ok)
    ensures PageHonoured(settings, s, sub, rowids, after, now, ok)
  {
    hide Honoured;
    forall k | 0 < k < |rowids| ensures rowids[k] != rowids[0] {}
    assert forall k :: 0 <= k < |rowids| ==> rowids[k] in rowids;
  }

  lemma AttemptHonours(settings: Settings, s: SubId, sub: Subscription, rowid: nat, now: Clock, ok: Receiver)
    requires !SettledRow(sub, rowid)
    ensures var a := Failures(sub, rowid);
            var d := Attempted(settings, a, now.failed(s, rowid, a), ok(s, rowid, a));
            RowHonoured(settings, s, sub, With(sub, rowid, d), rowid, now, ok)
  {}

  lemma {:induction false} PageHonours(settings: Settings, s: SubId, sub: Subscription, rowids: seq<nat>, now: Clock, ok: Receiver)
    requires StrictlyAscending(rowids) && forall x :: x in rowids ==> sub.cursor < x
    ensures PageHonoured(settings, s, sub, rowids, DeliverPage(settings, s, sub, rowids, now, ok), now, ok)
    decreases |rowids|
  {
    hide Attempted, Honoured, PageHonoured;
    if rowids == [] {
      NothingHonoured(settings, s, sub, now, ok);
    } else {
      var rowid, rest := rowids[0], rowids[1..];
      assert rowids == [rowid] + rest && rowid in rowids && sub.cursor < rowid;
      assert forall x :: x in rest ==> rowid < x by {
        forall k | 0 <= k < |rest| ensures rowid < rest[k] { assert rest[k] == rowids[k + 1]; }
      }
      var a := Failures(sub, rowid);
      var d := Attempted(settings, a, now.failed(s, rowid, a), ok(s, rowid, a));
      var after := DeliverPage(settings, s, sub, rowids, now, ok);
      if SettledRow(sub, rowid) {
        PageHonours(settings, s, Advanced(sub, rowid), rest, now, ok);
        HeadPassed(settings, s, sub, Advanced(sub, rowid), rowid, rest, after, now, ok);
      } else if !Due(s, sub, rowid, now) {
        HeadStops(settings, s, sub, rowids, after, now, ok);
      } else {
        AttemptHonours(settings, s, sub, rowid, now, ok);
        if Settled(d) {
          var mid := Advanced(With(sub, rowid, d), rowid);
          PageHonours(settings, s, mid, rest, now, ok);
          HeadPassed(settings, s, sub, mid, rowid, rest, after, now, ok);
        } else {
          HeadStops(settings, s, sub, rowids, after, now, ok);
        }
      }
    }
  }

  lemma NothingHonoured(settings: Settings, s: SubId, sub: Subscription, now: Clock, ok: Receiver)
    ensures PageHonoured(settings, s, sub, [], sub, now, ok)
  {}

  // ---- a page is a run ----

  lemma ReachesStep(settings: Settings, w: World, act: Act, rest: seq<Act>, end: World)
    requires act.Enabled(w) && Reaches(settings, act.Next(settings, w), rest, end)
    ensures Reaches(settings, w, [act] + rest, end)
  {
    assert ([act] + rest)[1..] == rest;
  }

  lemma {:induction false} ReachesJoin(settings: Settings, w: World, first: seq<Act>, mid: World, second: seq<Act>, end: World)
    requires Reaches(settings, w, first, mid) && Reaches(settings, mid, second, end)
    ensures Reaches(settings, w, first + second, end)
    decreases |first|
  {
    if first == [] {
      assert first + second == second;
    } else {
      ReachesJoin(settings, first[0].Next(settings, w), first[1..], mid, second, end);
      ReachesStep(settings, w, first[0], first[1..] + second, end);
      assert [first[0]] + (first[1..] + second) == first + second;
    }
  }

  /** What is left of the world when a page is done. */
  ghost predicate PageDone(settings: Settings, w: World, end: World, result: Subscription) {
    && w.task.Reading? && w.task.sub in w.storage
    && end.feed == w.feed && end.used == w.used && end.task == Visiting(w.task.queue)
    && end.storage == w.storage[w.task.sub := result]
  }

  /** Posting the head of a page, up to the point where the page goes on or stops. */
  lemma HeadIsRun(settings: Settings, w: World, now: Clock, ok: Receiver) returns (acts: seq<Act>, end: World)
    requires settings.Valid() && w.task.Reading? && w.task.sub in w.storage && w.task.rowids != []
    requires var d := FindDelivery(w.storage, w.task.sub, w.task.rowids[0]);
             d.Some? ==> !Settled(d.value) && DueSince(d.value, now.takenUp(w.task.sub, w.task.rowids[0], d.value.attempts))
    ensures Reaches(settings, w, acts, end)
    ensures var s, rowid, rest := w.task.sub, w.task.rowids[0], w.task.rowids[1..];
            var found := FindDelivery(w.storage, s, rowid);
            var d := if found.Some? then found.value else NEW_DELIVERY;
            var after := Attempted(settings, d.attempts, now.failed(s, rowid, d.attempts), ok(s, rowid, d.attempts));
            var sub := With(w.storage[s], rowid, after);
            && end.feed == w.feed && end.used == w.used
            && (if Settled(after)
                then end.storage == w.storage[s := Advanced(sub, rowid)] && end.task == Reading(s, rest, w.task.queue)
                else end.storage == w.storage[s := sub] && end.task == Visiting(w.task.queue))
  {
    hide AfterFailure;
    var s, rowid, rest, queue := w.task.sub, w.task.rowids[0], w.task.rowids[1..], w.task.queue;
    var found := FindDelivery(w.storage, s, rowid);
    var attempts := if found.Some? then found.value.attempts else 0;
    var answer := ok(s, rowid, attempts);
    var takenUp, failed := now.takenUp(s, rowid, attempts), now.failed(s, rowid, attempts);
    var sending := Advance(settings, w, takenUp, answer);
    assert sending.task == Sending(s, rowid, attempts, takenUp, rest, queue);
    var answered := Advance(settings, sending, failed, answer);
    var recorded := Advance(settings, answered, failed, answer);
    var after := Attempted(settings, attempts, failed, answer);
    assert w.storage[s].deliveries[rowid := NEW_DELIVERY][rowid := after] == w.storage[s].deliveries[rowid := after];
    assert recorded.storage == w.storage[s := With(w.storage[s], rowid, after)];
    var take, step := Step(takenUp, answer), Step(failed, answer);
    if Settled(after) {
      end := Advance(settings, recorded, failed, answer);
      assert end.storage == w.storage[s := Advanced(With(w.storage[s], rowid, after), rowid)];
      ReachesStep(settings, recorded, step, [], end);
      ReachesStep(settings, answered, step, [step], end);
      ReachesStep(settings, sending, step, [step] + [step], end);
      ReachesStep(settings, w, take, [step] + ([step] + [step]), end);
      acts := [take] + ([step] + ([step] + [step]));
    } else {
      end := recorded;
      ReachesStep(settings, answered, step, [], end);
      ReachesStep(settings, sending, step, [step], end);
      ReachesStep(settings, w, take, [step] + [step], end);
      acts := [take] + ([step] + [step]);
    }
  }

  /** An uninterrupted page is a run of the step machine. */
  lemma {:induction false} PageIsRun(settings: Settings, w: World, now: Clock, ok: Receiver) returns (acts: seq<Act>, end: World)
    requires settings.Valid() && w.task.Reading? && w.task.sub in w.storage
    ensures Reaches(settings, w, acts, end)
    ensures PageDone(settings, w, end, DeliverPage(settings, w.task.sub, w.storage[w.task.sub], w.task.rowids, now, ok))
    decreases |w.task.rowids|
  {
    hide Attempted;
    var s, sub := w.task.sub, w.storage[w.task.sub];
    assert w.storage[s := sub] == w.storage;
    if w.task.rowids == [] {
      var step := Step(0, NoReply);
      end := Advance(settings, w, 0, NoReply);
      ReachesStep(settings, w, step, [], end);
      acts := [step];
    } else {
      var rowid, rest := w.task.rowids[0], w.task.rowids[1..];
      var found := FindDelivery(w.storage, s, rowid);
      var time := now.takenUp(s, rowid, if found.Some? then found.value.attempts else 0);
      var step := Step(time, NoReply);
      if found.Some? && Settled(found.value) {
        var next := Advance(settings, w, time, NoReply);
        assert next.storage == w.storage[s := Advanced(sub, rowid)];
        acts, end := PageIsRun(settings, next, now, ok);
        ReachesStep(settings, w, step, acts, end);
        acts := [step] + acts;
      } else if found.Some? && !DueSince(found.value, time) {
        end := Advance(settings, w, time, NoReply);
        ReachesStep(settings, w, step, [], end);
        acts := [step];
      } else {
        var head, mid := HeadIsRun(settings, w, now, ok);
        if mid.task.Reading? {
          var tail;
          tail, end := PageIsRun(settings, mid, now, ok);
          ReachesJoin(settings, w, head, mid, tail, end);
          acts := head + tail;
        } else {
          acts, end := head, mid;
        }
      }
    }
  }

  /** The pages of the visits still queued, one after the other. */
  lemma {:induction false} VisitsAreRun(settings: Settings, w: World, now: Clock, ok: Receiver) returns (acts: seq<Act>, end: World)
    requires settings.Valid() && w.task.Visiting? && forall k :: 0 <= k < |w.task.queue| ==> w.task.queue[k].sub in w.storage
    ensures Reaches(settings, w, acts, end)
    ensures end.feed == w.feed && end.used == w.used && end.task == Idle
    ensures end.storage == DeliverAll(settings, w.feed, w.storage, w.task.queue, now, ok)
    decreases |w.task.queue|
  {
    hide DeliverPage, ReadPage;
    var read := Advance(settings, w, 0, NoReply);
    if w.task.queue == [] {
      end := read;
      ReachesStep(settings, w, Step(0, NoReply), [], end);
      acts := [Step(0, NoReply)];
    } else {
      var page, mid := PageIsRun(settings, read, now, ok);
      assert mid.storage == DeliverVisit(settings, w.feed, w.storage, w.task.queue[0], now, ok);
      var rest;
      rest, end := VisitsAreRun(settings, mid, now, ok);
      ReachesJoin(settings, read, page, mid, rest, end);
      ReachesStep(settings, w, Step(0, NoReply), page + rest, end);
      acts := [Step(0, NoReply)] + (page + rest);
    }
  }

  /** An uninterrupted tick is a run of the step machine: it starts idle, serves every listed subscription and ends idle. */
  lemma TickIsRun(settings: Settings, w: World, order: seq<SubId>, now: Clock, ok: Receiver) returns (acts: seq<Act>, end: World)
    requires settings.Valid() && StartTick(order).Enabled(w)
    ensures acts != [] && acts[0] == StartTick(order) && Reaches(settings, w, acts, end)
    ensures end.feed == w.feed && end.used == w.used && end.task == Idle
    ensures end.storage == DeliverAll(settings, w.feed, w.storage, Visits(w.storage, order), now, ok)
  {
    var begun := StartTick(order).Next(settings, w);
    ListedVisits(w.storage, order);
    forall k | 0 <= k < |begun.task.queue| ensures begun.task.queue[k].sub in w.storage {
      assert begun.task.queue[k] in begun.task.queue;
    }
    acts, end := VisitsAreRun(settings, begun, now, ok);
    ReachesStep(settings, w, StartTick(order), acts, end);
    acts := [StartTick(order)] + acts;
  }

  // ---- a finite backlog is settled ----

  /** How many attempts an event above the cursor can still take. */
  function Weight(settings: Settings, sub: Subscription, rowid: nat): int {
    if rowid !in sub.deliveries then settings.maxAttempts
    else if Settled(sub.deliveries[rowid]) then 1
    else settings.maxAttempts - sub.deliveries[rowid].attempts
  }

  function TotalWeight(settings: Settings, sub: Subscription, rowids: seq<nat>): int {
    if rowids == [] then 0 else Weight(settings, sub, rowids[0]) + TotalWeight(settings, sub, rowids[1..])
  }

  function Backlog(feed: seq<AuditEvent>, sub: Subscription): seq<nat>
    requires sub.cursor <= |feed|
  {
    Wanted(feed, sub.filter, sub.cursor, |feed|)
  }

  /** The remaining work of a subscription. */
  function Remaining(settings: Settings, feed: seq<AuditEvent>, sub: Subscription): int
    requires sub.cursor <= |feed|
  {
    TotalWeight(settings, sub, Backlog(feed, sub))
  }

  lemma {:induction false} WeightsAgree(settings: Settings, a: Subscription, b: Subscription, rowids: seq<nat>)
    requires forall r :: r in rowids ==> Weight(settings, a, r) == Weight(settings, b, r)
    ensures TotalWeight(settings, a, rowids) == TotalWeight(settings, b, rowids)
  {
    if rowids != [] {
      WeightsAgree(settings, a, b, rowids[1..]);
    }
  }

  lemma {:induction false} WeightsPositive(settings: Settings, feed: seq<AuditEvent>, sub: Subscription, rowids: seq<nat>)
    requires settings.Valid() && SubscriptionSound(settings, feed, sub)
    ensures TotalWeight(settings, sub, rowids) >= |rowids|
  {
    if rowids != [] {
      WeightsPositive(settings, feed, sub, rowids[1..]);
      if rowids[0] in sub.deliveries {
        assert DeliverySound(settings, feed, sub, rowids[0], sub.deliveries[rowids[0]]);
      }
    }
  }

  /** The next wanted event heads the backlog, and passing it leaves the rest. */
  lemma BacklogHead(feed: seq<AuditEvent>, sub: Subscription, rowid: nat, rest: seq<nat>)
    requires sub.cursor <= |feed| && Contiguous(feed, sub.filter, sub.cursor, [rowid] + rest)
    ensures sub.cursor < rowid <= |feed|
    ensures Backlog(feed, sub) == [rowid] + Wanted(feed, sub.filter, rowid, |feed|)
  {
    hide IsWanted, Contiguous, Wanted;
    HeadIsNext(feed, sub, rowid, rest);
    HeadAlone(feed, sub.filter, rowid);
    WantedSplit(feed, sub.filter, sub.cursor, rowid, |feed|);
    WantedSplit(feed, sub.filter, sub.cursor, rowid - 1, rowid);
    NothingWanted(feed, sub.filter, sub.cursor, rowid - 1);
  }

  lemma HeadIsNext(feed: seq<AuditEvent>, sub: Subscription, rowid: nat, rest: seq<nat>)
    requires Contiguous(feed, sub.filter, sub.cursor, [rowid] + rest)
    ensures sub.cursor < rowid <= |feed| && IsWanted(feed, sub.filter, rowid)
    ensures forall x :: sub.cursor < x < rowid ==> !IsWanted(feed, sub.filter, x)
  {
    var page := [rowid] + rest;
    assert page[0] in page && page[0] == rowid;
    NoGap(feed, sub, page);
  }

  lemma HeadAlone(feed: seq<AuditEvent>, filter: Filter, rowid: nat)
    requires IsWanted(feed, filter, rowid)
    ensures Wanted(feed, filter, rowid - 1, rowid) == [rowid]
  {}

  lemma {:induction false} NothingWanted(feed: seq<AuditEvent>, filter: Filter, after: nat, upTo: nat)
    requires upTo <= |feed| && forall x :: after < x <= upTo ==> !IsWanted(feed, filter, x)
    ensures Wanted(feed, filter, after, upTo) == []
  {
    if upTo > after {
      NothingWanted(feed, filter, after, upTo - 1);
      assert !IsWanted(feed, filter, upTo);
    }
  }

  lemma PassingHead(settings: Settings, feed: seq<AuditEvent>, sub: Subscription, rowid: nat, rest: seq<nat>)
    requires settings.Valid() && SubscriptionSound(settings, feed, sub) && Contiguous(feed, sub.filter, sub.cursor, [rowid] + rest)
    requires rowid in sub.deliveries && Settled(sub.deliveries[rowid])
    ensures rowid <= |feed| && SubscriptionSound(settings, feed, Advanced(sub, rowid))
    ensures Contiguous(feed, sub.filter, Advanced(sub, rowid).cursor, rest)
    ensures Remaining(settings, feed, sub) == Remaining(settings, feed, Advanced(sub, rowid)) + 1
  {
    BacklogHead(feed, sub, rowid, rest);
    AdvanceKeepsSubscription(settings, feed, sub, rowid, rest);
    var left := Wanted(feed, sub.filter, rowid, |feed|);
    assert ([rowid] + left)[1..] == left;
    WeightsAgree(settings, sub, Advanced(sub, rowid), left);
  }

  lemma HeadRewritten(settings: Settings, feed: seq<AuditEvent>, sub: Subscription, rowid: nat, rest: seq<nat>, d: Delivery)
    requires settings.Valid() && SubscriptionSound(settings, feed, sub) && Contiguous(feed, sub.filter, sub.cursor, [rowid] + rest)
    requires d.attempts <= settings.maxAttempts && (d.status != Exhausted ==> d.attempts < settings.maxAttempts)
    ensures SubscriptionSound(settings, feed, With(sub, rowid, d)) && sub.cursor <= |feed|
    ensures Remaining(settings, feed, With(sub, rowid, d)) ==
            Remaining(settings, feed, sub) - Weight(settings, sub, rowid) + Weight(settings, With(sub, rowid, d), rowid)
  {
    hide SubscriptionSound, Contiguous, IsWanted, Weight;
    CursorInFeed(settings, feed, sub);
    BacklogHead(feed, sub, rowid, rest);
    PutKeepsSubscription(settings, feed, sub, rowid, rest, d);
    var left := Wanted(feed, sub.filter, rowid, |feed|);
    OneReweighed(settings, sub, rowid, left, d);
  }

  lemma OneReweighed(settings: Settings, sub: Subscription, rowid: nat, left: seq<nat>, d: Delivery)
    requires forall r :: r in left ==> r != rowid
    ensures TotalWeight(settings, With(sub, rowid, d), [rowid] + left) ==
            TotalWeight(settings, sub, [rowid] + left) - Weight(settings, sub, rowid) + Weight(settings, With(sub, rowid, d), rowid)
  {
    assert ([rowid] + left)[1..] == left;
    forall r | r in left ensures Weight(settings, With(sub, rowid, d), r) == Weight(settings, sub, r) {
      assert r != rowid;
    }
    WeightsAgree(settings, sub, With(sub, rowid, d), left);
  }

  predicate HeadReady(s: SubId, sub: Subscription, rowid: nat, now: Clock) {
    rowid in sub.deliveries ==>
      Settled(sub.deliveries[rowid]) || DueSince(sub.deliveries[rowid], now.takenUp(s, rowid, sub.deliveries[rowid].attempts))
  }

  /** A page never adds work, and if its head can be attempted it takes some away. */
  lemma {:induction false} PageMakesProgress(settings: Settings, feed: seq<AuditEvent>, s: SubId, sub: Subscription, rowids: seq<nat>,
                                             now: Clock, ok: Receiver)
    requires settings.Valid() && SubscriptionSound(settings, feed, sub) && Contiguous(feed, sub.filter, sub.cursor, rowids)
    ensures var after := DeliverPage(settings, s, sub, rowids, now, ok);
            && SubscriptionSound(settings, feed, after) && after.filter == sub.filter && after.start == sub.start
            && Remaining(settings, feed, after) <= Remaining(settings, feed, sub)
            && (rowids != [] && HeadReady(s, sub, rowids[0], now) ==> Remaining(settings, feed, after) < Remaining(settings, feed, sub))
    decreases |rowids|
  {
    hide Contiguous, SubscriptionSound, Remaining, IsWanted;
    assert sub.cursor <= |feed| by { CursorInFeed(settings, feed, sub); }
    if rowids != [] {
      var rowid, rest := rowids[0], rowids[1..];
      assert rowids == [rowid] + rest;
      var d := if rowid in sub.deliveries then sub.deliveries[rowid] else NEW_DELIVERY;
      if Settled(d) {
        PassingHead(settings, feed, sub, rowid, rest);
        PageMakesProgress(settings, feed, s, Advanced(sub, rowid), rest, now, ok);
      } else if DueSince(d, now.takenUp(s, rowid, d.attempts)) {
        if rowid in sub.deliveries { AttemptsBound(settings, feed, sub, rowid); }
        var after := Attempted(settings, d.attempts, now.failed(s, rowid, d.attempts), ok(s, rowid, d.attempts));
        HeadRewritten(settings, feed, sub, rowid, rest, after);
        if Settled(after) {
          PassingHead(settings, feed, With(sub, rowid, after), rowid, rest);
          PageMakesProgress(settings, feed, s, Advanced(With(sub, rowid, after), rowid), rest, now, ok);
        }
      }
    }
  }

  lemma CursorInFeed(settings: Settings, feed: seq<AuditEvent>, sub: Subscription)
    requires SubscriptionSound(settings, feed, sub)
    ensures sub.cursor <= |feed|
  {}

  /** One tick for one subscription. */
  function TickOnce(settings: Settings, feed: seq<AuditEvent>, s: SubId, sub: Subscription, now: Clock, ok: Receiver): Subscription {
    DeliverPage(settings, s, sub, ReadPage(feed, sub.filter, sub.cursor, settings.pageSize), now, ok)
  }

  function TickAll(settings: Settings, feed: seq<AuditEvent>, s: SubId, sub: Subscription, clocks: seq<Clock>, ok: Receiver): Subscription
    decreases |clocks|
  {
    if clocks == [] then sub else TickAll(settings, feed, s, TickOnce(settings, feed, s, sub, clocks[0], ok), clocks[1..], ok)
  }

  /** Every tick comes when the pending retry, if any, is due. */
  predicate DuesPass(settings: Settings, feed: seq<AuditEvent>, s: SubId, sub: Subscription, clocks: seq<Clock>, ok: Receiver)
    decreases |clocks|
  {
    clocks == [] ||
    (&& (forall r :: r in sub.deliveries ==> HeadReady(s, sub, r, clocks[0]))
     && DuesPass(settings, feed, s, TickOnce(settings, feed, s, sub, clocks[0], ok), clocks[1..], ok))
  }

  /** Whatever the receiver answers, as many due ticks as there is remaining work settle one subscription's finite backlog. */
  lemma {:induction false} SubscriptionSettles(settings: Settings, feed: seq<AuditEvent>, s: SubId, sub: Subscription, clocks: seq<Clock>, ok: Receiver)
    requires settings.Valid() && SubscriptionSound(settings, feed, sub) && DuesPass(settings, feed, s, sub, clocks, ok)
    requires |clocks| >= Remaining(settings, feed, sub)
    ensures var after := TickAll(settings, feed, s, sub, clocks, ok);
            SubscriptionSound(settings, feed, after) && after.filter == sub.filter && Backlog(feed, after) == []
    decreases |clocks|
  {
    hide SubscriptionSound, DeliverPage;
    CursorInFeed(settings, feed, sub);
    WeightsPositive(settings, feed, sub, Backlog(feed, sub));
    if clocks != [] {
      var page := ReadPage(feed, sub.filter, sub.cursor, settings.pageSize);
      PageIsContiguous(feed, sub.filter, sub.cursor, settings.pageSize);
      PageMakesProgress(settings, feed, s, sub, page, clocks[0], ok);
      var next := TickOnce(settings, feed, s, sub, clocks[0], ok);
      CursorInFeed(settings, feed, next);
      if page == [] {
        PageIsComplete(feed, sub.filter, sub.cursor, settings.pageSize);
        assert next == sub by { EmptyPage(settings, s, sub, clocks[0], ok); }
        assert Remaining(settings, feed, sub) == 0;
      }
      SubscriptionSettles(settings, feed, s, next, clocks[1..], ok);
    }
  }

  lemma EmptyPage(settings: Settings, s: SubId, sub: Subscription, now: Clock, ok: Receiver)
    ensures DeliverPage(settings, s, sub, [], now, ok) == sub
  {}

  lemma {:induction false} VisitedOnce(settings: Settings, feed: seq<AuditEvent>, st: Storage, visits: seq<Visit>, now: Clock,
                                       ok: Receiver, s: SubId)
    requires s in st && forall j, k :: 0 <= j < k < |visits| ==> visits[j].sub != visits[k].sub
    ensures var after := DeliverAll(settings, feed, st, visits, now, ok);
            && s in after
            && ((forall k :: 0 <= k < |visits| ==> visits[k].sub != s) ==> after[s] == st[s])
            && (forall v :: v in visits && v.sub == s ==>
                  after[s] == DeliverPage(settings, s, st[s], ReadPage(feed, v.filter, v.cursor, settings.pageSize), now, ok))
    decreases |visits|
  {
    hide DeliverPage;
    if visits != [] {
      var next := DeliverVisit(settings, feed, st, visits[0], now, ok);
      VisitedOnce(settings, feed, next, visits[1..], now, ok, s);
      assert forall v :: v in visits <==> v == visits[0] || v in visits[1..];
      assert forall k :: 0 <= k < |visits[1..]| ==> visits[1..][k] == visits[k + 1];
    }
  }

  lemma {:induction false} ListedVisits(st: Storage, order: seq<SubId>)
    requires StrictOrder(order)
    ensures forall v :: v in Visits(st, order) ==> v.sub in order
    ensures forall j, k :: 0 <= j < k < |Visits(st, order)| ==> Visits(st, order)[j].sub != Visits(st, order)[k].sub
    ensures forall s :: s in order && s in st ==> Visit(s, st[s].filter, st[s].cursor) in Visits(st, order)
  {
    if order != [] {
      ListedVisits(st, order[1..]);
      var rest := Visits(st, order[1..]);
      assert forall s :: s in order <==> s == order[0] || s in order[1..];
      assert forall s :: s in order[1..] ==> s != order[0];
      assert forall k :: 0 <= k < |rest| ==> rest[k] in rest;
    }
  }

  /** A whole tick gives each listed subscription its own page, whatever the others do. */
  lemma TickServesEach(settings: Settings, feed: seq<AuditEvent>, st: Storage, order: seq<SubId>, now: Clock, ok: Receiver, s: SubId)
    requires StrictOrder(order) && s in order && s in st
    ensures var after := DeliverAll(settings, feed, st, Visits(st, order), now, ok);
            s in after && after[s] == TickOnce(settings, feed, s, st[s], now, ok)
  {
    hide DeliverPage;
    ListedVisits(st, order);
    VisitedOnce(settings, feed, st, Visits(st, order), now, ok, s);
  }

  /** What a whole tick does to each listed subscription is what the replies to its page call for. */
  lemma TickHonours(settings: Settings, feed: seq<AuditEvent>, st: Storage, order: seq<SubId>, now: Clock, ok: Receiver, s: SubId)
    requires StrictOrder(order) && s in order && s in st && st[s].cursor <= |feed|
    ensures var after := DeliverAll(settings, feed, st, Visits(st, order), now, ok);
            && s in after && after[s].filter == st[s].filter && after[s].start == st[s].start
            && PageHonoured(settings, s, st[s], ReadPage(feed, st[s].filter, st[s].cursor, settings.pageSize), after[s], now, ok)
  {
    hide DeliverPage, PageHonoured, Visits, DeliverAll, StrictOrder;
    TickServesEach(settings, feed, st, order, now, ok, s);
    PageIsContiguous(feed, st[s].filter, st[s].cursor, settings.pageSize);
    var page := ReadPage(feed, st[s].filter, st[s].cursor, settings.pageSize);
    PageHonours(settings, s, st[s], page, now, ok);
    PageKeepsFilter(settings, s, st[s], page, now, ok);
  }

  lemma {:induction false} PageKeepsFilter(settings: Settings, s: SubId, sub: Subscription, rowids: seq<nat>, now: Clock, ok: Receiver)
    ensures var after := DeliverPage(settings, s, sub, rowids, now, ok); after.filter == sub.filter && after.start == sub.start
    decreases |rowids|
  {
    hide Attempted;
    if rowids != [] {
      var d := Attempted(settings, Failures(sub, rowids[0]), now.failed(s, rowids[0], Failures(sub, rowids[0])),
                         ok(s, rowids[0], Failures(sub, rowids[0])));
      PageKeepsFilter(settings, s, Advanced(sub, rowids[0]), rowids[1..], now, ok);
      PageKeepsFilter(settings, s, Advanced(With(sub, rowids[0], d), rowids[0]), rowids[1..], now, ok);
    }
  }

  /** Whole ticks over the whole storage, one after another. */
  function Ticks(settings: Settings, feed: seq<AuditEvent>, st: Storage, order: seq<SubId>, clocks: seq<Clock>, ok: Receiver): Storage
    decreases |clocks|
  {
    if clocks == [] then st
    else Ticks(settings, feed, DeliverAll(settings, feed, st, Visits(st, order), clocks[0], ok), order, clocks[1..], ok)
  }

  lemma {:induction false} TicksServeEach(settings: Settings, feed: seq<AuditEvent>, st: Storage, order: seq<SubId>, clocks: seq<Clock>,
                                          ok: Receiver, s: SubId)
    requires StrictOrder(order) && s in order && s in st
    ensures var after := Ticks(settings, feed, st, order, clocks, ok);
            s in after && after[s] == TickAll(settings, feed, s, st[s], clocks, ok)
    decreases |clocks|
  {
    hide DeliverAll, TickOnce, StrictOrder, Visits;
    if clocks != [] {
      TickServesEach(settings, feed, st, order, clocks[0], ok, s);
      TicksServeEach(settings, feed, DeliverAll(settings, feed, st, Visits(st, order), clocks[0], ok), order, clocks[1..], ok, s);
    }
  }

  /** With every subscription listed, as many due ticks as the longest backlog has work left settle them all, whatever the
      receivers answer. */
  lemma TicksSettle(settings: Settings, feed: seq<AuditEvent>, st: Storage, order: seq<SubId>, clocks: seq<Clock>, ok: Receiver)
    requires settings.Valid() && StrictOrder(order)
    requires forall s :: s in st ==>
               && s in order && SubscriptionSound(settings, feed, st[s]) && DuesPass(settings, feed, s, st[s], clocks, ok)
               && |clocks| >= Remaining(settings, feed, st[s])
    ensures var after := Ticks(settings, feed, st, order, clocks, ok);
            forall s :: s in st ==>
              && s in after && after[s].filter == st[s].filter && SubscriptionSound(settings, feed, after[s])
              && Backlog(feed, after[s]) == []
  {
    hide SubscriptionSound, DuesPass, Remaining, StrictOrder, Ticks, TickAll, Backlog;
    forall s | s in st
      ensures s in Ticks(settings, feed, st, order, clocks, ok)
      ensures var after := Ticks(settings, feed, st, order, clocks, ok)[s];
              after.filter == st[s].filter && SubscriptionSound(settings, feed, after) && after.cursor <= |feed| && Backlog(feed, after) == []
    {
      CursorInFeed(settings, feed, st[s]);
      TicksServeEach(settings, feed, st, order, clocks, ok, s);
      SubscriptionSettles(settings, feed, s, st[s], clocks, ok);
      CursorInFeed(settings, feed, Ticks(settings, feed, st, order, clocks, ok)[s]);
    }
  }
}
