/** The webhook dispatcher over its storage, one durable write at a time. Anything may interrupt it between two writes. */
module Webhooks {
  import opened Domain
  import opened Feed

  type SubId = nat

  datatype Settings = Settings(maxAttempts: nat, retryBase: nat, pageSize: int) {
    predicate Valid() {
      maxAttempts >= 1
    }
  }

  datatype Status = Pending | Delivered | Exhausted

  datatype Delivery = Delivery(status: Status, attempts: nat, nextAttemptAt: Option<Time>)

  const NEW_DELIVERY := Delivery(Pending, 0, None)

  /** `start` is the live edge the subscription was created at. Deleting a subscription cascades to its deliveries. */
  datatype Subscription = Subscription(filter: Filter, start: nat, cursor: nat, deliveries: map<nat, Delivery>)

  type Storage = map<SubId, Subscription>

  function PutDelivery(st: Storage, s: SubId, rowid: nat, d: Delivery): Storage {
    if s in st then st[s := st[s].(deliveries := st[s].deliveries[rowid := d])] else st
  }

  /** An `UPDATE ... WHERE delivery_id = ?`: nothing happens to a row that is gone. */
  function UpdateDelivery(st: Storage, s: SubId, rowid: nat, d: Delivery): Storage {
    if s in st && rowid in st[s].deliveries then PutDelivery(st, s, rowid, d) else st
  }

  function AdvanceCursor(st: Storage, s: SubId, rowid: nat): Storage {
    if s in st then st[s := st[s].(cursor := if st[s].cursor < rowid then rowid else st[s].cursor)] else st
  }

  function FindDelivery(st: Storage, s: SubId, rowid: nat): Option<Delivery> {
    if s in st && rowid in st[s].deliveries then Some(st[s].deliveries[rowid]) else None
  }

  function Power5(n: nat): nat {
    if n == 0 then 1 else 5 * Power5(n - 1)
  }

  /** When the next attempt is due after the `attempts`-th failure. */
  function DueAfter(settings: Settings, attempts: nat, failedAt: Time): Time
    requires attempts > 0
  {
    failedAt + settings.retryBase * Power5(attempts - 1)
  }

  /** The delivery row a recorded failure leaves. */
  function AfterFailure(settings: Settings, attempts: nat, failedAt: Time): Delivery {
    if attempts + 1 >= settings.maxAttempts then Delivery(Exhausted, attempts + 1, None)
    else Delivery(Pending, attempts + 1, Some(DueAfter(settings, attempts + 1, failedAt)))
  }

  /** How a POST ends: with a status code, or with none after a timeout or a network failure. */
  datatype Reply = Status(code: nat) | NoReply

  predicate Succeeded(reply: Reply) {
    reply.Status? && 200 <= reply.code < 300
  }

  /** What an observer of the dispatcher writes down: a POST with the reply it gets, what was recorded of it, and a POST whose
      reply was never recorded. */
  datatype Note =
    | Posted(sub: SubId, rowid: nat, at: Time, reply: Reply)
    | Recorded(sub: SubId, rowid: nat, at: Time, delivery: Delivery)
    | Interrupted(sub: SubId, rowid: nat)

  /** A subscription record as listed at the start of a tick. */
  datatype Visit = Visit(sub: SubId, filter: Filter, cursor: nat)

  /** Where the dispatcher is between two writes. */
  datatype Task =
    | Idle
    | Visiting(queue: seq<Visit>)
    | Reading(sub: SubId, rowids: seq<nat>, queue: seq<Visit>)
    | Sending(sub: SubId, rowid: nat, attempts: nat, at: Time, rest: seq<nat>, queue: seq<Visit>)
    | Answered(sub: SubId, rowid: nat, attempts: nat, reply: Reply, rest: seq<nat>, queue: seq<Visit>)
    | Settling(sub: SubId, rowid: nat, rest: seq<nat>, queue: seq<Visit>)

  datatype World = World(feed: seq<AuditEvent>, storage: Storage, used: set<SubId>, task: Task, log: seq<Note>)

  function Read(settings: Settings, w: World): World
    requires w.task.Visiting?
  {
    if w.task.queue == [] then w.(task := Idle)
    else
      var v, queue := w.task.queue[0], w.task.queue[1..];
      w.(task := Reading(v.sub, ReadPage(w.feed, v.filter, v.cursor, settings.pageSize), queue))
  }

  /** The head of the page: settled already, not due yet, or ready to be posted. */
  function TakeHead(w: World, now: Time): World
    requires w.task.Reading?
  {
    var t := w.task;
    if t.rowids == [] then w.(task := Visiting(t.queue))
    else
      var rowid, rest := t.rowids[0], t.rowids[1..];
      match FindDelivery(w.storage, t.sub, rowid)
      case Some(d) =>
        if d.status != Pending then
          w.(storage := AdvanceCursor(w.storage, t.sub, rowid), task := Reading(t.sub, rest, t.queue))
        else if d.nextAttemptAt.Some? && d.nextAttemptAt.value > now then w.(task := Visiting(t.queue))
        else w.(task := Sending(t.sub, rowid, d.attempts, now, rest, t.queue))
      case None =>
        if t.sub !in w.storage then w.(task := Visiting(t.queue))
        else
          w.(storage := PutDelivery(w.storage, t.sub, rowid, NEW_DELIVERY), task := Sending(t.sub, rowid, 0, now, rest, t.queue))
  }

  function Record(settings: Settings, w: World, now: Time): World
    requires w.task.Answered?
  {
    var t := w.task;
    var d := if Succeeded(t.reply) then Delivery(Delivered, t.attempts, None) else AfterFailure(settings, t.attempts, now);
    w.(storage := UpdateDelivery(w.storage, t.sub, t.rowid, d),
       task := if d.status == Pending then Visiting(t.queue) else Settling(t.sub, t.rowid, t.rest, t.queue),
       log := w.log + [Recorded(t.sub, t.rowid, now, d)])
  }

  /** The dispatcher's next step: at most one durable write, or one POST and its reply. */
  function Advance(settings: Settings, w: World, now: Time, reply: Reply): World {
    match w.task
    case Idle => w
    case Visiting(_) => Read(settings, w)
    case Reading(_, _, _) => TakeHead(w, now)
    case Sending(s, rowid, attempts, at, rest, queue) =>
      w.(task := Answered(s, rowid, attempts, reply, rest, queue), log := w.log + [Posted(s, rowid, at, reply)])
    case Answered(_, _, _, _, _, _) => Record(settings, w, now)
    case Settling(s, rowid, rest, queue) =>
      w.(storage := AdvanceCursor(w.storage, s, rowid), task := Reading(s, rest, queue))
  }

  function QueueOf(t: Task): seq<Visit> {
    if t.Idle? then [] else t.queue
  }

  /** A crash forgets the task, a fault skips to the next subscription; an unrecorded POST is noted as interrupted. */
  function Interrupt(w: World, task: Task): World {
    w.(task := task, log := if w.task.Answered? then w.log + [Interrupted(w.task.sub, w.task.rowid)] else w.log)
  }

  datatype Act =
    | Append(e: AuditEvent)
    | Subscribe(sub: SubId, filter: Filter)
    | Unsubscribe(sub: SubId)
    | StartTick(order: seq<SubId>)
    | Step(now: Time, reply: Reply)
    | Fault
    | Crash
  {
    ghost predicate Enabled(w: World) {
      match this
      case Subscribe(s, _) => s !in w.used
      case StartTick(order) =>
        w.task.Idle? && StrictOrder(order) && forall s :: s in order ==> s in w.storage
      case _ => true
    }

    function Next(settings: Settings, w: World): World {
      match this
      case Append(e) => w.(feed := w.feed + [e])
      case Subscribe(s, filter) =>
        w.(storage := w.storage[s := Subscription(filter, |w.feed|, |w.feed|, map[])], used := w.used + {s})
      case Unsubscribe(s) => w.(storage := w.storage - {s})
      case StartTick(order) => w.(task := Visiting(Visits(w.storage, order)))
      case Step(now, reply) => Advance(settings, w, now, reply)
      case Fault => Interrupt(w, if w.task.Idle? then Idle else Visiting(w.task.queue))
      case Crash => Interrupt(w, Idle)
    }
  }

  predicate StrictOrder(order: seq<SubId>) {
    forall i, j :: 0 <= i < j < |order| ==> order[i] != order[j]
  }

  /** `listSubscriptions`, in the order they are kept. */
  function Visits(st: Storage, order: seq<SubId>): (r: seq<Visit>)
    ensures |r| <= |order|
  {
    if order == [] then []
    else (if order[0] in st then [Visit(order[0], st[order[0]].filter, st[order[0]].cursor)] else []) + Visits(st, order[1..])
  }

  ghost predicate Reaches(settings: Settings, w: World, acts: seq<Act>, end: World)
    decreases |acts|
  {
    if acts == [] then end == w
    else acts[0].Enabled(w) && Reaches(settings, acts[0].Next(settings, w), acts[1..], end)
  }

  const EMPTY_WORLD := World([], map[], {}, Idle, [])

  ghost predicate Reachable(settings: Settings, w: World) {
    exists feed, acts :: Reaches(settings, EMPTY_WORLD.(feed := feed), acts, w)
  }

  // ---- what every step keeps ----

  predicate Settled(d: Delivery) {
    d.status != Pending
  }

  /** The page is exactly the wanted rowids from the cursor on, as far as it goes. */
  ghost predicate Contiguous(feed: seq<AuditEvent>, filter: Filter, cursor: nat, rowids: seq<nat>) {
    && StrictlyAscending(rowids)
    && (forall x :: x in rowids ==> cursor < x && IsWanted(feed, filter, x))
    && (rowids != [] ==> forall x :: cursor < x <= rowids[|rowids| - 1] && IsWanted(feed, filter, x) ==> x in rowids)
  }

  ghost predicate DeliverySound(settings: Settings, feed: seq<AuditEvent>, sub: Subscription, rowid: nat, d: Delivery) {
    && sub.start < rowid && IsWanted(feed, sub.filter, rowid)
    && (rowid <= sub.cursor ==> Settled(d))
    && (sub.cursor < rowid ==> forall x :: sub.cursor < x < rowid ==> !IsWanted(feed, sub.filter, x))
    && d.attempts <= settings.maxAttempts && (d.status != Exhausted ==> d.attempts < settings.maxAttempts)
  }

  ghost predicate SubscriptionSound(settings: Settings, feed: seq<AuditEvent>, sub: Subscription) {
    && sub.start <= sub.cursor <= |feed|
    && (forall r :: sub.start < r <= sub.cursor && IsWanted(feed, sub.filter, r) ==> r in sub.deliveries)
    && (forall r :: r in sub.deliveries ==> DeliverySound(settings, feed, sub, r, sub.deliveries[r]))
  }

  ghost predicate VisitSound(w: World, v: Visit) {
    v.sub in w.used && (v.sub in w.storage ==> v.cursor == w.storage[v.sub].cursor && v.filter == w.storage[v.sub].filter)
  }

  ghost predicate QueueSound(w: World, queue: seq<Visit>) {
    && (forall k :: 0 <= k < |queue| ==> VisitSound(w, queue[k]))
    && (forall j, k :: 0 <= j < k < |queue| ==> queue[j].sub != queue[k].sub)
  }

  ghost predicate NotQueued(s: SubId, queue: seq<Visit>) {
    forall k :: 0 <= k < |queue| ==> queue[k].sub != s
  }

  predicate DueSince(d: Delivery, at: Time) {
    d.nextAttemptAt.Some? ==> d.nextAttemptAt.value <= at
  }

  /** What the dispatcher knows about the subscription it is working on. */
  ghost predicate WorkSound(w: World) {
    match w.task
    case Idle => true
    case Visiting(_) => true
    case Reading(s, rowids, queue) =>
      NotQueued(s, queue) && s in w.used && (s in w.storage ==> Contiguous(w.feed, w.storage[s].filter, w.storage[s].cursor, rowids))
    case Sending(s, rowid, attempts, at, rest, queue) =>
      && NotQueued(s, queue) && s in w.used
      && (s in w.storage ==>
            && Contiguous(w.feed, w.storage[s].filter, w.storage[s].cursor, [rowid] + rest)
            && rowid in w.storage[s].deliveries && w.storage[s].deliveries[rowid].status == Pending
            && w.storage[s].deliveries[rowid].attempts == attempts && DueSince(w.storage[s].deliveries[rowid], at))
    case Answered(s, rowid, attempts, _, rest, queue) =>
      && NotQueued(s, queue) && s in w.used
      && (s in w.storage ==>
            && Contiguous(w.feed, w.storage[s].filter, w.storage[s].cursor, [rowid] + rest)
            && rowid in w.storage[s].deliveries && w.storage[s].deliveries[rowid].status == Pending
            && w.storage[s].deliveries[rowid].attempts == attempts)
    case Settling(s, rowid, rest, queue) =>
      && NotQueued(s, queue) && s in w.used
      && (s in w.storage ==>
            && Contiguous(w.feed, w.storage[s].filter, w.storage[s].cursor, [rowid] + rest)
            && rowid in w.storage[s].deliveries && Settled(w.storage[s].deliveries[rowid]))
  }

  ghost predicate Inv(settings: Settings, w: World) {
    && w.storage.Keys <= w.used
    && (forall s :: s in w.storage ==> SubscriptionSound(settings, w.feed, w.storage[s]))
    && QueueSound(w, QueueOf(w.task)) && WorkSound(w)
  }

  lemma WantedStays(feed: seq<AuditEvent>, e: AuditEvent, filter: Filter, x: nat)
    ensures x <= |feed| ==> (IsWanted(feed + [e], filter, x) <==> IsWanted(feed, filter, x))
  {}

  lemma ContiguousStays(feed: seq<AuditEvent>, e: AuditEvent, filter: Filter, cursor: nat, rowids: seq<nat>)
    requires Contiguous(feed, filter, cursor, rowids)
    ensures Contiguous(feed + [e], filter, cursor, rowids)
  {
    if rowids != [] {
      assert rowids[|rowids| - 1] in rowids;
    }
  }

  lemma SubscriptionStays(settings: Settings, feed: seq<AuditEvent>, e: AuditEvent, sub: Subscription)
    requires SubscriptionSound(settings, feed, sub)
    ensures SubscriptionSound(settings, feed + [e], sub)
  {
    forall r | r in sub.deliveries ensures DeliverySound(settings, feed + [e], sub, r, sub.deliveries[r]) {
      assert DeliverySound(settings, feed, sub, r, sub.deliveries[r]);
      forall x | x <= r ensures IsWanted(feed + [e], sub.filter, x) <==> IsWanted(feed, sub.filter, x) {
        WantedStays(feed, e, sub.filter, x);
      }
    }
  }

  lemma AppendKeepsInv(settings: Settings, w: World, e: AuditEvent)
    requires Inv(settings, w)
    ensures Inv(settings, w.(feed := w.feed + [e]))
  {
    hide SubscriptionSound, Contiguous;
    forall s | s in w.storage ensures SubscriptionSound(settings, w.feed + [e], w.storage[s]) {
      SubscriptionStays(settings, w.feed, e, w.storage[s]);
    }
    var t := w.task;
    if (t.Reading? || t.Sending? || t.Answered? || t.Settling?) && t.sub in w.storage {
      ContiguousStays(w.feed, e, w.storage[t.sub].filter, w.storage[t.sub].cursor, if t.Reading? then t.rowids else [t.rowid] + t.rest);
    }
    assert forall v :: VisitSound(w, v) ==> VisitSound(w.(feed := w.feed + [e]), v);
  }

  /** The cursor moves over the head of the page, whose row is settled. */
  lemma AdvanceKeepsSubscription(settings: Settings, feed: seq<AuditEvent>, sub: Subscription, rowid: nat, rest: seq<nat>)
    requires SubscriptionSound(settings, feed, sub) && Contiguous(feed, sub.filter, sub.cursor, [rowid] + rest)
    requires rowid in sub.deliveries && Settled(sub.deliveries[rowid])
    ensures sub.cursor < rowid
    ensures SubscriptionSound(settings, feed, sub.(cursor := rowid))
    ensures Contiguous(feed, sub.filter, rowid, rest)
  {
    var page, next := [rowid] + rest, sub.(cursor := rowid);
    assert page[0] in page && IsWanted(feed, sub.filter, rowid);
    assert forall x :: x in page <==> x == rowid || x in rest;
    assert forall k :: 0 <= k < |rest| ==> rest[k] == page[k + 1];
    NoGap(feed, sub, page);
    forall r | r in next.deliveries ensures DeliverySound(settings, feed, next, r, next.deliveries[r]) {
      assert DeliverySound(settings, feed, sub, r, sub.deliveries[r]);
    }
  }

  /** Nothing wanted lies between the cursor and the head of the page. */
  lemma NoGap(feed: seq<AuditEvent>, sub: Subscription, page: seq<nat>)
    requires page != [] && Contiguous(feed, sub.filter, sub.cursor, page)
    ensures forall x :: sub.cursor < x < page[0] ==> !IsWanted(feed, sub.filter, x)
  {
    assert forall x :: x in page ==> page[0] <= x;
    assert page[|page| - 1] in page;
  }

  /** A row for the head of the page. */
  lemma PutKeepsSubscription(settings: Settings, feed: seq<AuditEvent>, sub: Subscription, rowid: nat, rest: seq<nat>, d: Delivery)
    requires SubscriptionSound(settings, feed, sub) && Contiguous(feed, sub.filter, sub.cursor, [rowid] + rest)
    requires d.attempts <= settings.maxAttempts && (d.status != Exhausted ==> d.attempts < settings.maxAttempts)
    ensures SubscriptionSound(settings, feed, sub.(deliveries := sub.deliveries[rowid := d]))
  {
    var page, next := [rowid] + rest, sub.(deliveries := sub.deliveries[rowid := d]);
    assert page[0] in page && IsWanted(feed, sub.filter, rowid) && sub.cursor < rowid;
    NoGap(feed, sub, page);
    forall r | r in next.deliveries ensures DeliverySound(settings, feed, next, r, next.deliveries[r]) {
      if r != rowid {
        assert DeliverySound(settings, feed, sub, r, sub.deliveries[r]);
      }
    }
  }

  lemma PageIsContiguous(feed: seq<AuditEvent>, filter: Filter, cursor: nat, limit: int)
    requires cursor <= |feed|
    ensures Contiguous(feed, filter, cursor, ReadPage(feed, filter, cursor, limit))
  {
    PageIsComplete(feed, filter, cursor, limit);
  }

  /** The storage changed at one subscription, and only in ways its own queue entry would not notice. */
  ghost predicate OnlyAt(w: World, t: World, s: SubId) {
    && t.feed == w.feed && t.used == w.used && t.storage.Keys == w.storage.Keys
    && forall x :: x in w.storage && x != s ==> t.storage[x] == w.storage[x]
  }

  lemma QueueStays(w: World, t: World, s: SubId, queue: seq<Visit>)
    requires OnlyAt(w, t, s) && NotQueued(s, queue) && QueueSound(w, queue)
    ensures QueueSound(t, queue)
  {
    forall k | 0 <= k < |queue| ensures VisitSound(t, queue[k]) {
      assert VisitSound(w, queue[k]);
    }
  }

  lemma ReadKeepsInv(settings: Settings, w: World)
    requires Inv(settings, w) && w.task.Visiting?
    ensures Inv(settings, Read(settings, w))
  {
    hide Contiguous, IsWanted;
    if w.task.queue != [] {
      var v := w.task.queue[0];
      assert VisitSound(w, v);
      if v.sub in w.storage {
        assert SubscriptionSound(settings, w.feed, w.storage[v.sub]);
        PageIsContiguous(w.feed, v.filter, v.cursor, settings.pageSize);
      }
      var t := Read(settings, w);
      forall k | 0 <= k < |t.task.queue| ensures VisitSound(t, t.task.queue[k]) {
        assert t.task.queue[k] == w.task.queue[k + 1] && VisitSound(w, w.task.queue[k + 1]);
      }
    }
  }

  lemma TakeHeadKeepsInv(settings: Settings, w: World, now: Time)
    requires settings.Valid() && Inv(settings, w) && w.task.Reading?
    ensures Inv(settings, TakeHead(w, now))
  {
    hide Contiguous, IsWanted, SubscriptionSound, QueueSound;
    var t, s := TakeHead(w, now), w.task.sub;
    if w.task.rowids != [] {
      var rowid, rest := w.task.rowids[0], w.task.rowids[1..];
      assert w.task.rowids == [rowid] + rest;
      if s in w.storage {
        match FindDelivery(w.storage, s, rowid)
        case Some(d) =>
          if Settled(d) { AdvanceKeepsSubscription(settings, w.feed, w.storage[s], rowid, rest); }
        case None =>
          PutKeepsSubscription(settings, w.feed, w.storage[s], rowid, rest, NEW_DELIVERY);
      }
    }
    assert OnlyAt(w, t, s);
    QueueStays(w, t, s, w.task.queue);
  }

  lemma RecordKeepsInv(settings: Settings, w: World, now: Time)
    requires settings.Valid() && Inv(settings, w) && w.task.Answered?
    ensures Inv(settings, Record(settings, w, now))
  {
    hide Contiguous, IsWanted, SubscriptionSound, QueueSound, DueAfter;
    var t, s := Record(settings, w, now), w.task.sub;
    if s in w.storage {
      var d := if Succeeded(w.task.reply) then Delivery(Delivered, w.task.attempts, None) else AfterFailure(settings, w.task.attempts, now);
      AttemptsBound(settings, w.feed, w.storage[s], w.task.rowid);
      PutKeepsSubscription(settings, w.feed, w.storage[s], w.task.rowid, w.task.rest, d);
    }
    assert OnlyAt(w, t, s);
    QueueStays(w, t, s, w.task.queue);
  }

  lemma AttemptsBound(settings: Settings, feed: seq<AuditEvent>, sub: Subscription, rowid: nat)
    requires SubscriptionSound(settings, feed, sub) && rowid in sub.deliveries && sub.deliveries[rowid].status == Pending
    ensures sub.deliveries[rowid].attempts < settings.maxAttempts
  {
    assert DeliverySound(settings, feed, sub, rowid, sub.deliveries[rowid]);
  }

  lemma SettlingKeepsInv(settings: Settings, w: World, now: Time, reply: Reply)
    requires Inv(settings, w) && w.task.Settling?
    ensures Inv(settings, Advance(settings, w, now, reply))
  {
    hide Contiguous, IsWanted, SubscriptionSound, QueueSound;
    var t, s := Advance(settings, w, now, reply), w.task.sub;
    if s in w.storage {
      AdvanceKeepsSubscription(settings, w.feed, w.storage[s], w.task.rowid, w.task.rest);
    }
    assert OnlyAt(w, t, s);
    QueueStays(w, t, s, w.task.queue);
  }

  lemma StepKeepsInv(settings: Settings, w: World, now: Time, reply: Reply)
    requires settings.Valid() && Inv(settings, w)
    ensures Inv(settings, Advance(settings, w, now, reply))
  {
    match w.task
    case Idle =>
    case Visiting(_) => ReadKeepsInv(settings, w);
    case Reading(_, _, _) => TakeHeadKeepsInv(settings, w, now);
    case Sending(s, rowid, attempts, at, rest, queue) =>
      hide Contiguous, SubscriptionSound;
      assert QueueSound(Advance(settings, w, now, reply), queue) by {
        assert forall v :: VisitSound(w, v) ==> VisitSound(Advance(settings, w, now, reply), v);
      }
    case Answered(_, _, _, _, _, _) => RecordKeepsInv(settings, w, now);
    case Settling(_, _, _, _) => SettlingKeepsInv(settings, w, now, reply);
  }

  lemma SubscribeKeepsInv(settings: Settings, w: World, s: SubId, filter: Filter)
    requires Inv(settings, w) && s !in w.used
    ensures Inv(settings, Subscribe(s, filter).Next(settings, w))
  {
    hide Contiguous;
    var t := Subscribe(s, filter).Next(settings, w);
    assert SubscriptionSound(settings, t.feed, t.storage[s]);
    assert forall v :: VisitSound(w, v) ==> VisitSound(t, v);
  }

  lemma UnsubscribeKeepsInv(settings: Settings, w: World, s: SubId)
    requires Inv(settings, w)
    ensures Inv(settings, Unsubscribe(s).Next(settings, w))
  {
    hide Contiguous, SubscriptionSound;
    assert forall v :: VisitSound(w, v) ==> VisitSound(Unsubscribe(s).Next(settings, w), v);
  }

  lemma {:induction false} VisitsSound(w: World, order: seq<SubId>)
    requires w.storage.Keys <= w.used && StrictOrder(order)
    ensures QueueSound(w, Visits(w.storage, order))
    ensures forall v :: v in Visits(w.storage, order) ==> v.sub in order
  {
    if order != [] {
      VisitsSound(w, order[1..]);
      assert forall s :: s in order[1..] ==> s in order && s != order[0];
      var rest := Visits(w.storage, order[1..]);
      assert forall k :: 0 <= k < |rest| ==> rest[k] in rest;
    }
  }

  lemma InterruptKeepsInv(settings: Settings, w: World)
    requires Inv(settings, w)
    ensures Inv(settings, Fault.Next(settings, w)) && Inv(settings, Crash.Next(settings, w))
  {
    hide Contiguous, SubscriptionSound;
    assert forall v :: VisitSound(w, v) ==> VisitSound(Fault.Next(settings, w), v);
  }

  lemma NextKeepsInv(settings: Settings, w: World, act: Act)
    requires settings.Valid() && Inv(settings, w) && act.Enabled(w)
    ensures Inv(settings, act.Next(settings, w))
  {
    match act
    case Append(e) => AppendKeepsInv(settings, w, e);
    case Subscribe(s, filter) => SubscribeKeepsInv(settings, w, s, filter);
    case Unsubscribe(s) => UnsubscribeKeepsInv(settings, w, s);
    case StartTick(order) =>
      hide SubscriptionSound;
      VisitsSound(w, order);
      var t := StartTick(order).Next(settings, w);
      assert forall v :: VisitSound(w, v) ==> VisitSound(t, v);
    case Step(now, reply) => StepKeepsInv(settings, w, now, reply);
    case Fault => InterruptKeepsInv(settings, w);
    case Crash => InterruptKeepsInv(settings, w);
  }
}
