/**
 The three tier lists and the promotion script refine one queue of tickets: a reservation that is not
 interleaved serves the oldest ticket of the highest waiting tier.
 */
module Ordering {
  import opened Domain
  import opened Queues

  // ---- The specification ----

  datatype Ticket = Ticket(tier: Tier, id: JobId)

  /** Tickets in order of arrival. */
  type Line = seq<Ticket>

  predicate Waits(line: Line, tier: Tier) {
    exists i :: 0 <= i < |line| && line[i].tier == tier
  }

  function TopTier(line: Line): Tier {
    if Waits(line, High) then High else if Waits(line, Default) then Default else Low
  }

  function FirstOf(line: Line, tier: Tier): (i: nat)
    requires Waits(line, tier)
    ensures i < |line| && line[i].tier == tier
    ensures forall j :: 0 <= j < i ==> line[j].tier != tier
  {
    if line[0].tier == tier then 0
    else
      assert exists j :: 1 <= j < |line| && line[j].tier == tier;
      var k :| 1 <= k < |line| && line[k].tier == tier;
      assert line[1..][k - 1].tier == tier;
      1 + FirstOf(line[1..], tier)
  }

  function Without(line: Line, i: nat): Line
    requires i < |line|
  {
    line[..i] + line[i + 1..]
  }

  // ---- The abstraction ----

  function Slice(line: Line, tier: Tier): seq<JobId> {
    if line == [] then []
    else (if line[0].tier == tier then [line[0].id] else []) + Slice(line[1..], tier)
  }

  /** Every lane, read from the pop end, shows its tier's tickets in order of arrival. */
  ghost predicate Refines(q: Queues, line: Line) {
    forall tier :: Reverse(q.Lane(tier)) == Slice(line, tier)
  }

  lemma SliceCons(head: Ticket, tail: Line, tier: Tier)
    ensures Slice([head] + tail, tier) == (if head.tier == tier then [head.id] else []) + Slice(tail, tier)
  {
    assert ([head] + tail)[1..] == tail;
  }

  lemma {:induction false} SliceAppends(a: Line, b: Line, tier: Tier)
    ensures Slice(a + b, tier) == Slice(a, tier) + Slice(b, tier)
  {
    if a == [] {
      assert a + b == b;
    } else {
      var head, tail := a[0], a[1..];
      assert a == [head] + tail && a + b == [head] + (tail + b);
      SliceCons(head, tail, tier);
      SliceCons(head, tail + b, tier);
      SliceAppends(tail, b, tier);
    }
  }

  lemma {:induction false} SliceEmpty(line: Line, tier: Tier)
    ensures Slice(line, tier) == [] <==> !Waits(line, tier)
  {
    if line != [] {
      SliceEmpty(line[1..], tier);
      if Waits(line, tier) && line[0].tier != tier {
        var k :| 0 <= k < |line| && line[k].tier == tier;
        assert line[1..][k - 1].tier == tier;
      }
      if Waits(line[1..], tier) {
        var k :| 0 <= k < |line[1..]| && line[1..][k].tier == tier;
        assert line[k + 1].tier == tier;
      }
    }
  }

  lemma {:induction false} ReverseAppends(a: seq<JobId>, b: seq<JobId>)
    ensures Reverse(a + b) == Reverse(b) + Reverse(a)
  {
    if a == [] {
      assert a + b == b && Reverse(b) + Reverse(a) == Reverse(b);
    } else {
      assert (a + b)[1..] == a[1..] + b && (a + b)[0] == a[0];
      ReverseAppends(a[1..], b);
      assert Reverse(b) + Reverse(a[1..]) + [a[0]] == Reverse(b) + (Reverse(a[1..]) + [a[0]]);
    }
  }

  // ---- Arrivals and returns ----

  lemma LPushLane(q: Queues, tier: Tier, id: JobId, other: Tier)
    ensures LPush(q, tier, id).Lane(other) == if other == tier then [id] + q.Lane(tier) else q.Lane(other)
    ensures LPush(q, tier, id).processing == q.processing && LPush(q, tier, id).scheduled == q.scheduled
  {}

  lemma RPushLane(q: Queues, tier: Tier, id: JobId, other: Tier)
    ensures RPush(q, tier, id).Lane(other) == if other == tier then q.Lane(tier) + [id] else q.Lane(other)
  {}

  lemma ReverseWithHead(id: JobId, lane: seq<JobId>)
    ensures Reverse([id] + lane) == Reverse(lane) + [id]
  {
    ReverseAppends([id], lane);
    assert Reverse([id]) == [id];
  }

  lemma ReverseWithLast(lane: seq<JobId>, id: JobId)
    ensures Reverse(lane + [id]) == [id] + Reverse(lane)
  {
    ReverseAppends(lane, [id]);
    assert Reverse([id]) == [id];
  }

  lemma SliceWithLast(line: Line, ticket: Ticket, tier: Tier)
    ensures Slice(line + [ticket], tier) == Slice(line, tier) + if ticket.tier == tier then [ticket.id] else []
  {
    SliceAppends(line, [ticket], tier);
    assert Slice([ticket], tier) == if ticket.tier == tier then [ticket.id] else [];
  }

  lemma ArrivalRefines(q: Queues, line: Line, tier: Tier, id: JobId)
    requires Refines(q, line)
    ensures Refines(LPush(q, tier, id), line + [Ticket(tier, id)])
  {
    forall t ensures Reverse(LPush(q, tier, id).Lane(t)) == Slice(line + [Ticket(tier, id)], t) {
      LPushLane(q, tier, id, t);
      ReverseWithHead(id, q.Lane(tier));
      SliceWithLast(line, Ticket(tier, id), t);
      assert Reverse(q.Lane(t)) == Slice(line, t);
    }
  }

  /** requeue_job puts a reclaimed job in front of everything of its tier. */
  lemma ReturnRefines(q: Queues, line: Line, id: JobId)
    requires Refines(q, line)
    ensures Refines(RPush(q, Default, id), [Ticket(Default, id)] + line)
  {
    forall t ensures Reverse(RPush(q, Default, id).Lane(t)) == Slice([Ticket(Default, id)] + line, t) {
      RPushLane(q, Default, id, t);
      ReverseWithLast(q.Lane(Default), id);
      SliceCons(Ticket(Default, id), line, t);
      assert Reverse(q.Lane(t)) == Slice(line, t);
    }
  }

  // ---- Promotion ----

  function Tickets(ids: seq<JobId>): Line {
    seq(|ids|, i requires 0 <= i < |ids| => Ticket(Default, ids[i]))
  }

  lemma {:induction false} SliceOfTickets(ids: seq<JobId>, tier: Tier)
    ensures Slice(Tickets(ids), tier) == if tier == Default then ids else []
  {
    if ids != [] {
      assert Tickets(ids)[1..] == Tickets(ids[1..]);
      SliceOfTickets(ids[1..], tier);
    }
  }

  /** Due jobs join the default tier in (score, id) order, behind everything that already waits there. */
  lemma ReverseOfPromoted(due: seq<JobId>, lane: seq<JobId>)
    ensures Reverse(Reverse(due) + lane) == Reverse(lane) + due
  {
    ReverseAppends(Reverse(due), lane);
    assert Reverse(Reverse(due)) == due;
  }

  lemma PromotedLane(q: Queues, line: Line, now: Time, t: Tier)
    requires Refines(q, line)
    ensures Reverse(Promote(q, now).Lane(t)) == Slice(line + Tickets(DueOrder(q.scheduled, now)), t)
  {
    var due := DueOrder(q.scheduled, now);
    SliceAppends(line, Tickets(due), t);
    SliceOfTickets(due, t);
    assert Reverse(q.Lane(t)) == Slice(line, t);
    if t == Default {
      ReverseOfPromoted(due, q.normal);
    }
  }

  lemma PromotionRefines(q: Queues, line: Line, now: Time)
    requires Refines(q, line)
    ensures Refines(Promote(q, now), line + Tickets(DueOrder(q.scheduled, now)))
  {
    forall t ensures Reverse(Promote(q, now).Lane(t)) == Slice(line + Tickets(DueOrder(q.scheduled, now)), t) {
      PromotedLane(q, line, now, t);
    }
  }

  /** The script splits the scheduled set exactly at now, and moves what is due once each, in order. */
  lemma PromotionIsExact(q: Queues, now: Time)
    ensures var due := DueOrder(q.scheduled, now);
            && (forall id :: id in due <==> id in q.scheduled && q.scheduled[id] <= now)
            && (forall i, j :: 0 <= i < j < |due| ==> Before(q.scheduled, due[i], due[j]) && due[i] != due[j])
            && (forall id :: id in Promote(q, now).scheduled <==> id in q.scheduled && q.scheduled[id] > now)
            && (forall id :: id in Promote(q, now).scheduled ==> Promote(q, now).scheduled[id] == q.scheduled[id])
            && Promote(q, now).high == q.high && Promote(q, now).low == q.low
                && Promote(q, now).processing == q.processing
  {}

  // ---- Reservation ----

  /** The first tier, from high to low, whose list is not empty. */
  function Poll(q: Queues): Option<Tier> {
    if q.high != [] then Some(High)
    else if q.normal != [] then Some(Default)
    else if q.low != [] then Some(Low)
    else None
  }

  lemma {:induction false} SliceWithout(line: Line, i: nat, tier: Tier)
    requires i < |line| && forall j :: 0 <= j < i ==> line[j].tier != line[i].tier
    ensures if tier == line[i].tier
            then Slice(line, tier) == [line[i].id] + Slice(Without(line, i), tier)
            else Slice(line, tier) == Slice(Without(line, i), tier)
  {
    if i == 0 {
      assert Without(line, 0) == line[1..];
    } else {
      assert line[1..][i - 1] == line[i];
      assert forall j :: 0 <= j < i - 1 ==> line[1..][j] == line[j + 1];
      SliceWithout(line[1..], i - 1, tier);
      assert Without(line, i) == [line[0]] + Without(line[1..], i - 1);
      assert Without(line, i)[1..] == Without(line[1..], i - 1);
    }
  }

  lemma LaneIsWaiting(q: Queues, line: Line, tier: Tier)
    requires Refines(q, line)
    ensures q.Lane(tier) != [] <==> Waits(line, tier)
  {
    SliceEmpty(line, tier);
    assert Reverse(q.Lane(tier)) == Slice(line, tier);
  }

  lemma PollFindsTop(q: Queues, line: Line)
    requires Refines(q, line)
    ensures Poll(q).None? <==> line == []
    ensures line != [] ==> Poll(q) == Some(TopTier(line)) && Waits(line, TopTier(line))
  {
    LaneIsWaiting(q, line, High);
    LaneIsWaiting(q, line, Default);
    LaneIsWaiting(q, line, Low);
    if line != [] {
      assert Waits(line, line[0].tier);
    }
  }

  lemma ReverseOfPop(lane: seq<JobId>)
    requires lane != []
    ensures Reverse(lane) == [Last(lane)] + Reverse(DropLast(lane))
  {
    assert lane == DropLast(lane) + [Last(lane)];
    ReverseAppends(DropLast(lane), [Last(lane)]);
    assert Reverse([Last(lane)]) == [Last(lane)];
  }

  lemma HeadAndTail(x: JobId, xs: seq<JobId>, y: JobId, ys: seq<JobId>)
    requires [x] + xs == [y] + ys
    ensures x == y && xs == ys
  {
    assert ([x] + xs)[0] == x && ([y] + ys)[0] == y;
    assert ([x] + xs)[1..] == xs && ([y] + ys)[1..] == ys;
  }

  /** What is taken is the oldest ticket of the highest waiting tier, and nothing else leaves the line. */
  lemma ReservationRefines(q: Queues, line: Line)
    requires Refines(q, line) && line != []
    ensures Waits(line, TopTier(line)) && Poll(q) == Some(TopTier(line))
    ensures var i := FirstOf(line, TopTier(line));
            && q.Lane(TopTier(line)) != []
            && Last(q.Lane(TopTier(line))) == line[i].id
            && Refines(Reserve(q, TopTier(line)), Without(line, i))
  {
    PollFindsTop(q, line);
    var tier := TopTier(line);
    var i := FirstOf(line, tier);
    var lane := q.Lane(tier);
    assert lane != [];
    SliceWithout(line, i, tier);
    ReverseOfPop(lane);
    assert Reverse(lane) == Slice(line, tier);
    HeadAndTail(Last(lane), Reverse(DropLast(lane)), line[i].id, Slice(Without(line, i), tier));
    forall t ensures Reverse(Reserve(q, tier).Lane(t)) == Slice(Without(line, i), t) {
      if t != tier {
        SliceWithout(line, i, t);
        assert Reverse(q.Lane(t)) == Slice(line, t);
        assert Reserve(q, tier).Lane(t) == q.Lane(t);
      }
    }
  }

  // ---- Cancellation ----

  lemma {:induction false} RemoveAllIsFilter(s: seq<JobId>, id: JobId)
    ensures RemoveAll(s, id) == Except(s, {id}) && id !in Except(s, {id})
  {
    if s != [] {
      RemoveAllIsFilter(s[1..], id);
    }
  }

  lemma WithTouchesOneLane(q: Queues, tier: Tier, lane: seq<JobId>, other: Tier)
    ensures q.With(tier, lane).Lane(other) == if other == tier then lane else q.Lane(other)
    ensures q.With(tier, lane).scheduled == q.scheduled && q.With(tier, lane).processing == q.processing
  {}

  lemma SweepTouchesOnePlace(q: Queues, place: Place, id: JobId, tier: Tier)
    ensures Sweep(q, place, id).Lane(tier) == if place
         == Waiting(tier) then RemoveAll(q.Lane(tier), id) else q.Lane(tier)
    ensures Sweep(q, place, id).scheduled == if place == Calendar then q.scheduled - {id} else q.scheduled
    ensures Sweep(q, place, id).processing == q.processing
  {
    match place
    case Waiting(lane) => WithTouchesOneLane(q, lane, RemoveAll(q.Lane(lane), id), tier);
    case Calendar =>
  }

  /** No entry for the job waits any more; the processing list and every other entry stay where they were. */
  lemma CancelClearsQueues(q: Queues, id: JobId, tier: Tier)
    ensures SweepAll(q, id).Lane(tier) == Except(q.Lane(tier), {id}) && id !in SweepAll(q, id).Lane(tier)
    ensures SweepAll(q, id).scheduled == q.scheduled - {id} && SweepAll(q, id).processing == q.processing
  {
    var q1 := Sweep(q, Waiting(Default), id);
    var q2 := Sweep(q1, Waiting(High), id);
    var q3 := Sweep(q2, Waiting(Low), id);
    SweepTouchesOnePlace(q, Waiting(Default), id, tier);
    SweepTouchesOnePlace(q1, Waiting(High), id, tier);
    SweepTouchesOnePlace(q2, Waiting(Low), id, tier);
    SweepTouchesOnePlace(q3, Calendar, id, tier);
    RemoveAllIsFilter(q.Lane(tier), id);
  }

  lemma {:induction false} ExceptAppends(a: seq<JobId>, b: seq<JobId>, gone: set<JobId>)
    ensures Except(a + b, gone) == Except(a, gone) + Except(b, gone)
  {
    if a == [] {
      assert a + b == b;
    } else {
      assert a + b == [a[0]] + (a[1..] + b);
      ExceptAppends(a[1..], b, gone);
    }
  }

  lemma {:induction false} ExceptReverses(s: seq<JobId>, gone: set<JobId>)
    ensures Except(Reverse(s), gone) == Reverse(Except(s, gone))
  {
    if s != [] {
      ExceptReverses(s[1..], gone);
      ExceptAppends(Reverse(s[1..]), [s[0]], gone);
      assert Except([s[0]], gone) == if s[0] in gone then [] else [s[0]];
      ReverseAppends(if s[0] in gone then [] else [s[0]], Except(s[1..], gone));
      assert Reverse([s[0]]) == [s[0]];
    }
  }

  /** The line without the tickets of one job. */
  function Dropped(line: Line, id: JobId): Line {
    if line == [] then [] else (if line[0].id == id then [] else [line[0]]) + Dropped(line[1..], id)
  }

  lemma {:induction false} SliceDropped(line: Line, id: JobId, tier: Tier)
    ensures Slice(Dropped(line, id), tier) == Except(Slice(line, tier), {id})
  {
    if line != [] {
      var head, tail := line[0], line[1..];
      SliceDropped(tail, id, tier);
      SliceAppends(if head.id == id then [] else [head], Dropped(tail, id), tier);
      ExceptAppends(if head.tier == tier then [head.id] else [], Slice(tail, tier), {id});
      assert Slice([head], tier) == if head.tier == tier then [head.id] else [];
    }
  }

  /** A cancel request takes the tickets of the job out of the line, and no others. */
  lemma ForgetRefines(q: Queues, line: Line, id: JobId)
    requires Refines(q, line)
    ensures Refines(SweepAll(q, id), Dropped(line, id))
  {
    forall tier ensures Reverse(SweepAll(q, id).Lane(tier)) == Slice(Dropped(line, id), tier) {
      CancelClearsQueues(q, id, tier);
      ExceptReverses(q.Lane(tier), {id});
      SliceDropped(line, id, tier);
      assert Reverse(q.Lane(tier)) == Slice(line, tier);
    }
  }

  // ---- Whole histories of the queue ----

  datatype Op = Arrive(tier: Tier, id: JobId) | GiveBack(id: JobId) | Schedule(id: JobId,
      at: Time) | PromoteAt(now: Time) | Forget(id: JobId) | Serve

  /** The broker: its lists, and the ids its reservations returned so far. */
  datatype Counter = Counter(lists: Queues, served: seq<JobId>)

  ghost function Handle(c: Counter, op: Op): Counter {
    match op
    case Arrive(tier, id) => c.(lists := LPush(c.lists, tier, id))
    case GiveBack(id) => c.(lists := RPush(c.lists, Default, id))
    case Schedule(id, at) => c.(lists := ZAdd(c.lists, id, at))
    case PromoteAt(now) => c.(lists := Promote(c.lists, now))
    case Forget(id) => c.(lists := SweepAll(c.lists, id))
    case Serve =>
      if Poll(c.lists).None? then c
      else
        var tier := Poll(c.lists).value;
        Counter(Reserve(c.lists, tier), c.served + [Last(c.lists.Lane(tier))])
  }

  ghost function Play(ops: seq<Op>): Counter {
    if ops == [] then Counter(NO_ENTRIES, []) else Handle(Play(ops[..|ops| - 1]), ops[|ops| - 1])
  }

  /** The specification: one line, a calendar, and the ids served. */
  datatype Desk = Desk(line: Line, calendar: map<JobId, Time>, served: seq<JobId>)

  ghost function Attend(d: Desk, op: Op): Desk {
    match op
    case Arrive(tier, id) => d.(line := d.line + [Ticket(tier, id)])
    case GiveBack(id) => d.(line := [Ticket(Default, id)] + d.line)
    case Schedule(id, at) => d.(calendar := d.calendar[id := at])
    case PromoteAt(now) =>
      d.(line := d.line + Tickets(DueOrder(d.calendar, now)), calendar := d.calendar - DueSet(d.calendar, now))
    case Forget(id) => d.(line := Dropped(d.line, id), calendar := d.calendar - {id})
    case Serve =>
      if !Waits(d.line, TopTier(d.line)) then d
      else
        var i := FirstOf(d.line, TopTier(d.line));
        d.(line := Without(d.line, i), served := d.served + [d.line[i].id])
  }

  ghost function Imagine(ops: seq<Op>): Desk {
    if ops == [] then Desk([], map[], []) else Attend(Imagine(ops[..|ops| - 1]), ops[|ops| - 1])
  }

  ghost predicate Agrees(c: Counter, d: Desk) {
    Refines(c.lists, d.line) && c.lists.scheduled == d.calendar && c.served == d.served
  }

  lemma IdleServeAgrees(c: Counter, d: Desk)
    requires Agrees(c, d) && d.line == []
    ensures Handle(c, Serve) == c && Attend(d, Serve) == d
  {
    PollFindsTop(c.lists, d.line);
  }

  lemma BusyServeAgrees(c: Counter, d: Desk)
    requires Agrees(c, d) && d.line != []
    ensures Agrees(Handle(c, Serve), Attend(d, Serve))
  {
    ReservationRefines(c.lists, d.line);
    var tier := TopTier(d.line);
    var i := FirstOf(d.line, tier);
    assert Handle(c, Serve) == Counter(Reserve(c.lists, tier), c.served + [Last(c.lists.Lane(tier))]);
    assert Attend(d, Serve) == d.(line := Without(d.line, i), served := d.served + [d.line[i].id]);
    assert Reserve(c.lists, tier).scheduled == c.lists.scheduled;
  }

  lemma ForgetAgrees(c: Counter, d: Desk, id: JobId)
    requires Agrees(c, d)
    ensures Agrees(Handle(c, Forget(id)), Attend(d, Forget(id)))
  {
    ForgetRefines(c.lists, d.line, id);
    CancelClearsQueues(c.lists, id, Default);
  }

  lemma OpAgrees(c: Counter, d: Desk, op: Op)
    requires Agrees(c, d)
    ensures Agrees(Handle(c, op), Attend(d, op))
  {
    match op
    case Arrive(tier, id) => ArrivalRefines(c.lists, d.line, tier, id);
    case GiveBack(id) => ReturnRefines(c.lists, d.line, id);
    case Schedule(id, at) => ScheduleRefines(c.lists, d.line, id, at);
    case PromoteAt(now) => PromotionRefines(c.lists, d.line, now);
    case Forget(id) => ForgetAgrees(c, d, id);
    case Serve =>
      if d.line == [] {
        IdleServeAgrees(c, d);
      } else {
        BusyServeAgrees(c, d);
      }
  }

  lemma ScheduleRefines(q: Queues, line: Line, id: JobId, at: Time)
    requires Refines(q, line)
    ensures Refines(ZAdd(q, id, at), line)
  {
    assert forall tier :: ZAdd(q, id, at).Lane(tier) == q.Lane(tier);
  }

  /** After any history of the broker, reservations have returned what one line and one calendar would have served. */
  lemma {:induction false} BrokerRefinesLine(ops: seq<Op>)
    ensures Agrees(Play(ops), Imagine(ops))
  {
    if ops == [] {
      assert forall tier :: Reverse(NO_ENTRIES.Lane(tier)) == Slice([], tier);
    } else {
      BrokerRefinesLine(ops[..|ops| - 1]);
      OpAgrees(Play(ops[..|ops| - 1]), Imagine(ops[..|ops| - 1]), ops[|ops| - 1]);
    }
  }
}
