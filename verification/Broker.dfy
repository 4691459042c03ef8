/** The Redis lists and the scheduled set as the client functions change them in place. */
module Broker {
  import opened Domain
  import opened Queues
  import Ordering

  /** There is one ascending enumeration of a set of members. */
  lemma {:induction false} OneOrder(scheduled: map<JobId, Time>, a: seq<JobId>, b: seq<JobId>)
    requires Ascending(scheduled, a) && Ascending(scheduled, b)
    requires forall x :: x in a <==> x in b
    ensures a == b
  {
    assert a != [] ==> a[0] in b;
    assert b != [] ==> b[0] in a;
    if a != [] {
      SameHead(scheduled, a, b);
      TailKeepsOthers(scheduled, a);
      TailKeepsOthers(scheduled, b);
      OneOrder(scheduled, a[1..], b[1..]);
      assert a == [a[0]] + a[1..] && b == [b[0]] + b[1..];
    }
  }

  lemma SameHead(scheduled: map<JobId, Time>, a: seq<JobId>, b: seq<JobId>)
    requires Ascending(scheduled, a) && Ascending(scheduled, b) && a != [] && b != []
    requires forall x :: x in a <==> x in b
    ensures a[0] == b[0]
  {
    assert a[0] in b && b[0] in a;
    var i :| 0 <= i < |b| && b[i] == a[0];
    var j :| 0 <= j < |a| && a[j] == b[0];
  }

  lemma TailKeepsOthers(scheduled: map<JobId, Time>, a: seq<JobId>)
    requires Ascending(scheduled, a) && a != []
    ensures Ascending(scheduled, a[1..])
    ensures forall x :: x in a[1..] <==> x in a && x != a[0]
  {
    forall x | x in a && x != a[0] ensures x in a[1..] {
      var i :| 0 <= i < |a| && a[i] == x;
      assert a[1..][i - 1] == x;
    }
    forall x | x in a[1..] ensures x in a && x != a[0] {
      var i :| 0 <= i < |a| - 1 && a[1..][i] == x;
      assert Before(scheduled, a[0], a[i + 1]);
    }
  }

  lemma RemoveFirstCons(head: JobId, tail: seq<JobId>, x: JobId)
    ensures RemoveFirst([head] + tail, x) == if head == x then tail else [head] + RemoveFirst(tail, x)
  {
    assert ([head] + tail)[1..] == tail;
  }

  lemma ConsOfConcat(a: seq<JobId>, x: JobId, b: seq<JobId>)
    requires a != []
    ensures a + [x] + b == [a[0]] + (a[1..] + [x] + b) && [a[0]] + (a[1..] + b) == a + b
  {}

  lemma {:induction false} RemoveFirstSplit(a: seq<JobId>, x: JobId, b: seq<JobId>)
    requires x !in a
    ensures RemoveFirst(a + [x] + b, x) == a + b
  {
    if a == [] {
      RemoveFirstCons(x, b, x);
      assert [] + [x] + b == [x] + b && [] + b == b;
    } else {
      ConsOfConcat(a, x, b);
      RemoveFirstCons(a[0], a[1..] + [x] + b, x);
      RemoveFirstSplit(a[1..], x, b);
    }
  }

  lemma {:induction false} NoneToRemove(s: seq<JobId>, x: JobId)
    requires x !in s
    ensures RemoveFirst(s, x) == s
  {
    if s != [] {
      var head, tail := s[0], s[1..];
      assert s == [head] + tail;
      RemoveFirstCons(head, tail, x);
      NoneToRemove(tail, x);
    }
  }

  function Members(ids: seq<JobId>): set<JobId> {
    set x | x in ids
  }

  lemma MovedOneMore(ids: seq<JobId>, i: nat, lane: seq<JobId>, scores: map<JobId, Time>)
    requires i < |ids|
    ensures [ids[i]] + (Reverse(ids[..i]) + lane) == Reverse(ids[..i + 1]) + lane
    ensures scores - Members(ids[..i]) - {ids[i]} == scores - Members(ids[..i + 1])
  {
    assert ids[..i + 1] == ids[..i] + [ids[i]];
    Ordering.ReverseAppends(ids[..i], [ids[i]]);
    assert Reverse([ids[i]]) == [ids[i]];
  }

  lemma MembersAreDue(scheduled: map<JobId, Time>, now: Time)
    ensures Members(DueOrder(scheduled, now)) == DueSet(scheduled, now)
  {}

  class Redis {
    var high: seq<JobId>
    var normal: seq<JobId>
    var low: seq<JobId>
    var processing: seq<JobId>
    var scheduled: map<JobId, Time>

    function Entries(): Queues
      reads this
    {
      Queues(high, normal, low, processing, scheduled)
    }

    constructor ()
      ensures Entries() == NO_ENTRIES
    {
      high, normal, low, processing, scheduled := [], [], [], [], map[];
    }

    // ---- Single commands ----

    method PushLeft(tier: Tier, id: JobId)
      modifies this
      ensures Entries() == LPush(old(Entries()), tier, id)
    {
      match tier
      case High => high := [id] + high;
      case Default => normal := [id] + normal;
      case Low => low := [id] + low;
    }

    method PushRight(tier: Tier, id: JobId)
      modifies this
      ensures Entries() == RPush(old(Entries()), tier, id)
    {
      match tier
      case High => high := high + [id];
      case Default => normal := normal + [id];
      case Low => low := low + [id];
    }

    /** RPOPLPUSH into the processing list. */
    method PopToProcessing(tier: Tier) returns (id: Option<JobId>)
      modifies this
      ensures id.None? <==> old(Entries()).Lane(tier) == []
      ensures id.None? ==> Entries() == old(Entries())
      ensures id.Some? ==> id.value == Last(old(Entries()).Lane(tier)) && Entries() == Reserve(old(Entries()), tier)
    {
      var lane := Entries().Lane(tier);
      if lane == [] {
        return None;
      }
      var last := lane[|lane| - 1];
      match tier {
        case High => high := high[..|high| - 1];
        case Default => normal := normal[..|normal| - 1];
        case Low => low := low[..|low| - 1];
      }
      processing := [last] + processing;
      id := Some(last);
    }

    /** LREM processing 1 id: scan from the head, cut out the first occurrence. */
    method RemoveProcessing(id: JobId)
      modifies this
      ensures Entries() == Ack(old(Entries()), id)
    {
      var i := 0;
      while i < |processing| && processing[i] != id
        invariant 0 <= i <= |processing| && id !in processing[..i]
      {
        assert processing[..i + 1] == processing[..i] + [processing[i]];
        i := i + 1;
      }
      if i == |processing| {
        assert processing[..i] == processing;
        NoneToRemove(processing, id);
      } else {
        assert processing == processing[..i] + [id] + processing[i + 1..];
        RemoveFirstSplit(processing[..i], id, processing[i + 1..]);
        processing := processing[..i] + processing[i + 1..];
      }
    }

    // ---- Client functions ----

    method EnqueueJob(id: JobId, priority: int)
      modifies this
      ensures Entries() == LPush(old(Entries()), TierOf(priority), id)
    {
      if priority > 0 {
        PushLeft(High, id);
      } else if priority < 0 {
        PushLeft(Low, id);
      } else {
        PushLeft(Default, id);
      }
    }

    /** The non-blocking pass: RPOPLPUSH from each tier in turn. */
    method PollTiers() returns (id: Option<JobId>)
      modifies this
      ensures id.None? <==> Ordering.Poll(old(Entries())).None?
      ensures id.None? ==> Entries() == old(Entries())
      ensures id.Some? ==>
        var tier := Ordering.Poll(old(Entries())).value;
        && old(Entries()).Lane(tier) != []
        && id.value == Last(old(Entries()).Lane(tier))
        && Entries() == Reserve(old(Entries()), tier)
    {
      var tiers := [High, Default, Low];
      id := None;
      for i := 0 to 3
        invariant id.None? && Entries() == old(Entries())
        invariant forall j :: 0 <= j < i ==> Entries().Lane(tiers[j]) == []
      {
        id := PopToProcessing(tiers[i]);
        if id.Some? {
          assert i > 0 ==> Entries().Lane(tiers[0]) == [];
          assert i > 1 ==> Entries().Lane(tiers[1]) == [];
          return;
        }
      }
      assert Entries().Lane(tiers[0]) == [] && Entries().Lane(tiers[1]) == [] && Entries().Lane(tiers[2]) == [];
    }

    /** BRPOP high default low: the first key that has an entry gives up its last; None stands for the timeout. */
    method BlockingPop() returns (id: Option<JobId>)
      modifies this
      ensures id.None? <==> Ordering.Poll(old(Entries())).None?
      ensures id.None? ==> Entries() == old(Entries())
      ensures id.Some? ==>
        var tier := Ordering.Poll(old(Entries())).value;
        && old(Entries()).Lane(tier) != []
        && id.value == Last(old(Entries()).Lane(tier))
        && Entries() == Pop(old(Entries()), tier)
    {
      if high != [] {
        id := Some(high[|high| - 1]);
        high := high[..|high| - 1];
      } else if normal != [] {
        id := Some(normal[|normal| - 1]);
        normal := normal[..|normal| - 1];
      } else if low != [] {
        id := Some(low[|low| - 1]);
        low := low[..|low| - 1];
      } else {
        id := None;
      }
    }

    /** The fallback of a reservation: wait on all three keys, then move what came to the processing list. */
    method BlockOnTiers() returns (id: Option<JobId>)
      modifies this
      ensures id.None? <==> Ordering.Poll(old(Entries())).None?
      ensures id.None? ==> Entries() == old(Entries())
      ensures id.Some? ==>
        var tier := Ordering.Poll(old(Entries())).value;
        && old(Entries()).Lane(tier) != []
        && id.value == Last(old(Entries()).Lane(tier))
        && Entries() == Reserve(old(Entries()), tier)
    {
      id := BlockingPop();
      if id.Some? {
        processing := [id.value] + processing;
      }
    }

    /** Both halves; with nothing interleaved between them the second finds what the first has left: nothing. */
    method PriorityReserveJob() returns (id: Option<JobId>)
      modifies this
      ensures id.None? <==> Ordering.Poll(old(Entries())).None?
      ensures id.None? ==> Entries() == old(Entries())
      ensures id.Some? ==>
        var tier := Ordering.Poll(old(Entries())).value;
        && old(Entries()).Lane(tier) != []
        && id.value == Last(old(Entries()).Lane(tier))
        && Entries() == Reserve(old(Entries()), tier)
    {
      id := PollTiers();
      if id.None? {
        id := BlockOnTiers();
      }
    }

    method AckJob(id: JobId)
      modifies this
      ensures Entries() == Ack(old(Entries()), id)
    {
      RemoveProcessing(id);
    }

    method RequeueJob(id: JobId)
      modifies this
      ensures Entries() == RPush(Ack(old(Entries()), id), Default, id)
    {
      RemoveProcessing(id);
      PushRight(Default, id);
    }

    method ScheduleJob(id: JobId, at: Time)
      modifies this
      ensures Entries() == ZAdd(old(Entries()), id, at)
    {
      scheduled := scheduled[id := at];
    }

    /** ZRANGEBYSCORE scheduled -inf now. */
    method RangeByScore(now: Time) returns (due: seq<JobId>)
      ensures due == DueOrder(scheduled, now)
    {
      due := [];
      var todo := set id | id in scheduled && scheduled[id] <= now;
      ghost var all := todo;
      assert all == DueSet(scheduled, now);
      while todo != {}
        invariant todo <= all <= scheduled.Keys && Ascending(scheduled, due)
        invariant forall x :: x in due <==> x in all && x !in todo
        invariant forall x, y :: x in due && y in todo ==> Before(scheduled, x, y)
        decreases todo
      {
        var least := LeastOf(todo);
        due := due + [least];
        todo := todo - {least};
      }
      OneOrder(scheduled, due, DueOrder(scheduled, now));
    }

    method LeastOf(ids: set<JobId>) returns (m: JobId)
      requires ids != {} && ids <= scheduled.Keys
      ensures IsLeast(scheduled, ids, m)
    {
      m :| m in ids;
      var todo := ids - {m};
      while todo != {}
        invariant todo <= ids && m in ids && m !in todo
        invariant forall x :: x in ids && x !in todo && x != m ==> Before(scheduled, m, x)
        decreases todo
      {
        var x :| x in todo;
        if scheduled[x] < scheduled[m] || (scheduled[x] == scheduled[m] && x < m) {
          m := x;
        }
        todo := todo - {x};
      }
    }

    /** The body of the script: ZREM and LPUSH for each id that the range query returned. */
    method MoveToDefault(ids: seq<JobId>)
      modifies this
      ensures Entries() == old(Entries()).(normal := Reverse(ids) + old(normal),
          scheduled := old(scheduled) - Members(ids))
    {
      var i := 0;
      while i < |ids|
        invariant 0 <= i <= |ids|
        invariant high == old(high) && low == old(low) && processing == old(processing)
        invariant normal == Reverse(ids[..i]) + old(normal)
        invariant scheduled == old(scheduled) - Members(ids[..i])
      {
        MovedOneMore(ids, i, old(normal), old(scheduled));
        scheduled := scheduled - {ids[i]};
        normal := [ids[i]] + normal;
        i := i + 1;
      }
      assert ids[..i] == ids;
    }

    /** The promotion script: every due member leaves the set and joins the default queue, in order. */
    method PromoteDueScheduledJobs(now: Time) returns (promoted: seq<JobId>)
      modifies this
      ensures promoted == DueOrder(old(scheduled), now)
      ensures Entries() == Promote(old(Entries()), now)
    {
      promoted := RangeByScore(now);
      MembersAreDue(scheduled, now);
      MoveToDefault(promoted);
    }

    /** The removals of a cancel request: default, high, low, scheduled set. */
    method ForgetJob(id: JobId)
      modifies this
      ensures Entries() == SweepAll(old(Entries()), id)
    {
      normal := RemoveAll(normal, id);
      high := RemoveAll(high, id);
      low := RemoveAll(low, id);
      scheduled := scheduled - {id};
    }
  }
}
