/** The Redis side: each function is the effect of one command, or of the promotion script. */
module Queues {
  import opened Domain

  datatype Tier = High | Default | Low

  /** Index 0 is the end LPUSH writes to; RPOPLPUSH and BRPOP take from the other end. */
  datatype Queues = Queues(
    high: seq<JobId>,
    normal: seq<JobId>,
    low: seq<JobId>,
    processing: seq<JobId>,
    scheduled: map<JobId, Time>)
  {
    function Lane(tier: Tier): seq<JobId> {
      match tier
      case High => high
      case Default => normal
      case Low => low
    }

    function With(tier: Tier, lane: seq<JobId>): Queues {
      match tier
      case High => this.(high := lane)
      case Default => this.(normal := lane)
      case Low => this.(low := lane)
    }
  }

  const NO_ENTRIES := Queues([], [], [], [], map[])

  function TierOf(priority: int): Tier {
    if priority > 0 then High else if priority < 0 then Low else Default
  }

  function LPush(q: Queues, tier: Tier, id: JobId): Queues {
    q.With(tier, [id] + q.Lane(tier))
  }

  function RPush(q: Queues, tier: Tier, id: JobId): Queues {
    q.With(tier, q.Lane(tier) + [id])
  }

  function DropLast(s: seq<JobId>): seq<JobId>
    requires s != []
  {
    s[..|s| - 1]
  }

  function Last(s: seq<JobId>): JobId
    requires s != []
  {
    s[|s| - 1]
  }

  /** How many entries of a list carry this id. */
  function Occurrences(s: seq<JobId>, id: JobId): (n: nat)
    ensures n > 0 <==> id in s
  {
    var bag: multiset<JobId> := multiset(s);
    bag[id]
  }

  /** RPOPLPUSH from a tier into the processing list. */
  function Reserve(q: Queues, tier: Tier): Queues
    requires q.Lane(tier) != []
  {
    Stash(Pop(q, tier), Last(q.Lane(tier)))
  }

  /** BRPOP: the popped id is in no list until it is stashed. */
  function Pop(q: Queues, tier: Tier): Queues
    requires q.Lane(tier) != []
  {
    q.With(tier, DropLast(q.Lane(tier)))
  }

  function Stash(q: Queues, id: JobId): Queues {
    q.(processing := [id] + q.processing)
  }

  /** LREM key 1 x: the first occurrence, from the head. */
  function RemoveFirst(s: seq<JobId>, x: JobId): (r: seq<JobId>)
    ensures multiset(r) == multiset(s) - multiset{x}
  {
    if s == [] then []
    else if s[0] == x then assert s == [x] + s[1..]; s[1..]
    else assert s == [s[0]] + s[1..]; [s[0]] + RemoveFirst(s[1..], x)
  }

  /** LREM key 0 x: every occurrence. */
  function RemoveAll(s: seq<JobId>, x: JobId): (r: seq<JobId>)
    ensures multiset(r) == multiset(s)[x := 0]
    ensures x !in s ==> r == s
  {
    if s == [] then []
    else
      assert s == [s[0]] + s[1..];
      if s[0] == x then RemoveAll(s[1..], x) else [s[0]] + RemoveAll(s[1..], x)
  }

  /** The entries of other jobs, in their order. */
  function Except(s: seq<JobId>, gone: set<JobId>): seq<JobId> {
    if s == [] then [] else (if s[0] in gone then [] else [s[0]]) + Except(s[1..], gone)
  }

  function Ack(q: Queues, id: JobId): Queues {
    q.(processing := RemoveFirst(q.processing, id))
  }

  function ZAdd(q: Queues, id: JobId, score: Time): Queues {
    q.(scheduled := q.scheduled[id := score])
  }

  datatype Place = Waiting(tier: Tier) | Calendar

  /** One of the four removals a cancel request issues. */
  function Sweep(q: Queues, place: Place, id: JobId): Queues {
    match place
    case Waiting(tier) => q.With(tier, RemoveAll(q.Lane(tier), id))
    case Calendar => q.(scheduled := q.scheduled - {id})
  }

  function SweepAll(q: Queues, id: JobId): Queues {
    Sweep(Sweep(Sweep(Sweep(q, Waiting(Default), id), Waiting(High), id), Waiting(Low), id), Calendar, id)
  }

  // ---- The promotion script ----

  predicate Due(scheduled: map<JobId, Time>, id: JobId, now: Time) {
    id in scheduled && scheduled[id] <= now
  }

  function DueSet(scheduled: map<JobId, Time>, now: Time): set<JobId> {
    set id | id in scheduled && Due(scheduled, id, now)
  }

  /** The order of a sorted set: by score, then by member. */
  predicate Before(scheduled: map<JobId, Time>, a: JobId, b: JobId)
    requires a in scheduled && b in scheduled
  {
    scheduled[a] < scheduled[b] || (scheduled[a] == scheduled[b] && a < b)
  }

  predicate Ascending(scheduled: map<JobId, Time>, ids: seq<JobId>) {
    && (forall i :: 0 <= i < |ids| ==> ids[i] in scheduled)
    && (forall i, j :: 0 <= i < j < |ids| ==> Before(scheduled, ids[i], ids[j]))
  }

  ghost predicate IsLeast(scheduled: map<JobId, Time>, ids: set<JobId>, m: JobId)
    requires ids <= scheduled.Keys
  {
    m in ids && forall x :: x in ids && x != m ==> Before(scheduled, m, x)
  }

  lemma {:induction false} LeastExists(scheduled: map<JobId, Time>, ids: set<JobId>) returns (m: JobId)
    requires ids <= scheduled.Keys && ids != {}
    ensures IsLeast(scheduled, ids, m)
  {
    var a :| a in ids;
    var rest := ids - {a};
    if rest == {} {
      m := a;
      assert forall x :: x in ids ==> x == a || x in rest;
    } else {
      var b := LeastExists(scheduled, rest);
      m := if Before(scheduled, a, b) then a else b;
      forall x | x in ids && x != m ensures Before(scheduled, m, x) {
        if x != a && x != b {
          assert x in rest && Before(scheduled, b, x);
        }
      }
    }
  }

  /** ZRANGEBYSCORE over a set of members: the ascending enumeration of the set. */
  ghost function InOrder(scheduled: map<JobId, Time>, ids: set<JobId>): (r: seq<JobId>)
    requires ids <= scheduled.Keys
    ensures forall x :: x in r <==> x in ids
    ensures Ascending(scheduled, r)
  {
    if ids == {} then []
    else
      assert exists m :: IsLeast(scheduled, ids, m) by { var m := LeastExists(scheduled, ids); }
      var m :| IsLeast(scheduled, ids, m);
      var rest := InOrder(scheduled, ids - {m});
      assert forall i :: 0 <= i < |rest| ==> rest[i] in ids - {m};
      [m] + rest
  }

  ghost function DueOrder(scheduled: map<JobId, Time>, now: Time): seq<JobId> {
    InOrder(scheduled, DueSet(scheduled, now))
  }

  function Reverse(s: seq<JobId>): (r: seq<JobId>)
    ensures |r| == |s|
    ensures multiset(r) == multiset(s)
    ensures forall i :: 0 <= i < |s| ==> r[i] == s[|s| - 1 - i]
  {
    if s == [] then []
    else assert s == [s[0]] + s[1..]; Reverse(s[1..]) + [s[0]]
  }

  ghost function Promote(q: Queues, now: Time): Queues {
    q.(normal := Reverse(DueOrder(q.scheduled, now)) + q.normal,
       scheduled := q.scheduled - DueSet(q.scheduled, now))
  }
}
