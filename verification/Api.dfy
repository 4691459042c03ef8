/** The three requests that change anything: submit, cancel and replay, each a table update and then a queue change. */
module Api {
  import opened Domain
  import opened Tables
  import opened Queues
  import opened Recurrence
  import opened Protocol
  import opened Store
  import opened Broker
  import opened Traces

  datatype Reply<T> = Done(value: T) | NotFound | BadRule | Invalid

  /** The bounds of the request model. */
  predicate WellFormedRequest(spec: Spec) {
    spec.kind != "" && 1 <= spec.maxAttempts <= 50
  }

  predicate RuleAccepted(spec: Spec, now: Time, cron: Cron) {
    Recurring(spec) ==> ComputeNextRun(spec.rule.value, now, cron).Ok?
  }

  method SubmitJob(db: Database, redis: Redis, spec: Spec, scheduledFor: Option<Time>, now: Time, cron: Cron)
    returns (reply: Reply<JobId>)
    modifies db, redis
    ensures reply.Done? <==> WellFormedRequest(spec) && RuleAccepted(spec, now, cron)
    // refused are exactly these
    ensures reply.Invalid? <==> spec.kind == "" || spec.maxAttempts < 1 || spec.maxAttempts > 50
    ensures reply.BadRule? <==>
      && !reply.Invalid? && spec.rule.Some? && spec.rule.value != "" && !HasNextRun(spec.rule.value, now, cron)
    ensures !reply.NotFound?
    ensures !reply.Done? ==> db.Rows() == old(db.Rows()) && redis.Entries() == old(redis.Entries())
    ensures reply.Done? ==>
      && reply.value !in old(db.jobs)
      && db.Rows() == InsertJob(old(db.Rows()), reply.value, spec, scheduledFor)
    ensures reply.Done? ==>
      redis.Entries() == if scheduledFor.None? then LPush(old(redis.Entries()), TierOf(spec.priority), reply.value)
                         else ZAdd(old(redis.Entries()), reply.value, scheduledFor.value)
  {
    if spec.rule.Some? {
      NextRunExactly(spec.rule.value, now, cron);
    }
    if spec.kind == "" || !(1 <= spec.maxAttempts <= 50) {
      return Invalid;
    }
    if spec.rule.Some? && spec.rule.value != "" {
      var next := ComputeNextRun(spec.rule.value, now, cron);
      if next.Error? {
        return BadRule;
      }
    }
    var id := db.CreateJob(spec, scheduledFor);
    match scheduledFor {
      case None => redis.EnqueueJob(id, spec.priority);
      case Some(at) => redis.ScheduleJob(id, at);
    }
    reply := Done(id);
  }

  method CancelJobById(db: Database, redis: Redis, id: JobId) returns (reply: Reply<Status>)
    modifies db, redis
    ensures reply.NotFound? <==> id !in old(db.jobs)
    ensures reply.NotFound? ==> db.Rows() == old(db.Rows()) && redis.Entries() == old(redis.Entries())
    ensures !reply.NotFound? ==>
      && reply == Done(if old(db.jobs)[id].status == Pending then Failed else old(db.jobs)[id].status)
      && db.Rows() == CancelJob(old(db.Rows()), id)
      && redis.Entries() == SweepAll(old(redis.Entries()), id)
    // a waiting job ends as cancelled by its user; every other row stays as it is
    ensures id in old(db.jobs) && old(db.jobs)[id].status == Pending ==>
      db.jobs == old(db.jobs)[id := old(db.jobs)[id].(status := Failed, error := Some("Job cancelled by user"),
                                                     lockedBy := None, lockedAt := None)]
    ensures id in old(db.jobs) && old(db.jobs)[id].status != Pending ==> db.jobs == old(db.jobs)
  {
    var seen := db.StatusOf(id);
    if seen.None? {
      return NotFound;
    }
    var status := db.CancelPendingJob(id, seen.value);
    redis.ForgetJob(id);
    reply := Done(status);
  }

  method ReplayDeadLetterJob(db: Database, redis: Redis, identifier: nat) returns (reply: Reply<LetterId>)
    modifies db, redis
    ensures reply.NotFound? <==> forall l :: !old(db.Matches(l, identifier))
    ensures reply.NotFound? ==> db.Rows() == old(db.Rows()) && redis.Entries() == old(redis.Entries())
    ensures !reply.NotFound? ==> reply.Done? && old(db.Matches(reply.value, identifier))
    // whatever its priority, the job goes to the default queue
    ensures reply.Done? ==>
      && db.Rows() == ReplayLetter(old(db.Rows()), reply.value)
      && redis.Entries() == LPush(old(redis.Entries()), Default, old(db.letters)[reply.value].jobId)
    // its letter is gone, and it has all its attempts again
    ensures reply.Done? ==>
      var id := old(db.letters)[reply.value].jobId;
      reply.value !in db.letters && (id in old(db.jobs) ==> id in db.jobs && StartsOver(old(db.jobs)[id], db.jobs[id]))
  {
    var replayed := db.ReplayDeadLetter(identifier);
    if replayed.None? {
      return NotFound;
    }
    redis.EnqueueJob(replayed.value.job, 0);
    reply := Done(replayed.value.letter);
  }

  /** Whatever the protocol lets in, the request with a non-empty type is accepted. */
  lemma EnabledIsAccepted(cfg: Config, s: System, id: JobId, spec: Spec, scheduledFor: Option<Time>)
    requires Enabled(cfg, s, Client(Submit(id, spec, scheduledFor))) && spec.kind != ""
    ensures WellFormedRequest(spec) && RuleAccepted(spec, s.now, cfg.cron)
  {}

  /** The protocol lets in exactly what these bounds and the grammar of rules allow. */
  lemma AcceptableExactly(cfg: Config, s: System, id: JobId, spec: Spec, scheduledFor: Option<Time>)
    ensures Enabled(cfg, s, Client(Submit(id, spec, scheduledFor))) <==>
            && id !in s.tables.jobs && 1 <= spec.maxAttempts <= 50
            && (spec.rule.Some? && spec.rule.value != "" ==> HasNextRun(spec.rule.value, s.now, cfg.cron))
  {
    if spec.rule.Some? {
      NextRunExactly(spec.rule.value, s.now, cfg.cron);
    }
  }

  // ---- As runs of the protocol ----

  /** What SubmitJob leaves behind is where this run ends. */
  lemma SubmitTrace(cfg: Config, s: System, id: JobId, spec: Spec, scheduledFor: Option<Time>)
    returns (steps: seq<Step>, u: System)
    requires id !in s.tables.jobs && WellFormedRequest(spec) && RuleAccepted(spec, s.now, cfg.cron)
    ensures Reaches(cfg, s, steps, u)
    ensures u.tables == InsertJob(s.tables, id, spec, scheduledFor)
    ensures u.queues == if scheduledFor.None? then LPush(s.queues, TierOf(spec.priority), id)
                        else ZAdd(s.queues, id, scheduledFor.value)
    ensures u.hands == s.hands
  {
    var route := if scheduledFor.None? then ByPriority else OnCalendar;
    var t;
    steps, t := First(cfg, s, Client(Submit(id, spec, scheduledFor)));
    assert t.hands == s.hands.Put(route, multiset{id}) && id in t.hands.On(route);
    assert SpecOf(t, id) == spec && (scheduledFor.Some? ==> ScoreOf(t, id) == scheduledFor.value);
    PutThenTake(s.hands, route, id);
    steps, u := OneMore(cfg, s, steps, t, Daemon(Push(route, id)));
  }

  lemma PutThenTake(h: Hands, route: Route, id: JobId)
    ensures h.Put(route, multiset{id}).Take(route, id) == h
  {
    assert h.On(route) + multiset{id} - multiset{id} == h.On(route);
  }

  function SweepEach(q: Queues, places: seq<Place>, id: JobId): Queues
    decreases |places|
  {
    if places == [] then q else SweepEach(Sweep(q, places[0], id), places[1..], id)
  }

  function RemovalsOf(id: JobId, places: seq<Place>): multiset<Removal> {
    if places == [] then multiset{} else multiset{Removal(id, places[0])} + RemovalsOf(id, places[1..])
  }

  lemma {:induction false} RemovalsTrace(cfg: Config, s: System, before: seq<Step>, t: System,
                                         owed: multiset<Removal>, id: JobId, places: seq<Place>)
    returns (steps: seq<Step>)
    requires Reaches(cfg, s, before, t) && t.removals == owed + RemovalsOf(id, places)
    ensures |steps| == |before| + |places| && before <= steps
    ensures Reaches(cfg, s, steps, t.(queues := SweepEach(t.queues, places, id), removals := owed))
    decreases |places|
  {
    if places == [] {
      assert t.removals == owed;
      steps := before;
    } else {
      var u;
      steps, u := RemoveTrace(cfg, s, before, t, id, places[0]);
      assert u.removals == owed + RemovalsOf(id, places[1..]);
      steps := RemovalsTrace(cfg, s, steps, u, owed, id, places[1..]);
    }
  }

  lemma FourPlaces(q: Queues, id: JobId)
    ensures var places := [Waiting(Default), Waiting(High), Waiting(Low), Calendar];
            SweepEach(q, places, id) == SweepAll(q, id) && RemovalsOf(id, places) == AllRemovals(id)
  {
    assert [Waiting(Default)] + [Waiting(High), Waiting(Low), Calendar] == [Waiting(Default), Waiting(High),
        Waiting(Low), Calendar];
    assert [Waiting(High)] + [Waiting(Low), Calendar] == [Waiting(High), Waiting(Low), Calendar];
    assert [Waiting(Low)] + [Calendar] == [Waiting(Low), Calendar];
    assert [Calendar] + [] == [Calendar];
    SweepCons(q, Waiting(Default), [Waiting(High), Waiting(Low), Calendar], id);
    var q1 := Sweep(q, Waiting(Default), id);
    SweepCons(q1, Waiting(High), [Waiting(Low), Calendar], id);
    var q2 := Sweep(q1, Waiting(High), id);
    SweepCons(q2, Waiting(Low), [Calendar], id);
    SweepCons(Sweep(q2, Waiting(Low), id), Calendar, [], id);
  }

  lemma SweepCons(q: Queues, place: Place, rest: seq<Place>, id: JobId)
    ensures SweepEach(q, [place] + rest, id) == SweepEach(Sweep(q, place, id), rest, id)
    ensures RemovalsOf(id, [place] + rest) == multiset{Removal(id, place)} + RemovalsOf(id, rest)
  {
    assert ([place] + rest)[1..] == rest;
  }

  /** What CancelJobById leaves behind is one step of the protocol. */
  lemma CancelTrace(cfg: Config, s: System, id: JobId)
    requires id in s.tables.jobs
    ensures Reaches(cfg, s, [Client(Cancel(id))], s.(tables := CancelJob(s.tables, id), queues := SweepAll(s.queues,
        id)))
  {
    var steps, u := First(cfg, s, Client(Cancel(id)));
  }

  lemma RemoveTrace(cfg: Config, s: System, before: seq<Step>, t: System, id: JobId, place: Place)
    returns (steps: seq<Step>, u: System)
    requires Reaches(cfg, s, before, t) && Removal(id, place) in t.removals
    ensures Reaches(cfg, s, steps, u) && steps == before + [Client(Remove(id, place))]
    ensures u == t.(queues := Sweep(t.queues, place, id), removals := t.removals - multiset{Removal(id, place)})
  {
    steps, u := OneMore(cfg, s, before, t, Client(Remove(id, place)));
  }

  /** The four removals after the row update, with nothing interleaved, end where the single step ends. */
  lemma SplitCancelIsCancel(cfg: Config, s: System, id: JobId) returns (steps: seq<Step>, u: System)
    requires id in s.tables.jobs
    ensures |steps| == 5 && steps[0] == Client(CancelRow(id))
    ensures Reaches(cfg, s, steps, u) && Reaches(cfg, s, [Client(Cancel(id))], u)
  {
    CancelTrace(cfg, s, id);
    var t;
    steps, t := First(cfg, s, Client(CancelRow(id)));
    FourPlaces(s.queues, id);
    var places := [Waiting(Default), Waiting(High), Waiting(Low), Calendar];
    steps := RemovalsTrace(cfg, s, steps, t, s.removals, id, places);
    u := t.(queues := SweepEach(t.queues, places, id), removals := s.removals);
    assert u == s.(tables := CancelJob(s.tables, id), queues := SweepAll(s.queues, id));
  }

  /** What ReplayDeadLetterJob leaves behind is where this run ends. */
  lemma ReplayTrace(cfg: Config, s: System, letter: LetterId) returns (steps: seq<Step>, u: System)
    requires letter in s.tables.letters
    ensures Reaches(cfg, s, steps, u)
    ensures u.tables == ReplayLetter(s.tables, letter) && u.hands == s.hands
    ensures u.queues == LPush(s.queues, Default, s.tables.letters[letter].jobId)
  {
    var id := s.tables.letters[letter].jobId;
    var t;
    steps, t := First(cfg, s, Client(Replay(letter)));
    PutThenTake(s.hands, ToDefault, id);
    steps, u := OneMore(cfg, s, steps, t, Daemon(Push(ToDefault, id)));
  }
}
