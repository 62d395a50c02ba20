// What the system does not promise, each shown by a run: these are the
// conditions of the other theorems at work.
module Limits {
  import opened Wrappers
  import opened TaskTable
  import opened Protocol
  import opened Safety
  import opened Heartbeats
  import opened Leases
  import opened Stranding
  import opened Statements

  ghost predicate Reaches(s: State, t: State) {
    exists acts :: Exec(s, acts) == t
  }

  lemma ReachesSelf(s: State)
    ensures Reaches(s, s)
  {
    assert Exec(s, []) == s;
  }

  lemma ReachesNext(s: State, t: State, a: Action)
    requires Reaches(s, t)
    ensures Reaches(s, Step(t, a))
  {
    var acts :| Exec(s, acts) == t;
    assert (acts + [a])[..|acts|] == acts;
    assert Exec(s, acts + [a]) == Step(t, a);
  }

  // ---- one task, made and queued ----

  // One PENDING row, one token, a requeuer at rest.
  ghost predicate Ready(s: State, attempts: nat) {
    && |s.tasks| == 1 && s.queue == [0] && |s.procs| >= 1 && s.procs[0] == Resting
    && s.tasks[0].status.Pending? && s.tasks[0].attempts == attempts && s.tasks[0].scheduledFor.None?
    && Known(s.tasks[0].service)
    && forall p :: 0 <= p < |s.procs| ==> !MayServe(s.procs[p], 0)
  }

  lemma TestIsKnown()
    ensures Known("test")
  {
    assert Lower("test") == "test";
  }

  lemma FirstRow(start: Time, service: string, when: Option<Time>) returns (s: State)
    ensures Reaches(Init(start), s)
    ensures |s.procs| == 2 && s.procs[0] == Resting && s.procs[1].Returned? && s.procs[1].id == 0
    ensures s.queue == [] && s.beats == [] && s.tasks == [s.procs[1].task] && s.now == start
    ensures s.tasks[0] == NewRow(Request(7, service, "a@b.c", None, when), start)
  {
    var req := Request(7, service, "a@b.c", None, when);
    var s0 := Init(start);
    ReachesSelf(s0);
    var s1 := Step(s0, Spawn(Resting));
    ReachesNext(s0, s0, Spawn(Resting));
    var s2 := Step(s1, Spawn(Arrived(req)));
    ReachesNext(s0, s1, Spawn(Arrived(req)));
    assert s2.procs == [Resting, Arrived(req)] && s2.tasks == [] && s2.queue == [];
    s := Step(s2, Create(1, Insert));
    ReachesNext(s0, s2, Create(1, Insert));
    assert s == AfterInsert(s2, 1);
  }

  lemma FirstTask(start: Time) returns (s: State)
    ensures Reaches(Init(start), s) && Ready(s, 0)
    ensures s.now == start && s.beats == [] && s.tasks[0].createdAt == start
    ensures IsNew(s.tasks[0]) && |s.procs| == 2 && s.procs[1].Answered? && s.procs[1].code == 201 && s.procs[1].id == 0
  {
    var s3 := FirstRow(start, "test", None);
    s := FirstEnqueued(start, s3);
    ReachesTrans(Init(start), s3, s);
    TestIsKnown();
  }

  // The request decides by the API's clock, goNow, and pushes.
  lemma FirstEnqueued(goNow: Time, s: State) returns (t: State)
    requires |s.procs| == 2 && s.procs[0] == Resting && s.procs[1].Returned? && s.procs[1].id == 0
    requires s.queue == [] && s.tasks == [s.procs[1].task] && IsNew(s.tasks[0]) && !ScheduledFuture(s.tasks[0], goNow)
    ensures Reaches(s, t)
    ensures t.tasks == s.tasks && t.now == s.now && t.beats == s.beats
    ensures t.queue == [0] && |t.procs| == 2 && t.procs[0] == Resting
    ensures t.procs[1].Answered? && t.procs[1].code == 201 && t.procs[1].id == 0
  {
    ReachesSelf(s);
    var s1 := Step(s, Create(1, Settle(goNow)));
    ReachesNext(s, s, Create(1, Settle(goNow)));
    assert s1 == AfterSettle(s, 1, goNow);
    t := Step(s1, Create(1, Enqueue));
    ReachesNext(s, s1, Create(1, Enqueue));
    assert t == CreateNext(s1, 1, Enqueue);
  }

  // A fresh worker takes the only token and claims.
  lemma Taken(s: State, n: nat) returns (t: State)
    requires Ready(s, n)
    ensures Reaches(s, t)
    ensures |t.tasks| == 1 && t.queue == [] && |t.procs| == |s.procs| + 1 && t.now == s.now && t.beats == s.beats
    ensures forall i :: 0 <= i < |s.procs| ==> t.procs[i] == s.procs[i]
    ensures t.tasks[0] == ClaimRow(s.tasks[0], |s.procs|, s.now) && t.procs[|s.procs|] == Running(0, t.tasks[0])
  {
    var q := |s.procs|;
    ReachesSelf(s);
    var s1 := Step(s, Spawn(Idle));
    ReachesNext(s, s, Spawn(Idle));
    assert s1 == s.(procs := s.procs + [Idle]);
    var s2 := Step(s1, Work(q, Pop));
    ReachesNext(s, s1, Work(q, Pop));
    assert s2 == WorkNext(s1, q, Pop);
    t := Step(s2, Work(q, Claim));
    ReachesNext(s, s2, Work(q, Claim));
    assert t == AfterClaim(s2, q);
  }

  // A pass of the requeuer up to the reset of the only row, now stale.
  const TakeBack: seq<Action> := [Requeue(0, Scan([0])), Requeue(0, Reset)]

  lemma TakenBack(s: State) returns (t: State)
    requires |s.tasks| == 1 && |s.procs| >= 1 && s.procs[0] == Resting && Stale(s.tasks[0], s.now)
    ensures t == Step(Step(s, TakeBack[0]), TakeBack[1])
    ensures t == s.(tasks := [Release(s.tasks[0], Pending, s.now)], log := s.log + [Entry(0, Reclaimed)],
                    procs := s.procs[0 := Repushing(s.now, [0], 0, true)])
  {
    assert Lists([0], s.tasks, s.now);
    var s1 := Step(s, TakeBack[0]);
    assert s1 == SetProc(s, 0, Resetting(s.now, [0], 0, true));
    t := Step(s1, TakeBack[1]);
    assert t == AfterReset(s1, 0);
  }

  // Half a minute of silence, and such a pass.
  lemma Silenced(s: State) returns (t: State)
    requires |s.tasks| == 1 && s.queue == [] && |s.procs| >= 2 && s.procs[0] == Resting
    requires s.tasks[0].status.InProgress? && s.tasks[0].lockedAt == Some(s.now)
    ensures Reaches(s, t) && t.now == s.now + STALE_LOCK_THRESHOLD + 1
    ensures t.queue == [] && t.procs == s.procs[0 := Repushing(t.now, [0], 0, true)]
    ensures t.tasks == [Release(s.tasks[0], Pending, t.now)]
  {
    ReachesSelf(s);
    var wait := Tick(STALE_LOCK_THRESHOLD + 1);
    var s1 := Step(s, wait);
    ReachesNext(s, s, wait);
    assert s1 == s.(now := s.now + STALE_LOCK_THRESHOLD + 1);
    t := TakenBack(s1);
    ReachesNext(s, s1, TakeBack[0]);
    ReachesNext(s, Step(s1, TakeBack[0]), TakeBack[1]);
  }

  lemma Requeued(s: State) returns (t: State)
    requires |s.tasks| == 1 && s.queue == [] && |s.procs| >= 2 && s.procs[0] == Resting
    requires s.tasks[0].status.InProgress? && s.tasks[0].lockedAt == Some(s.now)
    ensures Reaches(s, t)
    ensures |t.tasks| == 1 && t.queue == [0] && t.procs == s.procs
    ensures t.tasks[0] == Release(s.tasks[0], Pending, t.now)
  {
    var s3 := Silenced(s);
    var s4 := Step(s3, Requeue(0, Repush));
    ReachesNext(s, s3, Requeue(0, Repush));
    assert s4 == RequeueNext(s3, 0, Repush);
    t := Step(s4, Requeue(0, EndPass));
    ReachesNext(s, s4, Requeue(0, EndPass));
    assert t == RequeueNext(s4, 0, EndPass);
  }

  lemma ReachesTrans(s: State, t: State, u: State)
    requires Reaches(s, t) && Reaches(t, u)
    ensures Reaches(s, u)
  {
    var xs :| Exec(s, xs) == t;
    var ys :| Exec(t, ys) == u;
    ExecConcat(s, xs, ys);
  }

  // ---- max_attempts is no ceiling ----

  lemma {:induction false} ReadyAt(start: Time, n: nat) returns (s: State)
    ensures Reaches(Init(start), s) && Ready(s, n)
  {
    if n == 0 {
      s := FirstTask(start);
    } else {
      var s0 := ReadyAt(start, n - 1);
      var s1 := Taken(s0, n - 1);
      s := Requeued(s1);
      ReachesTrans(s0, s1, s);
      ReachesTrans(Init(start), s0, s);
    }
  }

  // Neither the requeue nor the claim checks the limit: a task whose workers
  // keep going silent is attempted any number of times.
  lemma NoCeilingOnAttempts(start: Time, n: nat)
    ensures exists acts ::
              var s := Exec(Init(start), acts);
              |s.tasks| == 1 && s.tasks[0].maxAttempts == DEFAULT_MAX_ATTEMPTS && s.tasks[0].attempts == n
  {
    var s := ReadyAt(start, n);
    var acts :| Exec(Init(start), acts) == s;
    CoreAlways(start, acts);
    assert RowOk(s.tasks[0], s.now);
  }

  // ---- late heartbeats: two workers, one task ----

  // Without timely beats two live workers can be inside the same task.
  lemma SilentWorkersShareATask(start: Time)
    ensures exists acts, p: ProcId, q: ProcId ::
              var s := Exec(Init(start), acts);
              p < q < |s.procs| && Inside(s.procs[p]) && Inside(s.procs[q]) && s.procs[p].id == s.procs[q].id
  {
    var s0 := FirstTask(start);
    var s1 := Taken(s0, 0);
    var s2 := Requeued(s1);
    var s3 := Taken(s2, 1);
    ReachesTrans(s0, s1, s2);
    ReachesTrans(s0, s2, s3);
    ReachesTrans(Init(start), s0, s3);
    var acts :| Exec(Init(start), acts) == s3;
    var p, q := |s0.procs|, |s2.procs|;
    assert Inside(s3.procs[p]) && Inside(s3.procs[q]) && s3.procs[p].id == s3.procs[q].id;
  }

  // ---- a failed push after a reset is never repaired ----

  // The same silence and pass, with the push failing.
  lemma PushLost(s: State) returns (t: State)
    requires |s.tasks| == 1 && s.queue == [] && |s.procs| >= 2 && s.procs[0] == Resting
    requires s.tasks[0].status.InProgress? && s.tasks[0].lockedAt == Some(s.now)
    ensures Reaches(s, t)
    ensures |t.tasks| == 1 && t.queue == [] && |t.procs| == |s.procs| && t.procs[0].Resetting?
    ensures forall i :: 0 < i < |s.procs| ==> t.procs[i] == s.procs[i]
    ensures t.tasks[0] == Release(s.tasks[0], Pending, t.now) && s.now < t.now
  {
    var s3 := Silenced(s);
    t := Step(s3, Requeue(0, RepushFail));
    ReachesNext(s, s3, Requeue(0, RepushFail));
    assert t == RequeueNext(s3, 0, RepushFail);
  }

  lemma LostPush(start: Time) returns (t: State)
    ensures Reaches(Init(start), t)
    ensures Stranded(t, 0) && t.tasks[0].status.Pending?
  {
    var s0 := FirstTask(start);
    var s1 := Taken(s0, 0);
    ReachesTrans(Init(start), s0, s1);
    t := PushLost(s1);
    ReachesTrans(Init(start), s1, t);
    forall p | 0 <= p < |t.procs| ensures !MayServe(t.procs[p], 0) {
      assert 0 < p < |s0.procs| ==> t.procs[p] == s0.procs[p];
    }
    var before :| Exec(Init(start), before) == s1;
    CoreAlways(start, before);
    assert RowOk(s1.tasks[0], s1.now);
  }

  // Some run strands a PENDING task by one failed push, and then no
  // continuation whatsoever touches it again: no later scan catches it.
  lemma LostPushStrandsForGood(start: Time)
    ensures exists acts ::
              var s := Exec(Init(start), acts);
              Stranded(s, 0) && s.tasks[0].status.Pending?
              && forall more :: Stranded(Exec(s, more), 0) && Exec(s, more).tasks[0] == s.tasks[0]
  {
    var t := LostPush(start);
    var acts :| Exec(Init(start), acts) == t;
    CoreAlways(start, acts);
    forall more ensures Stranded(Exec(t, more), 0) && Exec(t, more).tasks[0] == t.tasks[0] {
      StrandedForever(t, more, 0);
    }
  }

  // ---- a failed push after an insert is repaired by the client alone ----

  lemma FirstUnpushed(start: Time) returns (s: State)
    ensures Reaches(Init(start), s)
    ensures |s.procs| == 2 && s.procs[0] == Resting && s.procs[1].Answered? && s.procs[1].code == 201
    ensures s.queue == [] && |s.tasks| == 1
    ensures s.tasks[0].status.Pending? && IsNew(s.tasks[0]) && s.tasks[0].scheduledFor.None?
  {
    var s0 := FirstRow(start, "test", None);
    var s1 := Step(s0, Create(1, Settle(start)));
    ReachesNext(Init(start), s0, Create(1, Settle(start)));
    assert s1 == AfterSettle(s0, 1, start);
    s := Step(s1, Create(1, EnqueueFail));
    ReachesNext(Init(start), s1, Create(1, EnqueueFail));
    assert s == CreateNext(s1, 1, EnqueueFail);
  }

  // A request is answered 201 although its push failed. From then on no
  // requeuer, scheduler, worker or other request ever touches the row, for as
  // long as nobody repeats its key; the request repeated, it can still run.
  lemma LostCreatePushWaitsForTheClient(start: Time)
    ensures exists acts ::
              var s := Exec(Init(start), acts);
              && Orphaned(s, 0) && |s.procs| == 2 && s.procs[1].Answered? && s.procs[1].code == 201
              && Revivable(s, 0, s.tasks[0].attempts, true)
              && forall more :: NeverLooksUp(more, 0) ==>
                   Orphaned(Exec(s, more), 0) && Exec(s, more).tasks[0] == s.tasks[0]
  {
    var s := FirstUnpushed(start);
    var acts :| Exec(Init(start), acts) == s;
    CoreAlways(start, acts);
    assert forall p :: 0 <= p < |s.procs| ==> !MayServe(s.procs[p], 0);
    NewRuns(s, 0, s.tasks[0].attempts);
    forall more | NeverLooksUp(more, 0) ensures Orphaned(Exec(s, more), 0) && Exec(s, more).tasks[0] == s.tasks[0] {
      OrphanedForever(s, more, 0);
    }
  }

  // ---- the recovery bound is reached ----

  // A pass just at the threshold finds the lock still fresh, and the next one
  // comes a whole gap later.
  lemma ScannedTooEarly(s: State, gap: nat) returns (t: State)
    requires |s.tasks| == 1 && |s.procs| >= 1 && s.procs[0] == Resting && s.lastPass <= s.now
    requires s.tasks[0].status.InProgress? && s.tasks[0].lockedAt == Some(s.now)
    ensures Reaches(s, t) && t.tasks == s.tasks
    ensures t.lastPass == s.now + STALE_LOCK_THRESHOLD && t.now == t.lastPass + gap
  {
    ReachesSelf(s);
    var wait := Tick(STALE_LOCK_THRESHOLD);
    var s1 := Step(s, wait);
    ReachesNext(s, s, wait);
    assert s1 == s.(now := s.now + STALE_LOCK_THRESHOLD);
    assert Lists([], s1.tasks, s1.now);
    var s2 := Step(s1, Requeue(0, Scan([])));
    ReachesNext(s, s1, Requeue(0, Scan([])));
    assert s2 == SetProc(s1, 0, Resetting(s1.now, [], 0, true));
    var s3 := Step(s2, Requeue(0, EndPass));
    ReachesNext(s, s2, Requeue(0, EndPass));
    assert s3 == RequeueNext(s2, 0, EndPass);
    t := Step(s3, Tick(gap));
    ReachesNext(s, s3, Tick(gap));
  }

  // So threshold + gap is exact: a row can be silent that long while the latest
  // clean scan is gap old, and the scan that is due then need not have begun.
  lemma RecoveryBoundIsReached(start: Time, gap: nat)
    ensures exists acts ::
              var s := Exec(Init(start), acts);
              && |s.tasks| == 1 && s.tasks[0].status.InProgress? && s.tasks[0].lockedAt.Some?
              && s.now - s.lastPass == gap && s.now - s.tasks[0].lockedAt.value == STALE_LOCK_THRESHOLD + gap
  {
    var s0 := FirstTask(start);
    var s1 := Taken(s0, 0);
    ReachesTrans(Init(start), s0, s1);
    var before :| Exec(Init(start), before) == s1;
    RecoversAlways(start, before);
    var t := ScannedTooEarly(s1, gap);
    ReachesTrans(Init(start), s1, t);
    var acts :| Exec(Init(start), acts) == t;
  }

  // ---- an intolerable pulse costs a live worker its task ----

  // What the built run has done when n beats have been sent: the first misses
  // of them are lost, the others still on their way.
  ghost predicate Beating(s: State, acts: seq<Action>, w: ProcId, period: nat, misses: nat, n: nat) {
    && Exec(s, acts) == s.(now := s.now + n * period,
                           beats := seq(if n <= misses then 0 else n - misses, i => Beat(w, 0)))
    && Sends(s, acts, w) == seq(n, (i: nat) => s.now + (i + 1) * period)
  }

  lemma NothingSentYet(s: State, w: ProcId, period: nat, misses: nat)
    requires s.beats == []
    ensures Beating(s, [], w, period, misses, 0)
  {
  }

  lemma AfterTick(s: State, acts: seq<Action>, w: ProcId, d: nat)
    ensures Exec(s, acts + [Tick(d)]) == Exec(s, acts).(now := Exec(s, acts).now + d)
    ensures Sends(s, acts + [Tick(d)], w) == Sends(s, acts, w)
  {
    ExecPush(s, acts, Tick(d));
    SendsPush(s, acts, Tick(d), w);
  }

  lemma AfterSend(s: State, acts: seq<Action>, w: ProcId)
    requires WorkCan(Exec(s, acts), w, SendBeat)
    ensures
      var t := Exec(s, acts);
      && Exec(s, acts + [Work(w, SendBeat)]) == t.(beats := t.beats + [Beat(w, t.procs[w].id)])
      && Sends(s, acts + [Work(w, SendBeat)], w) == Sends(s, acts, w) + [t.now]
  {
    ExecPush(s, acts, Work(w, SendBeat));
    SendsPush(s, acts, Work(w, SendBeat), w);
  }

  lemma AfterLoss(s: State, acts: seq<Action>, w: ProcId)
    requires |Exec(s, acts).beats| == 1
    ensures Exec(s, acts + [LoseBeat(0)]) == Exec(s, acts).(beats := [])
    ensures Sends(s, acts + [LoseBeat(0)], w) == Sends(s, acts, w)
  {
    ExecPush(s, acts, LoseBeat(0));
    SendsPush(s, acts, LoseBeat(0), w);
  }

  // One period later the timer fires; a beat that is to be missed is lost at once.
  lemma OneMoreBeat(s: State, acts: seq<Action>, w: ProcId, period: nat, misses: nat, n: nat)
      returns (more: seq<Action>)
    requires Beating(s, acts, w, period, misses, n)
    requires w < |s.procs| && s.procs[w].Running? && s.procs[w].id == 0
    ensures Beating(s, more, w, period, misses, n + 1)
  {
    AfterTick(s, acts, w, period);
    AfterSend(s, acts + [Tick(period)], w);
    more := acts + [Tick(period)] + [Work(w, SendBeat)];
    OneMorePeriod(s.now, period, n);
    OneMoreFlying(Beat(w, 0), misses, n);
    if n < misses {
      AfterLoss(s, more, w);
      more := more + [LoseBeat(0)];
    }
  }

  lemma OneMorePeriod(start: Time, period: nat, n: nat)
    ensures start + (n + 1) * period == start + n * period + period
    ensures seq(n, (i: nat) => start + (i + 1) * period) + [start + n * period + period]
         == seq(n + 1, (i: nat) => start + (i + 1) * period)
  {
    assert (n + 1) * period == n * period + period;
  }

  lemma OneMoreFlying(b: Beat, misses: nat, n: nat)
    ensures n < misses ==> seq(if n <= misses then 0 else n - misses, i => b) == []
    ensures n < misses ==> seq(if n + 1 <= misses then 0 else n + 1 - misses, i => b) == []
    ensures n >= misses ==> seq(if n <= misses then 0 else n - misses, i => b) + [b]
                            == seq(if n + 1 <= misses then 0 else n + 1 - misses, i => b)
  {
  }

  // All the firings strictly within the threshold.
  lemma BeatsAllAlong(s: State, w: ProcId, period: nat, misses: nat) returns (more: seq<Action>, n: nat)
    requires s.beats == [] && w < |s.procs| && s.procs[w].Running? && s.procs[w].id == 0 && period > 0
    ensures Beating(s, more, w, period, misses, n)
    ensures n * period <= STALE_LOCK_THRESHOLD < (n + 1) * period
  {
    more, n := [], 0;
    NothingSentYet(s, w, period, misses);
    while (n + 1) * period <= STALE_LOCK_THRESHOLD
      invariant Beating(s, more, w, period, misses, n) && n * period <= STALE_LOCK_THRESHOLD
      decreases STALE_LOCK_THRESHOLD - n * period
    {
      more := OneMoreBeat(s, more, w, period, misses, n);
      assert (n + 1) * period == n * period + period;
      n := n + 1;
    }
  }

  // Then the rest of the threshold passes and the row is taken back.
  lemma ReclaimedAfter(s: State, beating: seq<Action>, w: ProcId, period: nat, misses: nat, n: nat)
      returns (more: seq<Action>, t: State)
    requires Beating(s, beating, w, period, misses, n) && n * period <= STALE_LOCK_THRESHOLD
    requires |s.tasks| == 1 && |s.procs| >= 1 && s.procs[0] == Resting
    requires s.tasks[0].status.InProgress? && s.tasks[0].lockedAt == Some(s.now)
    ensures t == Exec(s, more) && Sends(s, more, w) == seq(n, (i: nat) => s.now + (i + 1) * period)
    ensures t.now == s.now + STALE_LOCK_THRESHOLD + 1
    ensures t.beats == seq(if n <= misses then 0 else n - misses, i => Beat(w, 0))
    ensures t.tasks == [Release(s.tasks[0], Pending, t.now)]
    ensures |t.procs| == |s.procs| && forall i :: 0 < i < |s.procs| ==> t.procs[i] == s.procs[i]
  {
    var wait := Tick(STALE_LOCK_THRESHOLD + 1 - n * period);
    var a1 := beating + [wait];
    ExecPush(s, beating, wait);
    SendsPush(s, beating, wait, w);
    t := TakenBack(Exec(s, a1));
    ExecPush(s, a1, TakeBack[0]);
    SendsPush(s, a1, TakeBack[0], w);
    var a2 := a1 + [TakeBack[0]];
    ExecPush(s, a2, TakeBack[1]);
    SendsPush(s, a2, TakeBack[1], w);
    more := a2 + [TakeBack[1]];
  }

  lemma {:induction false} NoneLandedYet(h: Pulse, misses: nat, n: nat, now: Time)
    requires n <= |h.landings|
    requires forall i :: 0 <= i < n ==> (h.landings[i].Some? <==> i >= misses)
    requires forall i :: 0 <= i < n && h.landings[i].Some? ==> h.landings[i].value >= now
    ensures Awaited(h, n, now) == if n <= misses then 0 else n - misses
  {
    if n > 0 {
      NoneLandedYet(h, misses, n - 1, now);
    }
  }

  lemma {:induction false} CountBeats(b: Beat, n: nat)
    ensures multiset(seq(n, i => b))[b] == n
  {
    if n > 0 {
      CountBeats(b, n - 1);
      assert seq(n, i => b) == seq(n - 1, i => b) + [b];
    }
  }

  // Of the slowest pulse, the firings within the threshold are the first n.
  lemma FirstFirings(start: Time, misses: nat, jitter: nat, delay: nat, n: nat, h: Pulse)
    requires h == Slowest(start, misses, jitter, delay, STALE_LOCK_THRESHOLD + 1)
    requires n * (HEARTBEAT_INTERVAL + jitter) <= STALE_LOCK_THRESHOLD < (n + 1) * (HEARTBEAT_INTERVAL + jitter)
    ensures n <= |h.fires| == |h.landings|
    ensures seq(n, (i: nat) => start + (i + 1) * (HEARTBEAT_INTERVAL + jitter)) == h.fires[..n]
    ensures forall i :: n <= i < |h.fires| ==> h.fires[i] >= start + STALE_LOCK_THRESHOLD + 1
  {
    var period := HEARTBEAT_INTERVAL + jitter;
    MoreBeats(1, period, n);
    forall i | n <= i < |h.fires| ensures h.fires[i] >= start + STALE_LOCK_THRESHOLD + 1 {
      MoreBeats(n + 1, i + 1, period);
    }
  }

  // The beats of the built run are those of the slowest pulse.
  lemma SlowBeatsMatch(
      start: Time, sent: seq<Time>, flying: seq<Beat>, b: Beat, misses: nat, jitter: nat, delay: nat, n: nat, h: Pulse)
    requires n * (HEARTBEAT_INTERVAL + jitter) <= STALE_LOCK_THRESHOLD < (n + 1) * (HEARTBEAT_INTERVAL + jitter)
    requires sent == seq(n, (i: nat) => start + (i + 1) * (HEARTBEAT_INTERVAL + jitter))
    requires flying == seq(if n <= misses then 0 else n - misses, i => b)
    requires h == Slowest(start, misses, jitter, delay, STALE_LOCK_THRESHOLD + 1)
    requires Silence(misses, jitter, delay) > STALE_LOCK_THRESHOLD
    ensures BeatsMatch(sent, flying, start + STALE_LOCK_THRESHOLD + 1, b, h)
  {
    FirstFirings(start, misses, jitter, delay, n, h);
    var same := SlowestIsTooSlow(start, misses, jitter, delay);
    NoneLandedYet(h, misses, n, start + STALE_LOCK_THRESHOLD + 1);
    CountBeats(b, if n <= misses then 0 else n - misses);
  }

  // From a claim, the slowest pulse's beats and then the reset.
  lemma SlowlyReclaimed(s: State, w: ProcId, misses: nat, jitter: nat, delay: nat, h: Pulse)
      returns (more: seq<Action>, t: State)
    requires |s.tasks| == 1 && s.beats == [] && 0 < w < |s.procs| && s.procs[0] == Resting
    requires s.tasks[0].status.InProgress? && s.tasks[0].lockedAt == Some(s.now)
    requires s.procs[w].Running? && s.procs[w].id == 0
    requires h == Slowest(s.now, misses, jitter, delay, STALE_LOCK_THRESHOLD + 1)
    requires Silence(misses, jitter, delay) > STALE_LOCK_THRESHOLD
    ensures t == Exec(s, more) && BeatsAre(s, more, Beat(w, 0), h)
    ensures t.now == s.now + STALE_LOCK_THRESHOLD + 1
    ensures t.tasks == [Release(s.tasks[0], Pending, t.now)] && |t.procs| == |s.procs| && t.procs[w] == s.procs[w]
  {
    var beating, n := BeatsAllAlong(s, w, HEARTBEAT_INTERVAL + jitter, misses);
    more, t := ReclaimedAfter(s, beating, w, HEARTBEAT_INTERVAL + jitter, misses, n);
    SlowBeatsMatch(s.now, Sends(s, more, w), t.beats, Beat(w, 0), misses, jitter, delay, n, h);
  }

  lemma LiveWorkerReclaimed(start: Time, misses: nat, jitter: nat, delay: nat)
      returns (s: State, more: seq<Action>, w: ProcId, h: Pulse)
    requires Silence(misses, jitter, delay) > STALE_LOCK_THRESHOLD
    ensures Reaches(Init(start), s) && Watched(s, more, w, 0, h, misses, jitter, delay)
    ensures BeatsAre(s, more, Beat(w, 0), h)
    ensures |Exec(s, more).tasks| == 1 && !OwnedBy(Exec(s, more).tasks[0], w)
  {
    var s0 := FirstTask(start);
    s := Taken(s0, 0);
    ReachesTrans(Init(start), s0, s);
    w := |s0.procs|;
    h := SlowestIsTooSlow(s.now, misses, jitter, delay);
    var t;
    more, t := SlowlyReclaimed(s, w, misses, jitter, delay, h);
    var acts :| Exec(Init(start), acts) == s;
    CoreAlways(start, acts);
    NothingDueYet(s, more, Beat(w, 0), h);
  }

  // In whole runs, too, the tolerance is exact: every worker inside processTask
  // keeps its row under every conforming pulse of its own beats if and only if
  // the longest possible silence fits the threshold.
  lemma ToleranceIsExactInRuns(misses: nat, jitter: nat, delay: nat)
    ensures
      (forall start, acts, more, w, id, h ::
         Watched(Exec(Init(start), acts), more, w, id, h, misses, jitter, delay)
         && BeatsAre(Exec(Init(start), acts), more, Beat(w, id), h)
         ==> ClaimStands(Exec(Init(start), acts), more, w, id))
      <==> Silence(misses, jitter, delay) <= STALE_LOCK_THRESHOLD
  {
    if Silence(misses, jitter, delay) <= STALE_LOCK_THRESHOLD {
      forall start, acts, more, w, id, h | Watched(Exec(Init(start), acts), more, w, id, h, misses, jitter, delay)
        ensures ClaimStands(Exec(Init(start), acts), more, w, id)
      {
        CoreAlways(start, acts);
        ConformingWorkerIsNeverReclaimed(Exec(Init(start), acts), more, w, id, h, misses, jitter, delay);
      }
    } else {
      var s, more, w, h := LiveWorkerReclaimed(0, misses, jitter, delay);
      var acts :| Exec(Init(0), acts) == s;
      assert !ClaimStands(Exec(Init(0), acts), more, w, 0);
    }
  }

  // ---- a slow pass takes a row beaten since its scan ----

  // s is the state right after a scan, and a statement of that pass no more
  // than d later changes a row although a beat for it landed in between.
  ghost predicate TakenThoughBeaten(s: State, more: seq<Action>, p: ProcId, r: RequeuerStep, id: TaskId, d: Time) {
    var t := Exec(s, more);
    && p < |s.procs| && s.procs[p].Resetting? && s.procs[p].scanAt == s.now && s.procs[p].i == 0
    && RequeueCan(t, p, r) && t.procs[p].Resetting? && t.procs[p].scanAt == s.now && t.now - s.now <= d
    && id < |t.tasks| && RequeueNext(t, p, r).tasks[id] != t.tasks[id]
    && BeatTimes(s, more, id) != []
  }

  // The owner is silent past the threshold, the pass scans, the beat sent long
  // ago lands, and the reset comes just over the threshold later.
  lemma ScannedThenBeaten(s0: State, w: ProcId) returns (s: State)
    requires |s0.tasks| == 1 && 0 < w < |s0.procs| && s0.procs[0] == Resting && s0.beats == []
    requires s0.tasks[0].lockedAt == Some(s0.now) && s0.tasks[0].status.InProgress?
    requires s0.procs[w].Running? && s0.procs[w].id == 0
    ensures Reaches(s0, s)
    ensures s == s0.(now := s0.now + STALE_LOCK_THRESHOLD + 1, beats := [Beat(w, 0)],
                     procs := s0.procs[0 := Resetting(s0.now + STALE_LOCK_THRESHOLD + 1, [0], 0, true)])
  {
    var wait := Tick(STALE_LOCK_THRESHOLD + 1);
    ReachesSelf(s0);
    var s1 := Step(s0, wait);
    ReachesNext(s0, s0, wait);
    assert s1 == s0.(now := s0.now + STALE_LOCK_THRESHOLD + 1);
    var s2 := Step(s1, Work(w, SendBeat));
    ReachesNext(s0, s1, Work(w, SendBeat));
    assert s2 == s1.(beats := [Beat(w, 0)]);
    assert Lists([0], s2.tasks, s2.now);
    s := Step(s2, TakeBack[0]);
    ReachesNext(s0, s2, TakeBack[0]);
  }

  lemma BeatenThenTaken(s: State, w: ProcId) returns (more: seq<Action>, t: State)
    requires |s.tasks| == 1 && w < |s.procs| && s.beats == [Beat(w, 0)] && OwnedBy(s.tasks[0], w)
    requires s.tasks[0].status.InProgress?
    requires s.procs[0] == Resetting(s.now, [0], 0, true)
    ensures t == Exec(s, more) && t.procs == s.procs && BeatTimes(s, more, 0) == [s.now]
    ensures t.now == s.now + STALE_LOCK_THRESHOLD + 1
    ensures t.tasks == [BeatRow(s.tasks[0], s.now)]
  {
    var land, wait := LandBeat(0), Tick(STALE_LOCK_THRESHOLD + 1);
    more := [land, wait];
    assert [land][..0] == [] && more[..1] == [land];
    t := Exec(s, more);
    assert Exec(s, [land]) == Step(s, land);
    assert Step(s, land) == s.(tasks := [BeatRow(s.tasks[0], s.now)], beats := []);
    assert BeatHits(s, land, 0);
    assert BeatTimes(s, [], 0) == [] && BeatTimes(s, [land], 0) == [s.now];
    assert BeatTimes(s, more, 0) == BeatTimes(s, [land], 0) + [];
  }

  // The row is even taken from a worker that is still running.
  lemma SlowPassTakesBeatenRow(start: Time)
      returns (acts: seq<Action>, more: seq<Action>, w: ProcId)
    ensures TakenThoughBeaten(Exec(Init(start), acts), more, 0, Reset, 0, STALE_LOCK_THRESHOLD + 1)
    ensures
      var t := Exec(Exec(Init(start), acts), more);
      w < |t.procs| && t.procs[w].Running? && |t.tasks| == 1 && OwnedBy(t.tasks[0], w)
  {
    var s0 := FirstTask(start);
    var s1 := Taken(s0, 0);
    w := |s0.procs|;
    var s := ScannedThenBeaten(s1, w);
    ReachesTrans(Init(start), s0, s1);
    ReachesTrans(Init(start), s1, s);
    acts :| Exec(Init(start), acts) == s;
    var t;
    more, t := BeatenThenTaken(s, w);
    assert Stale(t.tasks[0], t.now);
    assert RequeueNext(t, 0, Reset).tasks[0] == Release(t.tasks[0], Pending, t.now);
  }

  // A row beaten since the scan is safe from its pass for exactly the
  // threshold: within d of the scan no such row is reset, in any run, if and
  // only if d is at most the threshold.
  lemma PassIsSafeForExactlyTheThreshold(d: nat)
    ensures
      (forall start, acts, more, p, r, id :: !TakenThoughBeaten(Exec(Init(start), acts), more, p, r, id, d))
      <==> d <= STALE_LOCK_THRESHOLD
  {
    if d <= STALE_LOCK_THRESHOLD {
      forall start, acts, more, p, r, id ensures !TakenThoughBeaten(Exec(Init(start), acts), more, p, r, id, d) {
        CoreAlways(start, acts);
        NotTakenInTime(Exec(Init(start), acts), more, p, r, id, d);
      }
    } else {
      var acts, more, w := SlowPassTakesBeatenRow(0);
      assert TakenThoughBeaten(Exec(Init(0), acts), more, 0, Reset, 0, d);
    }
  }

  lemma NotTakenInTime(s: State, more: seq<Action>, p: ProcId, r: RequeuerStep, id: TaskId, d: nat)
    requires Core(s) && d <= STALE_LOCK_THRESHOLD
    ensures !TakenThoughBeaten(s, more, p, r, id, d)
  {
    if TakenThoughBeaten(s, more, p, r, id, d) {
      PassTakesOnlySilentRows(s, more, p, r, id);
    }
  }

  // ---- a reported trial end can start early ----

  // The client repeats its request while the row looks new: a second 201, and
  // another token.
  lemma Replayed(s: State) returns (t: State)
    requires |s.tasks| == 1 && IsNew(s.tasks[0]) && s.tasks[0].scheduledFor.None?
    ensures Reaches(s, t)
    ensures t.tasks == s.tasks && t.queue == [0] + s.queue && t.now == s.now && |t.procs| == |s.procs| + 1
    ensures forall i :: 0 <= i < |s.procs| ==> t.procs[i] == s.procs[i]
    ensures t.procs[|s.procs|].Answered? && t.procs[|s.procs|].code == 201 && t.procs[|s.procs|].id == 0
    ensures t.procs[|s.procs|].task == s.tasks[0]
  {
    var r, p := s.tasks[0], |s.procs|;
    var req := Request(r.key, r.service, r.email, r.payload, None);
    ReachesSelf(s);
    var s1 := Step(s, Spawn(Arrived(req)));
    ReachesNext(s, s, Spawn(Arrived(req)));
    assert s1 == s.(procs := s.procs + [Arrived(req)]);
    var s2 := Step(s1, Create(p, Insert));
    ReachesNext(s, s1, Create(p, Insert));
    assert KeyTaken(s1.tasks, req.key);
    assert s2 == SetProc(s1, p, Conflicted(req));
    var s3 := Step(s2, Create(p, Lookup(0)));
    ReachesNext(s, s2, Create(p, Lookup(0)));
    assert s3 == SetProc(s2, p, Returned(req, 0, r));
    var s4 := Step(s3, Create(p, Settle(0)));
    ReachesNext(s, s3, Create(p, Settle(0)));
    assert s4 == SetProc(s3, p, Enqueuing(req, 0, r));
    t := Step(s4, Create(p, Enqueue));
    ReachesNext(s, s4, Create(p, Enqueue));
    assert t == CreateNext(s4, p, Enqueue);
  }

  // One worker claims, reports a trial end an hour away, and pops the second token.
  lemma Postponed(s: State) returns (t: State)
    requires |s.tasks| == 1 && s.queue == [0, 0] && Claimable(s.tasks[0]) && Known(s.tasks[0].service)
    ensures Reaches(s, t)
    ensures |t.tasks| == 1 && Claimable(t.tasks[0]) && !ScheduleReached(t.tasks[0], t.now)
    ensures |s.procs| < |t.procs| && t.procs[|s.procs|] == Popped(0)
  {
    var q, far := |s.procs|, DetectedTrialEnd(Some(s.now + 3_600_000));
    ReachesSelf(s);
    var s1 := Step(s, Spawn(Idle));
    ReachesNext(s, s, Spawn(Idle));
    assert s1 == s.(procs := s.procs + [Idle]);
    var s2 := Step(s1, Work(q, Pop));
    ReachesNext(s, s1, Work(q, Pop));
    assert s2 == WorkNext(s1, q, Pop);
    var s3 := Step(s2, Work(q, Claim));
    ReachesNext(s, s2, Work(q, Claim));
    assert s3 == AfterClaim(s2, q);
    var s4 := Step(s3, Work(q, Finish(far, 0)));
    ReachesNext(s, s3, Work(q, Finish(far, 0)));
    assert s4 == WorkNext(s3, q, Finish(far, 0));
    var s5 := Step(s4, Work(q, Write));
    ReachesNext(s, s4, Work(q, Write));
    assert s5 == AfterWrite(s4, q);
    t := Step(s5, Work(q, Pop));
    ReachesNext(s, s5, Work(q, Pop));
    assert t == WorkNext(s5, q, Pop);
  }

  // With an automation that reports a trial end, a duplicate token makes the
  // worker claim before the schedule: the very claim the Go gate would refuse.
  lemma TrialEndCanStartEarly(start: Time)
    ensures exists acts, p: ProcId ::
              var s := Exec(Init(start), acts);
              && WorkCan(s, p, Claim) && s.procs[p].id < |s.tasks| && Claimable(s.tasks[s.procs[p].id])
              && !ScheduleReached(s.tasks[s.procs[p].id], s.now) && !GoClaimGate(s.tasks[s.procs[p].id], s.now)
  {
    var s0 := FirstTask(start);
    var s1 := Replayed(s0);
    var t := Postponed(s1);
    ReachesTrans(Init(start), s0, s1);
    ReachesTrans(Init(start), s1, t);
    var acts :| Exec(Init(start), acts) == t;
    assert WorkCan(t, |s1.procs|, Claim);
  }

  // A fresh worker pops the only id on the list.
  lemma PoppedFresh(s: State, id: TaskId) returns (t: State)
    requires s.queue == [id]
    ensures Reaches(s, t)
    ensures t.tasks == s.tasks && t.now == s.now && t.procs == s.procs + [Popped(id)]
  {
    var q := |s.procs|;
    ReachesSelf(s);
    var s1 := Step(s, Spawn(Idle));
    ReachesNext(s, s, Spawn(Idle));
    assert s1 == s.(procs := s.procs + [Idle]);
    t := Step(s1, Work(q, Pop));
    ReachesNext(s, s1, Work(q, Pop));
    assert t == WorkNext(s1, q, Pop);
  }

  // So does an API clock that runs ahead of the database's, by however little:
  // a first claim lands before the schedule with no automation involved at all.
  lemma FastApiClockStartsEarly(start: Time, ahead: Time)
    requires ahead > 0
    ensures exists acts, p: ProcId ::
              var s := Exec(Init(start), acts);
              && s.now == start && WorkCan(s, p, Claim) && s.procs[p].id < |s.tasks|
              && s.tasks[s.procs[p].id].scheduledFor == Some(start + ahead)
              && Claimable(s.tasks[s.procs[p].id]) && s.tasks[s.procs[p].id].attempts == 0
              && !GoClaimGate(s.tasks[s.procs[p].id], s.now)
  {
    var s0 := FirstRow(start, "test", Some(start + ahead));
    var s1 := FirstEnqueued(start + ahead, s0);
    var t := PoppedFresh(s1, 0);
    ReachesTrans(Init(start), s0, s1);
    ReachesTrans(Init(start), s1, t);
    var acts :| Exec(Init(start), acts) == t;
    assert WorkCan(t, 2, Claim);
  }

  // 201 does not mean newly inserted: two requests can both get it for one row.
  lemma ReplayCanBeCreated(start: Time)
    ensures exists acts, p: ProcId, q: ProcId ::
              var s := Exec(Init(start), acts);
              && p < q < |s.procs| && s.procs[p].Answered? && s.procs[q].Answered?
              && s.procs[p].code == 201 && s.procs[q].code == 201 && s.procs[p].id == s.procs[q].id
  {
    var s0 := FirstTask(start);
    var s1 := Replayed(s0);
    ReachesTrans(Init(start), s0, s1);
    var acts :| Exec(Init(start), acts) == s1;
    assert s1.procs[1].Answered? && s1.procs[2].Answered?;
  }

  // And a claim landing at the very instant of the insert makes the test fail:
  // a replay is answered 201 with, and pushes, a row that is IN_PROGRESS.
  lemma ClaimedRowCanBeCreated(start: Time)
    ensures exists acts, p: ProcId ::
              var s := Exec(Init(start), acts);
              && p < |s.procs| && s.procs[p].Answered? && s.procs[p].code == 201
              && s.procs[p].task.status.InProgress? && s.procs[p].task.attempts == 1
              && s.procs[p].id < |s.tasks| && s.tasks[s.procs[p].id].status.InProgress? && s.queue == [s.procs[p].id]
  {
    var s0 := FirstTask(start);
    var s1 := Taken(s0, 0);
    var t := Replayed(s1);
    ReachesTrans(Init(start), s0, s1);
    ReachesTrans(Init(start), s1, t);
    var acts :| Exec(Init(start), acts) == t;
    assert t.procs[|s1.procs|].Answered?;
  }

  // ---- the ordinary case ----

  // From nothing to a worker inside the automation, for a registered service
  // however its name is spelled.
  lemma RegisteredTaskRuns(start: Time, service: string)
    requires Registered(service)
    ensures exists acts, p: ProcId ::
              var s := Exec(Init(start), acts);
              && p < |s.procs| && s.procs[p].Running? && s.procs[p].task.service == service
              && s.procs[p].task.attempts == 1
  {
    var s0 := FirstRow(start, service, None);
    var s1 := FirstEnqueued(start, s0);
    var s2 := PoppedFresh(s1, 0);
    ReachesTrans(Init(start), s0, s1);
    ReachesTrans(Init(start), s1, s2);
    var s3 := Step(s2, Work(2, Claim));
    ReachesNext(Init(start), s2, Work(2, Claim));
    ClaimStored(s2, 2);
    ClaimFindsAutomation(s2, 2);
    assert s3 == AfterClaim(s2, 2);
    var acts :| Exec(Init(start), acts) == s3;
    assert s3.procs[2].Running?;
  }

  lemma UniversalTaskRuns(start: Time)
    ensures exists acts, p: ProcId ::
              var s := Exec(Init(start), acts);
              p < |s.procs| && s.procs[p].Running? && s.procs[p].task.service == "Universal"
  {
    assert Registered("Universal") by {
      assert SameName("Universal", "universal");
    }
    RegisteredTaskRuns(start, "Universal");
    var acts, p: ProcId :|
      var s := Exec(Init(start), acts);
      && p < |s.procs| && s.procs[p].Running? && s.procs[p].task.service == "Universal"
      && s.procs[p].task.attempts == 1;
  }
}
