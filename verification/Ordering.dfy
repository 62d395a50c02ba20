// The list as a queue: nothing pushed disappears or overtakes, and one worker
// claims in push order.
module Ordering {
  import opened TaskTable
  import opened Protocol

  function Reversed(q: seq<TaskId>): seq<TaskId> {
    if q == [] then [] else Reversed(q[1..]) + [q[0]]
  }

  lemma {:induction false} ReversedLast(q: seq<TaskId>)
    requires q != []
    ensures Reversed(q) == [q[|q| - 1]] + Reversed(q[..|q| - 1])
  {
    if |q| > 1 {
      ReversedLast(q[1..]);
      assert q[..|q| - 1][1..] == q[1..][..|q| - 2];
    } else {
      assert q[1..] == [] && q[..0] == [];
    }
  }

  // All pushes, in order, are all pops followed by the list from tail to head.
  ghost predicate Conserved(s: State) {
    s.pushed == s.popped + Reversed(s.queue)
  }

  ghost predicate ListStep(s: State, t: State) {
    || (t.queue == s.queue && t.pushed == s.pushed && t.popped == s.popped)
    || (exists id :: t.queue == [id] + s.queue && t.pushed == s.pushed + [id] && t.popped == s.popped)
    || (s.queue != [] && t.queue == s.queue[..|s.queue| - 1] && t.pushed == s.pushed
        && t.popped == s.popped + [s.queue[|s.queue| - 1]])
  }

  lemma StepMovesList(s: State, a: Action)
    ensures ListStep(s, Step(s, a))
  {
  }

  lemma ListStepConserves(s: State, t: State)
    requires Conserved(s) && ListStep(s, t)
    ensures Conserved(t)
  {
    if s.queue != [] && t.popped != s.popped {
      ReversedLast(s.queue);
    } else if t.pushed != s.pushed {
      assert t.queue[1..] == s.queue;
    }
  }

  lemma {:induction false} ListIsConserved(start: Time, acts: seq<Action>)
    ensures Conserved(Exec(Init(start), acts))
  {
    if acts != [] {
      var s := Exec(Init(start), acts[..|acts| - 1]);
      ListIsConserved(start, acts[..|acts| - 1]);
      StepMovesList(s, acts[|acts| - 1]);
      ListStepConserves(s, Exec(Init(start), acts));
    }
  }

  // ---- claim order ----

  function ClaimOrder(log: seq<Entry>): seq<TaskId> {
    if log == [] then []
    else ClaimOrder(log[..|log| - 1]) + (if log[|log| - 1].event.Claimed? then [log[|log| - 1].id] else [])
  }

  lemma ClaimOrderPush(log: seq<Entry>, e: Entry)
    ensures ClaimOrder(log + [e]) == ClaimOrder(log) + (if e.event.Claimed? then [e.id] else [])
  {
    assert (log + [e])[..|log|] == log;
  }

  // xs is ys with some elements left out.
  predicate Subsequence(xs: seq<TaskId>, ys: seq<TaskId>) {
    if xs == [] then true
    else if ys == [] then false
    else (xs[|xs| - 1] == ys[|ys| - 1] && Subsequence(xs[..|xs| - 1], ys[..|ys| - 1]))
         || Subsequence(xs, ys[..|ys| - 1])
  }

  lemma SubsequenceGrows(xs: seq<TaskId>, ys: seq<TaskId>, y: TaskId)
    requires Subsequence(xs, ys)
    ensures Subsequence(xs, ys + [y]) && Subsequence(xs + [y], ys + [y])
  {
    assert (ys + [y])[..|ys|] == ys && (xs + [y])[..|xs|] == xs;
  }

  lemma {:induction false} SubsequenceOfLonger(xs: seq<TaskId>, ys: seq<TaskId>, zs: seq<TaskId>, all: seq<TaskId>)
    requires Subsequence(xs, ys) && all == ys + zs
    ensures Subsequence(xs, all)
    decreases zs
  {
    if zs == [] {
      assert all == ys;
    } else {
      SubsequenceGrows(xs, ys, zs[0]);
      SubsequenceOfLonger(xs, ys + [zs[0]], zs[1..], all);
    }
  }

  predicate LiveWorker(pc: Proc) {
    pc.Idle? || pc.Popped? || pc.Running? || pc.Writing? || pc.Pushing?
  }

  // A worker starts only when no other is alive.
  predicate SpawnsAlone(s: State, a: Action) {
    a.Spawn? && a.proc.Idle? ==> forall p :: 0 <= p < |s.procs| ==> !LiveWorker(s.procs[p])
  }

  ghost predicate Alone(s: State) {
    forall p, q ::
      0 <= p < |s.procs| && 0 <= q < |s.procs| && LiveWorker(s.procs[p]) && LiveWorker(s.procs[q]) ==> p == q
  }

  // Everything popped but the id in hand has had its claim tried already.
  ghost predicate InOrder(s: State) {
    && Subsequence(ClaimOrder(s.log), s.popped)
    && forall p :: 0 <= p < |s.procs| && s.procs[p].Popped? ==>
         s.popped != [] && s.popped[|s.popped| - 1] == s.procs[p].id
         && Subsequence(ClaimOrder(s.log), s.popped[..|s.popped| - 1])
  }

  lemma WorkIsAlone(s: State, p: ProcId, w: WorkerStep)
    requires WorkCan(s, p, w) && Alone(s)
    ensures Alone(WorkNext(s, p, w))
    ensures var t := WorkNext(s, p, w);
            |t.procs| == |s.procs| && forall q :: 0 <= q < |t.procs| && q != p ==> !LiveWorker(t.procs[q])
  {
  }

  lemma PopInOrder(s: State, p: ProcId)
    requires WorkCan(s, p, Pop) && Alone(s) && InOrder(s)
    ensures InOrder(WorkNext(s, p, Pop))
  {
    var t := WorkNext(s, p, Pop);
    WorkIsAlone(s, p, Pop);
    SubsequenceGrows(ClaimOrder(s.log), s.popped, s.queue[|s.queue| - 1]);
    assert t.popped[..|t.popped| - 1] == s.popped;
  }

  lemma ClaimTries(s: State, p: ProcId)
    requires WorkCan(s, p, Claim) && Alone(s)
    ensures
      var t := AfterClaim(s, p);
      && t.popped == s.popped && (forall q :: 0 <= q < |t.procs| ==> !t.procs[q].Popped?)
      && (t.log == s.log || t.log == s.log + [Entry(s.procs[p].id, Claimed(p))])
  {
  }

  lemma ClaimInOrder(s: State, t: State, p: ProcId)
    requires WorkCan(s, p, Claim) && Alone(s) && InOrder(s) && t == AfterClaim(s, p)
    ensures InOrder(t)
  {
    ClaimTries(s, p);
    ClaimOrderPush(s.log, Entry(s.procs[p].id, Claimed(p)));
    var n := |s.popped| - 1;
    assert s.popped == s.popped[..n] + [s.popped[n]];
    LastTried(ClaimOrder(s.log), s.popped[..n], s.popped[n], s.popped);
  }

  lemma LastTried(order: seq<TaskId>, front: seq<TaskId>, last: TaskId, popped: seq<TaskId>)
    requires Subsequence(order, front) && popped == front + [last]
    ensures Subsequence(order, popped) && Subsequence(order + [last], popped)
  {
    SubsequenceGrows(order, front, last);
  }

  // A step that pops nothing and lands no claim keeps the order.
  lemma InOrderKept(s: State, t: State)
    requires InOrder(s) && t.popped == s.popped && ClaimOrder(t.log) == ClaimOrder(s.log)
    requires forall q :: 0 <= q < |t.procs| && t.procs[q].Popped? ==> q < |s.procs| && t.procs[q] == s.procs[q]
    ensures InOrder(t)
  {
  }

  lemma OtherWorkKeepsOrder(s: State, p: ProcId, w: WorkerStep)
    requires WorkCan(s, p, w) && !w.Pop? && !w.Claim?
    ensures
      var t := WorkNext(s, p, w);
      && t.popped == s.popped && ClaimOrder(t.log) == ClaimOrder(s.log)
      && |t.procs| == |s.procs| && !t.procs[p].Popped?
  {
    if w.Write? {
      var pc := s.procs[p];
      ClaimOrderPush(s.log, Entry(pc.id, WriteEvent(pc.verdict, p, pc.task.attempts)));
    }
  }

  lemma WorkInOrder(s: State, p: ProcId, w: WorkerStep)
    requires WorkCan(s, p, w) && Alone(s) && InOrder(s)
    ensures Alone(WorkNext(s, p, w)) && InOrder(WorkNext(s, p, w))
  {
    WorkIsAlone(s, p, w);
    if w.Pop? {
      PopInOrder(s, p);
    } else if w.Claim? {
      ClaimInOrder(s, WorkNext(s, p, w), p);
    } else {
      OtherWorkKeepsOrder(s, p, w);
      InOrderKept(s, WorkNext(s, p, w));
    }
  }

  // The other roles pop nothing, claim nothing, and make no worker.
  ghost predicate StandsAside(s: State, t: State, a: Action) {
    && t.popped == s.popped && ClaimOrder(t.log) == ClaimOrder(s.log) && |s.procs| <= |t.procs|
    && (forall q :: 0 <= q < |s.procs| && LiveWorker(t.procs[q]) ==> t.procs[q] == s.procs[q])
    && (forall q :: |s.procs| <= q < |t.procs| ==>
          a.Spawn? && q == |s.procs| && t.procs[q] == a.proc && CanSpawn(a.proc))
  }

  lemma RequeueStandsAside(s: State, p: ProcId, r: RequeuerStep)
    requires RequeueCan(s, p, r)
    ensures StandsAside(s, RequeueNext(s, p, r), Requeue(p, r))
  {
    RequeueLogs(s, p, r);
    if RequeueNext(s, p, r).log != s.log {
      ClaimOrderPush(s.log, Entry(s.procs[p].ids[s.procs[p].i], Reclaimed));
    }
  }

  lemma RequeueLogs(s: State, p: ProcId, r: RequeuerStep)
    requires RequeueCan(s, p, r)
    ensures
      var t := RequeueNext(s, p, r);
      && t.popped == s.popped && |t.procs| == |s.procs| && !LiveWorker(t.procs[p])
      && (forall q :: 0 <= q < |s.procs| && q != p ==> t.procs[q] == s.procs[q])
      && (t.log != s.log ==> (r.Reset? || r.ResetError?)
                             && t.log == s.log + [Entry(s.procs[p].ids[s.procs[p].i], Reclaimed)])
  {
  }

  lemma CreateStandsAside(s: State, p: ProcId, q: CreateStep)
    requires CreateCan(s, p, q)
    ensures StandsAside(s, CreateNext(s, p, q), Create(p, q))
  {
  }

  lemma OthersStandAside(s: State, a: Action)
    requires Enabled(s, a) && !a.Work?
    ensures StandsAside(s, Step(s, a), a)
  {
    match a
    case Requeue(p, r) => RequeueStandsAside(s, p, r);
    case Create(p, q) => CreateStandsAside(s, p, q);
    case _ =>
  }

  lemma OthersInOrder(s: State, t: State, a: Action)
    requires StandsAside(s, t, a) && Alone(s) && InOrder(s) && SpawnsAlone(s, a)
    ensures Alone(t) && InOrder(t)
  {
    InOrderKept(s, t);
  }

  // With one worker at a time, tasks are claimed in the order they were pushed.
  lemma {:induction false} OneWorkerIsFifo(start: Time, acts: seq<Action>)
    requires Throughout(Init(start), acts, SpawnsAlone)
    ensures
      var s := Exec(Init(start), acts);
      && Alone(s) && InOrder(s)
      && Subsequence(ClaimOrder(s.log), s.pushed)
  {
    var s := Exec(Init(start), acts);
    if acts != [] {
      var front, a := acts[..|acts| - 1], acts[|acts| - 1];
      OneWorkerIsFifo(start, front);
      if Enabled(Exec(Init(start), front), a) {
        if a.Work? {
          WorkInOrder(Exec(Init(start), front), a.p, a.w);
        } else {
          OthersStandAside(Exec(Init(start), front), a);
          OthersInOrder(Exec(Init(start), front), s, a);
        }
      }
    }
    ListIsConserved(start, acts);
    SubsequenceOfLonger(ClaimOrder(s.log), s.popped, Reversed(s.queue), s.pushed);
  }
}
