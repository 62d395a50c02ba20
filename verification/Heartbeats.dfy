// How many missed beats a live worker survives: the exact arithmetic of the
// heartbeat interval against the staleness threshold.
module Heartbeats {
  import opened Wrappers
  import opened TaskTable
  import opened Protocol
  import opened Safety

  const HEARTBEAT_INTERVAL: nat := 10_000

  // One claim: its lock time, the instants its timer fires, and when (if at
  // all) the beat sent at each of them lands.
  datatype Pulse = Pulse(start: Time, fires: seq<Time>, landings: seq<Option<Time>>)

  // fires, with the claim itself in front.
  function At(h: Pulse, i: nat): Time
    requires i <= |h.fires|
  {
    if i == 0 then h.start else h.fires[i - 1]
  }

  predicate TickOk(h: Pulse, i: nat, jitter: nat) {
    0 < i <= |h.fires| ==> At(h, i - 1) <= At(h, i) <= At(h, i - 1) + HEARTBEAT_INTERVAL + jitter
  }

  predicate Ticks(h: Pulse, jitter: nat) {
    forall i :: 0 < i <= |h.fires| ==> TickOk(h, i, jitter)
  }

  predicate LandsSoon(h: Pulse, delay: nat) {
    && |h.landings| == |h.fires|
    && forall i :: 0 <= i < |h.fires| && h.landings[i].Some? ==> h.fires[i] <= h.landings[i].value <= h.fires[i] + delay
  }

  predicate LandsWithin(h: Pulse, i: nat, misses: nat) {
    exists j :: i <= j <= i + misses && j < |h.landings| && h.landings[j].Some?
  }

  // Never more than misses beats in a row fail to land.
  predicate MissesAtMost(h: Pulse, misses: nat) {
    |h.landings| == |h.fires| && forall i :: 0 <= i < |h.fires| - misses ==> LandsWithin(h, i, misses)
  }

  predicate Conforms(h: Pulse, misses: nat, jitter: nat, delay: nat) {
    Ticks(h, jitter) && LandsSoon(h, delay) && MissesAtMost(h, misses)
  }

  // A scan at t, ahead of any beat landing at that instant, finds the lock fresh.
  predicate FreshAt(h: Pulse, t: Time) {
    || t - h.start <= STALE_LOCK_THRESHOLD
    || (exists i :: 0 <= i < |h.landings| && h.landings[i].Some? && h.landings[i].value < t
                    && t - h.landings[i].value <= STALE_LOCK_THRESHOLD)
  }

  // Fresh all the time up to the last firing.
  ghost predicate NeverStale(h: Pulse) {
    forall t :: h.start <= t <= At(h, |h.fires|) ==> FreshAt(h, t)
  }

  function Silence(misses: nat, jitter: nat, delay: nat): nat {
    (misses + 1) * (HEARTBEAT_INTERVAL + jitter) + delay
  }

  lemma {:induction false} Span(h: Pulse, jitter: nat, a: nat, b: nat)
    requires Ticks(h, jitter) && a <= b <= |h.fires|
    ensures At(h, b) - At(h, a) <= (b - a) * (HEARTBEAT_INTERVAL + jitter)
    decreases b
  {
    if a < b {
      Span(h, jitter, a, b - 1);
      assert TickOk(h, b, jitter);
      assert (b - 1 - a) * (HEARTBEAT_INTERVAL + jitter) + (HEARTBEAT_INTERVAL + jitter)
          == (b - a) * (HEARTBEAT_INTERVAL + jitter);
    }
  }

  // The first firing whose beat need not have landed before t.
  lemma FirstOpen(h: Pulse, delay: nat, t: Time) returns (m: nat)
    requires h.start <= t <= At(h, |h.fires|) && |h.fires| > 0
    ensures m < |h.fires| && t <= h.fires[m] + delay
    ensures forall i :: 0 <= i < m ==> h.fires[i] + delay < t
  {
    m := 0;
    while m < |h.fires| - 1 && h.fires[m] + delay < t
      invariant m < |h.fires|
      invariant forall i :: 0 <= i < m ==> h.fires[i] + delay < t
    {
      m := m + 1;
    }
  }

  // Within the first misses + 1 intervals the claim itself still counts.
  lemma ClaimStillCounts(h: Pulse, misses: nat, jitter: nat, delay: nat, t: Time, m: nat)
    requires Ticks(h, jitter) && m < |h.fires| && m <= misses && t <= h.fires[m] + delay
    ensures t - h.start <= Silence(misses, jitter, delay)
  {
    Span(h, jitter, 0, m + 1);
    assert At(h, m + 1) == h.fires[m];
    MoreBeats(m + 1, misses + 1, HEARTBEAT_INTERVAL + jitter);
  }

  // Later on, one of the last misses + 1 beats due before t has landed before t.
  lemma SomeBeatCounts(h: Pulse, misses: nat, jitter: nat, delay: nat, t: Time, m: nat) returns (j: nat)
    requires Conforms(h, misses, jitter, delay) && misses < m < |h.fires| && t <= h.fires[m] + delay
    requires forall i :: 0 <= i < m ==> h.fires[i] + delay < t
    ensures j < |h.landings| && h.landings[j].Some? && h.landings[j].value < t
    ensures t - h.landings[j].value <= Silence(misses, jitter, delay)
  {
    var i := m - misses - 1;
    assert LandsWithin(h, i, misses);
    j :| i <= j <= i + misses && j < |h.landings| && h.landings[j].Some?;
    Span(h, jitter, i + 1, m + 1);
    Monotone(h, jitter, i + 1, j + 1);
    assert At(h, i + 1) == h.fires[i] && At(h, j + 1) == h.fires[j] && At(h, m + 1) == h.fires[m];
  }

  lemma ShortSilenceIsSafe(h: Pulse, misses: nat, jitter: nat, delay: nat, t: Time)
    requires Conforms(h, misses, jitter, delay) && Silence(misses, jitter, delay) <= STALE_LOCK_THRESHOLD
    requires h.start <= t <= At(h, |h.fires|)
    ensures FreshAt(h, t)
  {
    if |h.fires| > 0 {
      var m := FirstOpen(h, delay, t);
      if m <= misses {
        ClaimStillCounts(h, misses, jitter, delay, t, m);
      } else {
        var j := SomeBeatCounts(h, misses, jitter, delay, t, m);
      }
    }
  }

  lemma MoreBeats(a: nat, b: nat, period: nat)
    requires a <= b
    ensures a * period <= b * period
  {
  }

  lemma {:induction false} Monotone(h: Pulse, jitter: nat, a: nat, b: nat)
    requires Ticks(h, jitter) && a <= b <= |h.fires|
    ensures At(h, a) <= At(h, b)
    decreases b
  {
    if a < b {
      Monotone(h, jitter, a, b - 1);
      assert TickOk(h, b, jitter);
    }
  }

  // The slowest conforming worker: every firing late, the first beats missed,
  // every other beat landing as late as it may.
  function Slowest(start: Time, misses: nat, jitter: nat, delay: nat, n: nat): Pulse {
    var period := HEARTBEAT_INTERVAL + jitter;
    Pulse(start,
          seq(n, (i: nat) => start + (i + 1) * period),
          seq(n, (i: nat) => if i < misses then None else Some(start + (i + 1) * period + delay)))
  }

  lemma SlowestConforms(start: Time, misses: nat, jitter: nat, delay: nat, n: nat)
    ensures Conforms(Slowest(start, misses, jitter, delay, n), misses, jitter, delay)
  {
    var h, period := Slowest(start, misses, jitter, delay, n), HEARTBEAT_INTERVAL + jitter;
    forall i | 0 < i <= n ensures TickOk(h, i, jitter) {
      assert At(h, i) == start + i * period && At(h, i - 1) == start + (i - 1) * period;
      assert (i - 1) * period + period == i * period;
    }
    forall i | 0 <= i < n - misses ensures LandsWithin(h, i, misses) {
      assert h.landings[i + misses].Some?;
    }
    assert LandsSoon(h, delay);
  }

  // With a long enough silence, its first beat lands after the threshold.
  lemma SlowestIsTooSlow(start: Time, misses: nat, jitter: nat, delay: nat) returns (h: Pulse)
    requires Silence(misses, jitter, delay) > STALE_LOCK_THRESHOLD
    ensures h == Slowest(start, misses, jitter, delay, STALE_LOCK_THRESHOLD + 1)
    ensures Conforms(h, misses, jitter, delay) && h.start == start
    ensures start + STALE_LOCK_THRESHOLD + 1 <= At(h, |h.fires|)
    ensures forall i :: 0 <= i < |h.landings| && h.landings[i].Some? ==>
              h.landings[i].value >= start + STALE_LOCK_THRESHOLD + 1
  {
    var period, n := HEARTBEAT_INTERVAL + jitter, STALE_LOCK_THRESHOLD + 1;
    h := Slowest(start, misses, jitter, delay, n);
    SlowestConforms(start, misses, jitter, delay, n);
    assert At(h, n) == start + n * period;
    assert n * 1 <= n * period by {
      MoreBeats(1, period, n);
    }
    forall i | 0 <= i < n && h.landings[i].Some?
      ensures h.landings[i].value >= start + STALE_LOCK_THRESHOLD + 1
    {
      MoreBeats(misses + 1, i + 1, period);
    }
  }

  lemma LongSilenceGoesStale(misses: nat, jitter: nat, delay: nat)
    requires Silence(misses, jitter, delay) > STALE_LOCK_THRESHOLD
    ensures exists h :: Conforms(h, misses, jitter, delay) && !NeverStale(h)
  {
    var h := SlowestIsTooSlow(0, misses, jitter, delay);
    assert !FreshAt(h, STALE_LOCK_THRESHOLD + 1);
  }

  // A live worker is safe under every conforming heartbeat if and only if the
  // longest possible silence fits the threshold.
  lemma ToleranceIsExact(misses: nat, jitter: nat, delay: nat)
    ensures (forall h :: Conforms(h, misses, jitter, delay) ==> NeverStale(h))
            <==> Silence(misses, jitter, delay) <= STALE_LOCK_THRESHOLD
  {
    if Silence(misses, jitter, delay) <= STALE_LOCK_THRESHOLD {
      forall h, t | Conforms(h, misses, jitter, delay) && h.start <= t <= At(h, |h.fires|) ensures FreshAt(h, t) {
        ShortSilenceIsSafe(h, misses, jitter, delay, t);
      }
    } else {
      LongSilenceGoesStale(misses, jitter, delay);
    }
  }

  // Two missed beats are survived only with no jitter and no landing delay at
  // all; one missed beat leaves ten seconds for both.
  lemma TwoMissedBeats(jitter: nat, delay: nat)
    ensures (forall h :: Conforms(h, 2, jitter, delay) ==> NeverStale(h)) <==> jitter == 0 && delay == 0
    ensures (forall h :: Conforms(h, 1, jitter, delay) ==> NeverStale(h)) <==> 2 * jitter + delay <= 10_000
    ensures !(forall h :: Conforms(h, 3, jitter, delay) ==> NeverStale(h))
  {
    ToleranceIsExact(1, jitter, delay);
    ToleranceIsExact(2, jitter, delay);
    ToleranceIsExact(3, jitter, delay);
  }

  // ---- in a run ----

  predicate BeatHits(s: State, a: Action, id: TaskId) {
    && a.LandBeat? && a.k < |s.beats| && s.beats[a.k].id == id && id < |s.tasks|
    && BeatLands(s.tasks[id], s.beats[a.k].who)
  }

  // The instants at which a beat for this row landed during the run.
  function BeatTimes(s: State, acts: seq<Action>, id: TaskId): seq<Time> {
    if acts == [] then []
    else
      var s1 := Exec(s, acts[..|acts| - 1]);
      BeatTimes(s, acts[..|acts| - 1], id) + (if BeatHits(s1, acts[|acts| - 1], id) then [s1.now] else [])
  }

  // A row in the same claim after a step was in it before, under the same lock
  // time unless a beat hit it.
  lemma SameClaimStep(s: State, a: Action, id: TaskId)
    requires Core(s) && id < |s.tasks|
    requires id < |Step(s, a).tasks| && Step(s, a).tasks[id].status.InProgress?
    requires Step(s, a).tasks[id].attempts == s.tasks[id].attempts
    ensures s.tasks[id].status.InProgress?
    ensures Step(s, a).tasks[id].lockedAt == if BeatHits(s, a, id) then Some(s.now) else s.tasks[id].lockedAt
  {
    if BeatHits(s, a, id) {
      assert Step(s, a) == AfterBeat(s, a.k);
    } else {
      OnlyBeatsRefresh(s, a, id);
    }
  }

  lemma OnlyBeatsRefresh(s: State, a: Action, id: TaskId)
    requires Core(s) && id < |s.tasks| && !BeatHits(s, a, id)
    requires id < |Step(s, a).tasks| && Step(s, a).tasks[id].status.InProgress?
    requires Step(s, a).tasks[id].attempts == s.tasks[id].attempts
    ensures Step(s, a).tasks[id] == s.tasks[id]
  {
    assert RowOk(s.tasks[id], s.now);
    if Enabled(s, a) {
      match a
      case Work(p, w) => WorkNeverRefreshes(s, p, w, id);
      case Requeue(p, r) => RequeueNeverRefreshes(s, p, r, id);
      case _ =>
    }
  }

  lemma WorkNeverRefreshes(s: State, p: ProcId, w: WorkerStep, id: TaskId)
    requires Core(s) && WorkCan(s, p, w) && id < |s.tasks|
    requires id < |WorkNext(s, p, w).tasks| && WorkNext(s, p, w).tasks[id].status.InProgress?
    requires WorkNext(s, p, w).tasks[id].attempts == s.tasks[id].attempts
    ensures WorkNext(s, p, w).tasks[id] == s.tasks[id]
  {
    assert RowOk(s.tasks[id], s.now);
  }

  lemma RequeueNeverRefreshes(s: State, p: ProcId, r: RequeuerStep, id: TaskId)
    requires RequeueCan(s, p, r) && id < |s.tasks|
    requires RequeueNext(s, p, r).tasks[id].status.InProgress?
    ensures RequeueNext(s, p, r).tasks[id] == s.tasks[id]
  {
  }

  // at is the greatest of first and beats.
  predicate Latest(beats: seq<Time>, first: Time, at: Time) {
    first <= at && (at == first || at in beats) && forall i :: 0 <= i < |beats| ==> beats[i] <= at
  }

  // Throughout a claim the lock time is the latest beat landed, or the claim itself.
  lemma {:induction false} LockTimeIsLatestBeat(s: State, acts: seq<Action>, id: TaskId)
    requires Core(s) && id < |s.tasks| && id < |Exec(s, acts).tasks|
    requires Exec(s, acts).tasks[id].status.InProgress? && Exec(s, acts).tasks[id].attempts == s.tasks[id].attempts
    ensures s.tasks[id].lockedAt.Some? && Exec(s, acts).tasks[id].lockedAt.Some?
    ensures Latest(BeatTimes(s, acts, id), s.tasks[id].lockedAt.value, Exec(s, acts).tasks[id].lockedAt.value)
  {
    if acts == [] {
      assert RowOk(s.tasks[id], s.now);
    } else {
      var front, a := acts[..|acts| - 1], acts[|acts| - 1];
      var s1 := Exec(s, front);
      RunEvolves(s, front);
      StepEvolves(s1, a);
      assert Grows(s.tasks[id], s1.tasks[id]) && Grows(s1.tasks[id], Step(s1, a).tasks[id]);
      SameClaimStep(s1, a, id);
      LockTimeIsLatestBeat(s, front, id);
      assert RowOk(s1.tasks[id], s1.now);
      var hit := if BeatHits(s1, a, id) then [s1.now] else [];
      assert BeatTimes(s, acts, id) == BeatTimes(s, front, id) + hit;
      if BeatHits(s1, a, id) {
        assert hit[0] in BeatTimes(s, acts, id);
      }
    }
  }

  // Every beat of the pulse due to have landed before t is among beats.
  predicate LandedIn(h: Pulse, t: Time, beats: seq<Time>) {
    forall i :: 0 <= i < |h.landings| && h.landings[i].Some? && h.landings[i].value < t ==> h.landings[i].value in beats
  }

  // At t the pulse is still going and every beat due by then is among beats; or,
  // as between the end of the automation and its result write, t is within the
  // threshold of the claim or of some beat.
  predicate Covered(h: Pulse, t: Time, beats: seq<Time>) {
    || (t <= At(h, |h.fires|) && LandedIn(h, t, beats))
    || t - h.start <= STALE_LOCK_THRESHOLD
    || (exists i :: 0 <= i < |beats| && t - beats[i] <= STALE_LOCK_THRESHOLD)
  }

  lemma FreshMeansRecent(h: Pulse, t: Time, at: Time, beats: seq<Time>)
    requires FreshAt(h, t) && LandedIn(h, t, beats) && Latest(beats, h.start, at)
    ensures t - at <= STALE_LOCK_THRESHOLD
  {
  }

  lemma PulseHolds(h: Pulse, misses: nat, jitter: nat, delay: nat, t: Time, at: Time, beats: seq<Time>)
    requires Conforms(h, misses, jitter, delay) && Silence(misses, jitter, delay) <= STALE_LOCK_THRESHOLD
    requires h.start <= t && Covered(h, t, beats) && Latest(beats, h.start, at)
    ensures t - at <= STALE_LOCK_THRESHOLD
  {
    if t <= At(h, |h.fires|) && LandedIn(h, t, beats) {
      ShortSilenceIsSafe(h, misses, jitter, delay, t);
      FreshMeansRecent(h, t, at, beats);
    }
  }

  // A worker whose beats conform, within a silence the threshold allows, holds
  // a lock that neither the stale scan nor the re-checked reset will take.
  lemma ConformingWorkerKeepsItsLock(
      s: State, acts: seq<Action>, t: State, id: TaskId, h: Pulse, misses: nat, jitter: nat, delay: nat)
    requires Core(s) && id < |s.tasks| && s.tasks[id].lockedAt == Some(h.start) && h.start <= s.now
    requires t == Exec(s, acts) && id < |t.tasks|
    requires t.tasks[id].status.InProgress? && t.tasks[id].attempts == s.tasks[id].attempts
    requires Conforms(h, misses, jitter, delay) && Silence(misses, jitter, delay) <= STALE_LOCK_THRESHOLD
    requires Covered(h, t.now, BeatTimes(s, acts, id))
    ensures !Stale(t.tasks[id], t.now)
  {
    ClockRuns(s, acts);
    LockTimeIsLatestBeat(s, acts, id);
    PulseHolds(h, misses, jitter, delay, t.now, t.tasks[id].lockedAt.value, BeatTimes(s, acts, id));
  }

  // ---- a whole claim, from the worker's side ----

  // Instants at which a beat of worker w for this row reached the database,
  // whatever it found there.
  function Arrivals(s: State, acts: seq<Action>, b: Beat): seq<Time> {
    if acts == [] then []
    else
      var s1, a := Exec(s, acts[..|acts| - 1]), acts[|acts| - 1];
      Arrivals(s, acts[..|acts| - 1], b)
      + (if a.LandBeat? && a.k < |s1.beats| && s1.beats[a.k] == b then [s1.now] else [])
  }

  // At every point of the run the arrivals so far cover the present instant.
  predicate KeepsPulse(s: State, acts: seq<Action>, b: Beat, h: Pulse) {
    && Covered(h, Exec(s, acts).now, Arrivals(s, acts, b))
    && (acts == [] || KeepsPulse(s, acts[..|acts| - 1], b, h))
  }

  // From its claim at s to the end of the run, worker w is inside processTask
  // for the row, and its beats keep a conforming pulse.
  predicate Watched(
      s: State, acts: seq<Action>, w: ProcId, id: TaskId, h: Pulse, misses: nat, jitter: nat, delay: nat)
  {
    && id < |s.tasks| && OwnedBy(s.tasks[id], w) && s.tasks[id].lockedAt == Some(h.start)
    && Conforms(h, misses, jitter, delay) && KeepsPulse(s, acts, Beat(w, id), h)
    && w < |Exec(s, acts).procs| && Holds(Exec(s, acts).procs[w], id, s.tasks[id].attempts)
  }

  // The instants at which worker w sent a beat.
  function Sends(s: State, acts: seq<Action>, w: ProcId): seq<Time> {
    if acts == [] then []
    else
      var s1, a := Exec(s, acts[..|acts| - 1]), acts[|acts| - 1];
      Sends(s, acts[..|acts| - 1], w) + (if a == Work(w, SendBeat) && Enabled(s1, a) then [s1.now] else [])
  }

  lemma SendsPush(s: State, acts: seq<Action>, a: Action, w: ProcId)
    ensures var s1 := Exec(s, acts);
            Sends(s, acts + [a], w)
            == Sends(s, acts, w) + (if a == Work(w, SendBeat) && Enabled(s1, a) then [s1.now] else [])
  {
    assert (acts + [a])[..|acts|] == acts;
  }

  // How many of the first n beats are due to land at now or later.
  function Awaited(h: Pulse, n: nat, now: Time): nat
    requires n <= |h.landings|
  {
    if n == 0 then 0
    else
      var l := h.landings[n - 1];
      Awaited(h, n - 1, now) + (if l.Some? && l.value >= now then 1 else 0)
  }

  // The pulse's firings before now are the beats sent, and in flight are the
  // beats among them that are still to land; the missed ones are lost.
  predicate BeatsMatch(sent: seq<Time>, flying: seq<Beat>, now: Time, b: Beat, h: Pulse) {
    && |h.landings| == |h.fires| && sent <= h.fires
    && (forall i :: |sent| <= i < |h.fires| ==> h.fires[i] >= now)
    && multiset(flying)[b] == Awaited(h, |sent|, now)
  }

  // The pulse is the worker's own.
  predicate BeatsAre(s: State, acts: seq<Action>, b: Beat, h: Pulse) {
    BeatsMatch(Sends(s, acts, b.who), Exec(s, acts).beats, Exec(s, acts).now, b, h)
  }

  // Whoever is inside a claim that is not newer than the row was inside it a step ago.
  lemma HeldBefore(s: State, a: Action, w: ProcId, id: TaskId, n: nat)
    requires Core(s) && id < |s.tasks| && n <= s.tasks[id].attempts
    requires w < |Step(s, a).procs| && Holds(Step(s, a).procs[w], id, n)
    ensures w < |s.procs| && Holds(s.procs[w], id, n)
  {
    if Enabled(s, a) {
      match a
      case Work(p, x) => WorkMoves(s, p, x); if p == w { WorkHeldBefore(s, p, x, id, n); }
      case Requeue(p, r) => RequeuersHoldNothing(s, p, r);
      case Create(p, q) => RequestsHoldNothing(s, p, q);
      case _ =>
    }
  }

  lemma RequeuersHoldNothing(s: State, p: ProcId, r: RequeuerStep)
    requires RequeueCan(s, p, r)
    ensures var t := RequeueNext(s, p, r); Moves(s, t, p) && !t.procs[p].Running? && !t.procs[p].Writing?
  {
  }

  lemma RequestsHoldNothing(s: State, p: ProcId, q: CreateStep)
    requires CreateCan(s, p, q)
    ensures var t := CreateNext(s, p, q); Moves(s, t, p) && !t.procs[p].Running? && !t.procs[p].Writing?
  {
  }

  lemma WorkHeldBefore(s: State, p: ProcId, x: WorkerStep, id: TaskId, n: nat)
    requires Core(s) && WorkCan(s, p, x) && id < |s.tasks| && n <= s.tasks[id].attempts
    requires p < |WorkNext(s, p, x).procs| && Holds(WorkNext(s, p, x).procs[p], id, n)
    ensures Holds(s.procs[p], id, n)
  {
  }

  // While its lock is fresh, only the owner's own result write takes the row away.
  lemma FreshLockStays(s: State, a: Action, w: ProcId, id: TaskId)
    requires Core(s) && id < |s.tasks| && OwnedBy(s.tasks[id], w) && !Stale(s.tasks[id], s.now)
    requires w < |Step(s, a).procs| && Holds(Step(s, a).procs[w], id, s.tasks[id].attempts)
    ensures
      var t := Step(s, a);
      id < |t.tasks| && OwnedBy(t.tasks[id], w) && t.tasks[id].attempts == s.tasks[id].attempts
  {
    assert RowOk(s.tasks[id], s.now) && FenceOk(s.tasks[id], id, s.procs);
    if Enabled(s, a) {
      match a
      case Work(p, x) => WorkLeavesLock(s, p, x, w, id);
      case Requeue(p, r) => RequeueLeavesFresh(s, p, r, id);
      case Create(p, q) => CreateAppendsOneRow(s, p, q);
      case _ =>
    }
  }

  lemma WorkLeavesLock(s: State, p: ProcId, x: WorkerStep, w: ProcId, id: TaskId)
    requires Core(s) && WorkCan(s, p, x) && id < |s.tasks| && OwnedBy(s.tasks[id], w)
    requires w < |WorkNext(s, p, x).procs| && Holds(WorkNext(s, p, x).procs[w], id, s.tasks[id].attempts)
    ensures id < |WorkNext(s, p, x).tasks| && WorkNext(s, p, x).tasks[id] == s.tasks[id]
  {
    assert RowOk(s.tasks[id], s.now) && FenceOk(s.tasks[id], id, s.procs);
  }

  lemma RequeueLeavesFresh(s: State, p: ProcId, r: RequeuerStep, id: TaskId)
    requires RequeueCan(s, p, r) && id < |s.tasks| && !Stale(s.tasks[id], s.now)
    ensures |RequeueNext(s, p, r).tasks| == |s.tasks| && RequeueNext(s, p, r).tasks[id] == s.tasks[id]
  {
  }

  // A beat of the owner refreshes the row it owns.
  lemma ArrivalsHit(s: State, a: Action, w: ProcId, id: TaskId)
    requires Core(s) && id < |s.tasks| && OwnedBy(s.tasks[id], w)
    requires a.LandBeat? && a.k < |s.beats| && s.beats[a.k] == Beat(w, id)
    ensures BeatHits(s, a, id)
  {
    assert RowOk(s.tasks[id], s.now);
  }

  // The claim held throughout, so every arrival is a landed beat.
  ghost predicate ClaimStands(s: State, acts: seq<Action>, w: ProcId, id: TaskId)
    requires id < |s.tasks|
  {
    var t := Exec(s, acts);
    && id < |t.tasks| && OwnedBy(t.tasks[id], w) && t.tasks[id].attempts == s.tasks[id].attempts
    && !Stale(t.tasks[id], t.now)
    && (forall at :: at in Arrivals(s, acts, Beat(w, id)) ==> at in BeatTimes(s, acts, id))
  }

  // A worker whose beats keep a pulse the threshold tolerates is never
  // reclaimed: as long as it is inside processTask it owns the row, under the
  // claim it made, and its lock is fresh, whatever every other process does.
  lemma {:induction false} ConformingWorkerIsNeverReclaimed(
      s: State, acts: seq<Action>, w: ProcId, id: TaskId, h: Pulse, misses: nat, jitter: nat, delay: nat)
    requires Core(s) && Watched(s, acts, w, id, h, misses, jitter, delay)
    requires Silence(misses, jitter, delay) <= STALE_LOCK_THRESHOLD
    ensures ClaimStands(s, acts, w, id)
  {
    assert RowOk(s.tasks[id], s.now);
    var t := Exec(s, acts);
    if acts != [] {
      var front, a := acts[..|acts| - 1], acts[|acts| - 1];
      var s1 := Exec(s, front);
      RunEvolves(s, front);
      assert Grows(s.tasks[id], s1.tasks[id]);
      HeldBefore(s1, a, w, id, s.tasks[id].attempts);
      ConformingWorkerIsNeverReclaimed(s, front, w, id, h, misses, jitter, delay);
      FreshLockStays(s1, a, w, id);
      NewArrivals(s, acts, w, id);
    }
    RunEvolves(s, acts);
    assert RowOk(t.tasks[id], t.now);
    CoveredByMore(h, t.now, Arrivals(s, acts, Beat(w, id)), BeatTimes(s, acts, id));
    ConformingWorkerKeepsItsLock(s, acts, t, id, h, misses, jitter, delay);
  }

  lemma NewArrivals(s: State, acts: seq<Action>, w: ProcId, id: TaskId)
    requires acts != [] && id < |s.tasks| && ClaimStands(s, acts[..|acts| - 1], w, id)
    requires Core(Exec(s, acts[..|acts| - 1]))
    ensures forall at :: at in Arrivals(s, acts, Beat(w, id)) ==> at in BeatTimes(s, acts, id)
  {
    var s1, a := Exec(s, acts[..|acts| - 1]), acts[|acts| - 1];
    if a.LandBeat? && a.k < |s1.beats| && s1.beats[a.k] == Beat(w, id) {
      ArrivalsHit(s1, a, w, id);
    }
  }

  lemma CoveredByMore(h: Pulse, t: Time, few: seq<Time>, many: seq<Time>)
    requires Covered(h, t, few) && forall at :: at in few ==> at in many
    ensures Covered(h, t, many)
  {
    if !(t <= At(h, |h.fires|) && LandedIn(h, t, few)) && t - h.start > STALE_LOCK_THRESHOLD {
      var i :| 0 <= i < |few| && t - few[i] <= STALE_LOCK_THRESHOLD;
      assert few[i] in many;
    }
  }

  // A pulse none of whose beats is due yet is kept by every run so far.
  lemma {:induction false} NothingDueYet(s: State, acts: seq<Action>, b: Beat, h: Pulse)
    requires Core(s) && Exec(s, acts).now <= At(h, |h.fires|)
    requires forall i :: 0 <= i < |h.landings| && h.landings[i].Some? ==> Exec(s, acts).now <= h.landings[i].value
    ensures KeepsPulse(s, acts, b, h)
  {
    if acts != [] {
      var front := acts[..|acts| - 1];
      RunEvolves(s, front);
      StepEvolves(Exec(s, front), acts[|acts| - 1]);
      NothingDueYet(s, front, b, h);
    }
  }

  lemma ClockRuns(s: State, acts: seq<Action>)
    requires Core(s)
    ensures s.now <= Exec(s, acts).now
  {
    RunEvolves(s, acts);
  }
}
