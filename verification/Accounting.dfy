// What the landed history of a row says: its exact shape, where its attempts
// went, and how much model work they can have caused.
module Accounting {
  import opened TaskTable
  import opened Protocol
  import opened Safety
  import opened History

  // ---- the shape of a history ----

  // The event ending a claim: by the claimer itself at its own epoch, or the requeuer's.
  predicate Closes(c: Event, e: Event, epoch: nat)
    requires c.Claimed?
  {
    match e
    case Claimed(_) => false
    case Reclaimed => true
    case _ => e.who == c.who && e.epoch == epoch
  }

  // Claims and their endings alternate; a success or a burial ends the history.
  predicate Shaped(es: seq<Event>) {
    && (forall i :: 0 <= i < |es| && i % 2 == 0 ==> es[i].Claimed?)
    && (forall i :: 0 <= i < |es| && i % 2 == 0 && i + 1 < |es| ==> Closes(es[i], es[i + 1], i / 2 + 1))
    && (forall i :: 0 <= i < |es| && (es[i].Completed? || es[i].Buried?) ==> i == |es| - 1)
  }

  lemma {:induction false} ReplayShape(es: seq<Event>)
    requires Replay(es).Some?
    ensures Shaped(es)
    ensures
      var x := Replay(es).value;
      && (x.Held? <==> |es| % 2 == 1)
      && (x.Held? ==> es[|es| - 1] == Claimed(x.owner))
      && x.epoch == (|es| + 1) / 2
      && (x.Waiting? ==> (x.failed <==> es != [] && es[|es| - 1].Retried?))
      && (x.Finished? <==> es != [] && es[|es| - 1].Completed?)
      && (x.Interred? <==> es != [] && es[|es| - 1].Buried?)
  {
    if es != [] {
      var front := es[..|es| - 1];
      ReplayShape(front);
      forall i | 0 <= i < |es| && i % 2 == 0 && i + 1 < |es| ensures Closes(es[i], es[i + 1], i / 2 + 1) {
        if i + 1 < |front| {
          assert front[i] == es[i] && front[i + 1] == es[i + 1];
        } else {
          assert front[|front| - 1] == es[i];
        }
      }
    }
  }

  // In every run, the landed history of each row has that shape, ends in the
  // row's status, and its claims are the row's attempts.
  lemma TraceShape(start: Time, acts: seq<Action>, id: TaskId)
    requires id < |Exec(Init(start), acts).tasks|
    ensures
      var s := Exec(Init(start), acts);
      var es := EventsOf(s.log, id);
      && Shaped(es)
      && s.tasks[id].attempts == (|es| + 1) / 2
      && (s.tasks[id].status.InProgress? <==> |es| % 2 == 1)
      && (s.tasks[id].status.Retry? <==> es != [] && es[|es| - 1].Retried?)
      && (s.tasks[id].status.Success? <==> es != [] && es[|es| - 1].Completed?)
      && (s.tasks[id].status.DeadLetter? <==> es != [] && es[|es| - 1].Buried?)
      && !s.tasks[id].status.Failed?
  {
    HistoryAlways(start, acts);
    var s := Exec(Init(start), acts);
    ReplayShape(EventsOf(s.log, id));
    assert RowOk(s.tasks[id], s.now);
  }

  // ---- where the attempts went ----

  datatype Tally = Tally(claims: nat, retries: nat, schedules: nat, reclaims: nat, completions: nat, burials: nat)

  function Tallied(es: seq<Event>): Tally {
    if es == [] then Tally(0, 0, 0, 0, 0, 0)
    else
      var t := Tallied(es[..|es| - 1]);
      match es[|es| - 1]
      case Claimed(_) => t.(claims := t.claims + 1)
      case Retried(_, _) => t.(retries := t.retries + 1)
      case Rescheduled(_, _) => t.(schedules := t.schedules + 1)
      case Reclaimed => t.(reclaims := t.reclaims + 1)
      case Completed(_, _) => t.(completions := t.completions + 1)
      case Buried(_, _) => t.(burials := t.burials + 1)
  }

  lemma {:induction false} ReplayTally(es: seq<Event>, limit: nat)
    requires Replay(es).Some? && 1 <= limit
    requires forall i :: 0 <= i < |es| && es[i].Retried? ==> es[i].epoch < limit
    ensures
      var x, t := Replay(es).value, Tallied(es);
      && t.claims == x.epoch
      && t.claims == t.retries + t.schedules + t.reclaims + t.completions + t.burials + (if x.Held? then 1 else 0)
      && t.completions == (if x.Finished? then 1 else 0)
      && t.burials == (if x.Interred? then 1 else 0)
      && t.retries <= limit - 1
      && t.retries + (if x.Held? then 1 else 0) <= x.epoch
  {
    if es != [] {
      var front := es[..|es| - 1];
      assert forall i :: 0 <= i < |front| ==> front[i] == es[i];
      ReplayTally(front, limit);
    }
  }

  // attempts is exactly accounted for, and only requeues and schedules can
  // take it past max_attempts.
  lemma ClaimAccounting(start: Time, acts: seq<Action>, id: TaskId)
    requires id < |Exec(Init(start), acts).tasks|
    ensures
      var r := Exec(Init(start), acts).tasks[id];
      var t := Tallied(EventsOf(Exec(Init(start), acts).log, id));
      && r.attempts == t.claims
      && r.attempts == t.retries + t.schedules + t.reclaims + t.completions + t.burials
                       + (if r.status.InProgress? then 1 else 0)
      && t.completions == (if r.status.Success? then 1 else 0)
      && t.burials == (if r.status.DeadLetter? then 1 else 0)
      && t.retries <= r.maxAttempts - 1
      && r.attempts <= r.maxAttempts + t.reclaims + t.schedules
      && (t.reclaims == 0 && t.schedules == 0 ==> r.attempts <= r.maxAttempts)
  {
    HistoryAlways(start, acts);
    var s := Exec(Init(start), acts);
    var es := EventsOf(s.log, id);
    assert RowOk(s.tasks[id], s.now);
    assert AllJustified(s.tasks[id], es);
    assert forall i :: 0 <= i < |es| && es[i].Retried? ==> Justified(s.tasks[id], es[i]);
    ReplayTally(es, DEFAULT_MAX_ATTEMPTS);
  }

  // ---- exactly when the limit is passed ----

  // The claim ended neither in a result nor in a counted failure.
  predicate GivenBack(e: Event) {
    e.Reclaimed? || e.Rescheduled?
  }

  // A retry lands below the limit and a success or burial ends the history, so
  // what ends the claim at the limit, if a claim follows, is neither.
  lemma PastTheLimit(r: Row, es: seq<Event>, k: nat)
    requires Shaped(es) && AllJustified(r, es) && r.maxAttempts <= k && 1 <= k && 2 * k - 1 < |es|
    requires 2 * k < |es| || !(es[2 * k - 1].Completed? || es[2 * k - 1].Buried?)
    ensures GivenBack(es[2 * k - 1])
  {
    var i := 2 * k - 2;
    assert i % 2 == 0 && i / 2 + 1 == k;
    assert Closes(es[i], es[i + 1], k) && Justified(r, es[i + 1]);
  }

  // All that is used here of a row and its history.
  lemma HistoryOf(start: Time, acts: seq<Action>, id: TaskId) returns (r: Row, es: seq<Event>)
    requires id < |Exec(Init(start), acts).tasks|
    ensures r == Exec(Init(start), acts).tasks[id] && es == EventsOf(Exec(Init(start), acts).log, id)
    ensures Shaped(es) && AllJustified(r, es) && r.attempts == (|es| + 1) / 2 && 1 <= r.maxAttempts
    ensures Claimable(r) ==> 2 * r.attempts == |es|
    ensures Claimable(r) && es != [] ==> !es[|es| - 1].Completed? && !es[|es| - 1].Buried?
    ensures r.status.Retry? <==> es != [] && es[|es| - 1].Retried?
  {
    HistoryAlways(start, acts);
    TraceShape(start, acts, id);
    r, es := Exec(Init(start), acts).tasks[id], EventsOf(Exec(Init(start), acts).log, id);
    assert RowOk(r, Exec(Init(start), acts).now);
  }

  // max_attempts is exceeded if and only if the claim that reached it was taken
  // back by the requeuer or reported a trial end, and another claim followed.
  lemma LimitPassedExactly(start: Time, acts: seq<Action>, id: TaskId)
    requires id < |Exec(Init(start), acts).tasks|
    ensures
      var r := Exec(Init(start), acts).tasks[id];
      var es := EventsOf(Exec(Init(start), acts).log, id);
      r.attempts > r.maxAttempts <==>
        1 <= r.maxAttempts && |es| > 2 * r.maxAttempts && GivenBack(es[2 * r.maxAttempts - 1])
  {
    var r, es := HistoryOf(start, acts, id);
    BeyondTheLimit(r, es);
  }

  lemma BeyondTheLimit(r: Row, es: seq<Event>)
    requires Shaped(es) && AllJustified(r, es) && r.attempts == (|es| + 1) / 2 && 1 <= r.maxAttempts
    ensures r.attempts > r.maxAttempts <==>
              |es| > 2 * r.maxAttempts && GivenBack(es[2 * r.maxAttempts - 1])
  {
    if r.attempts > r.maxAttempts {
      PastTheLimit(r, es, r.maxAttempts);
    }
  }

  // At its limit exactly when its latest claim, at or beyond it, was given back;
  // and then PENDING.
  predicate AtLimitExactly(r: Row, es: seq<Event>) {
    && (r.attempts >= r.maxAttempts <==> es != [] && |es| >= 2 * r.maxAttempts && GivenBack(es[|es| - 1]))
    && (r.attempts >= r.maxAttempts ==> r.status.Pending?)
  }

  // Read off before the claim: a claimable row whose next claim passes the
  // limit is one whose latest claim was given back at or beyond it, and so it
  // is PENDING: a RETRY row always has an attempt left.
  lemma NextClaimPassesLimit(start: Time, acts: seq<Action>, id: TaskId)
    requires id < |Exec(Init(start), acts).tasks| && Claimable(Exec(Init(start), acts).tasks[id])
    ensures AtLimitExactly(Exec(Init(start), acts).tasks[id], EventsOf(Exec(Init(start), acts).log, id))
  {
    var r, es := HistoryOf(start, acts, id);
    AtTheLimit(r, es);
  }

  lemma AtTheLimit(r: Row, es: seq<Event>)
    requires Shaped(es) && AllJustified(r, es) && 2 * r.attempts == |es| && 1 <= r.maxAttempts
    requires es != [] ==> !es[|es| - 1].Completed? && !es[|es| - 1].Buried?
    requires Claimable(r) && (r.status.Retry? <==> es != [] && es[|es| - 1].Retried?)
    ensures AtLimitExactly(r, es)
  {
    if r.attempts >= r.maxAttempts {
      PastTheLimit(r, es, r.attempts);
    }
  }

  // A dead letter either used every attempt or has no automation.
  lemma DeadLettersAreEarned(start: Time, acts: seq<Action>, id: TaskId)
    requires id < |Exec(Init(start), acts).tasks|
    requires Exec(Init(start), acts).tasks[id].status.DeadLetter?
    ensures var r := Exec(Init(start), acts).tasks[id];
            r.attempts >= r.maxAttempts || !Known(r.service)
  {
    HistoryAlways(start, acts);
    var s := Exec(Init(start), acts);
    var es := EventsOf(s.log, id);
    ReplayShape(es);
    assert Justified(s.tasks[id], es[|es| - 1]);
  }
}
