// What the model's replies lead to: the three loops of the AI automation read
// off the replies alone, without following the loops.
module Replies {
  import opened Wrappers
  import opened Protocol
  import opened Universal

  // ---- one backoff ----

  // The pause after the fault of round i, in seconds.
  function Pause(r: Reply, i: nat): nat {
    match r
    case Fault(_, Some(h)) => if h < 45 then h else 45
    case _ => if i == 0 then 15 else if i == 1 then 30 else 45
  }

  function Pauses(script: Script, at: nat, i: nat, n: nat): nat
    decreases n
  {
    if n == 0 then 0 else Pause(script(at), i) + Pauses(script, at + 1, i + 1, n - 1)
  }

  // A backoff sleeps after each call but the last: as long as the fault asks
  // for, up to 45 s; else 15 s, 30 s and then 45 s.
  lemma {:induction false} BackoffPauses(script: Script, at: nat, i: nat)
    requires i <= MAX_RATE_LIMIT_RETRIES
    ensures var sent := Backoff(script, at, i);
            sent.calls > 0 && sent.slept == Pauses(script, at, i, sent.calls - 1)
    decreases MAX_RATE_LIMIT_RETRIES - i, at
  {
    if i < MAX_RATE_LIMIT_RETRIES && script(at).Fault? && script(at).transient {
      BackoffPauses(script, at + 1, i + 1);
    }
  }

  // ---- one asking ----

  // The last reply decides: JSON is used, and a throw is passed on.
  lemma {:induction false} LastReplyDecides(script: Script, at: nat, attempt: nat)
    requires 1 <= attempt <= MAX_PARSE_RETRIES + 1
    ensures
      var asked := Ask(script, at, attempt);
      && asked.calls > 0
      && (var last := script(at + asked.calls - 1);
          && (forall move :: asked.reading == Usable(move) <==> last == Answer(Json(move)))
          && (asked.reading.Unusable? <==> last == Answer(NotJson))
          && (asked.reading.Raised? <==> last.Fault? || last == Answer(Blocked)))
    decreases MAX_PARSE_RETRIES + 1 - attempt, at
  {
    BackoffMeaning(script, at, 0);
    var sent := Backoff(script, at, 0);
    if sent.reply == Some(NotJson) && attempt <= MAX_PARSE_RETRIES {
      LastReplyDecides(script, at + sent.calls, attempt + 1);
    }
  }

  // Another call of the same asking follows a transient fault or an unreadable
  // answer, and never a throw.
  predicate Repeats(r: Reply) {
    (r.Fault? && r.transient) || r == Answer(NotJson)
  }

  lemma {:induction false} OnlyTheseRepeat(script: Script, at: nat, attempt: nat)
    requires 1 <= attempt <= MAX_PARSE_RETRIES + 1
    ensures forall k :: at <= k < at + Ask(script, at, attempt).calls - 1 ==> Repeats(script(k))
    decreases MAX_PARSE_RETRIES + 1 - attempt, at
  {
    BackoffMeaning(script, at, 0);
    var sent := Backoff(script, at, 0);
    if sent.reply == Some(NotJson) && attempt <= MAX_PARSE_RETRIES {
      OnlyTheseRepeat(script, at + sent.calls, attempt + 1);
    }
  }

  function NotJsons(script: Script, at: nat, n: nat): nat {
    if n == 0 then 0 else NotJsons(script, at, n - 1) + (if script(at + n - 1) == Answer(NotJson) then 1 else 0)
  }

  lemma {:induction false} NotJsonsConcat(script: Script, at: nat, n: nat, m: nat)
    ensures NotJsons(script, at, n + m) == NotJsons(script, at, n) + NotJsons(script, at + n, m)
  {
    if m > 0 {
      NotJsonsConcat(script, at, n, m - 1);
    }
  }

  lemma {:induction false} NotJsonsNone(script: Script, at: nat, n: nat)
    requires forall k :: at <= k < at + n ==> script(k) != Answer(NotJson)
    ensures NotJsons(script, at, n) == 0
  {
    if n > 0 {
      NotJsonsNone(script, at, n - 1);
    }
  }

  lemma NotJsonsOfBackoff(script: Script, at: nat)
    ensures
      var sent := Backoff(script, at, 0);
      sent.calls > 0 && NotJsons(script, at, sent.calls) == if sent.reply == Some(NotJson) then 1 else 0
  {
    BackoffMeaning(script, at, 0);
    NotJsonsNone(script, at, Backoff(script, at, 0).calls - 1);
  }

  predicate AsksAgain(script: Script, at: nat, attempt: nat) {
    Backoff(script, at, 0).reply == Some(NotJson) && attempt <= MAX_PARSE_RETRIES
  }

  lemma AskOnce(script: Script, at: nat, attempt: nat)
    requires 1 <= attempt <= MAX_PARSE_RETRIES + 1 && !AsksAgain(script, at, attempt)
    ensures
      var sent, asked := Backoff(script, at, 0), Ask(script, at, attempt);
      asked.calls == sent.calls && (asked.reading.Unusable? <==> sent.reply == Some(NotJson))
  {
  }

  // The third unreadable answer, and no earlier one, ends an asking.
  lemma {:induction false} ThreeUnreadableAnswers(script: Script, at: nat, attempt: nat)
    requires 1 <= attempt <= MAX_PARSE_RETRIES + 1
    ensures
      var asked := Ask(script, at, attempt);
      var unread := NotJsons(script, at, asked.calls);
      unread <= 4 - attempt && (asked.reading.Unusable? <==> unread == 4 - attempt)
    decreases MAX_PARSE_RETRIES + 1 - attempt, at
  {
    NotJsonsOfBackoff(script, at);
    if AsksAgain(script, at, attempt) {
      UnreadableThenAgain(script, at, attempt);
      ThreeUnreadableAnswers(script, at + Backoff(script, at, 0).calls, attempt + 1);
    } else {
      AskOnce(script, at, attempt);
    }
  }

  lemma OneMoreNotJson(script: Script, at: nat, first: nat, rest: nat, total: nat)
    requires NotJsons(script, at, first) == 1 && total == first + rest
    ensures NotJsons(script, at, total) == 1 + NotJsons(script, at + first, rest)
  {
    NotJsonsConcat(script, at, first, rest);
  }

  lemma UnreadableThenAgain(script: Script, at: nat, attempt: nat)
    requires 1 <= attempt <= MAX_PARSE_RETRIES && AsksAgain(script, at, attempt)
    ensures
      var next := at + Backoff(script, at, 0).calls;
      var asked, rest := Ask(script, at, attempt), Ask(script, next, attempt + 1);
      && asked.reading == rest.reading
      && NotJsons(script, at, asked.calls) == 1 + NotJsons(script, next, rest.calls)
  {
    NotJsonsOfBackoff(script, at);
    var first := Backoff(script, at, 0).calls;
    AskAgain(script, at, attempt, Backoff(script, at, 0));
    OneMoreNotJson(script, at, first, Ask(script, at + first, attempt + 1).calls, Ask(script, at, attempt).calls);
  }

  // ---- one run, step by step ----

  // Where the replies stand after the askings of n steps.
  function Cursor(script: Script, at: nat, n: nat): nat {
    if n == 0 then at else Cursor(script, at, n - 1) + Ask(script, Cursor(script, at, n - 1), 1).calls
  }

  function ReadingAt(script: Script, at: nat, step: nat): Reading
    requires step > 0
  {
    Ask(script, Cursor(script, at, step - 1), 1).reading
  }

  lemma {:induction false} CursorGrows(script: Script, at: nat, n: nat, m: nat)
    requires n <= m
    ensures Cursor(script, at, n) <= Cursor(script, at, m)
  {
    if n < m {
      CursorGrows(script, at, n, m - 1);
    }
  }

  predicate Open(page: Page) {
    !page.wall && page.shot
  }

  // The step was reached with a page to show, the answer was an action, and the
  // action could be carried out.
  predicate GoesOn(script: Script, pages: nat -> Page, at: nat, step: nat)
    requires step > 0
  {
    Open(pages(step)) && ReadingAt(script, at, step) == Usable(Act) && pages(step).acted
  }

  // The model is asked at the first m steps, and then there is a reason to stop.
  predicate AskedAt(script: Script, pages: nat -> Page, at: nat, m: nat) {
    && m <= 20
    && (forall k :: 1 <= k < m ==> GoesOn(script, pages, at, k))
    && (m > 0 ==> Open(pages(m)))
    && (m == 20 || !Open(pages(m + 1)) || (m > 0 && !GoesOn(script, pages, at, m)))
  }

  predicate DoneAt(script: Script, at: nat, m: nat) {
    m > 0 && ReadingAt(script, at, m) == Usable(Done(true))
  }

  // One turn of the step loop.
  lemma StepFrom(script: Script, pages: nat -> Page, at: nat, n: nat)
    requires n < 20
    ensures
      var ran := Steps(script, pages, Cursor(script, at, n), n + 1);
      var rest := Steps(script, pages, Cursor(script, at, n + 1), n + 2);
      if !Open(pages(n + 1)) then ran.calls == 0 && ran.outcome == Failure
      else if GoesOn(script, pages, at, n + 1) then
        Cursor(script, at, n) + ran.calls == Cursor(script, at, n + 1) + rest.calls && ran.outcome == rest.outcome
      else
        && Cursor(script, at, n) + ran.calls == Cursor(script, at, n + 1)
        && ran.outcome == if DoneAt(script, at, n + 1) then Succeeded else Failure
  {
  }

  // The loop, entered after n askings, ends after m.
  predicate EndsAt(script: Script, pages: nat -> Page, at: nat, n: nat, m: nat)
    requires n <= 20
  {
    var ran := Steps(script, pages, Cursor(script, at, n), n + 1);
    && n <= m && Cursor(script, at, n) + ran.calls == Cursor(script, at, m)
    && ran.outcome == if n < m && DoneAt(script, at, m) then Succeeded else Failure
  }

  lemma EndsBefore(script: Script, pages: nat -> Page, at: nat, n: nat)
    requires n == 20 || (n < 20 && !Open(pages(n + 1)))
    ensures EndsAt(script, pages, at, n, n)
  {
    if n < 20 {
      StepFrom(script, pages, at, n);
    }
  }

  lemma EndsHere(script: Script, pages: nat -> Page, at: nat, n: nat)
    requires n < 20 && Open(pages(n + 1)) && !GoesOn(script, pages, at, n + 1)
    ensures EndsAt(script, pages, at, n, n + 1)
  {
    StepFrom(script, pages, at, n);
  }

  lemma EndsLater(script: Script, pages: nat -> Page, at: nat, n: nat, m: nat)
    requires n < 20 && GoesOn(script, pages, at, n + 1) && EndsAt(script, pages, at, n + 1, m)
    ensures EndsAt(script, pages, at, n, m)
  {
    StepFrom(script, pages, at, n);
    GoingOnIsNotDone(script, pages, at, n + 1);
  }

  lemma {:induction false} StepsFrom(script: Script, pages: nat -> Page, at: nat, n: nat) returns (m: nat)
    requires n <= 20 && forall k :: 1 <= k <= n ==> GoesOn(script, pages, at, k)
    ensures AskedAt(script, pages, at, m) && EndsAt(script, pages, at, n, m)
    decreases 20 - n
  {
    if n < 20 && GoesOn(script, pages, at, n + 1) {
      m := StepsFrom(script, pages, at, n + 1);
      EndsLater(script, pages, at, n, m);
    } else if n < 20 && Open(pages(n + 1)) {
      m := n + 1;
      EndsHere(script, pages, at, n);
    } else {
      m := n;
      EndsBefore(script, pages, at, n);
      assert n > 0 ==> GoesOn(script, pages, at, n);
    }
  }

  lemma GoingOnIsNotDone(script: Script, pages: nat -> Page, at: nat, step: nat)
    requires step > 0 && GoesOn(script, pages, at, step)
    ensures !DoneAt(script, at, step)
  {
  }

  lemma LastReading(script: Script, at: nat, m: nat)
    requires m > 0
    ensures Cursor(script, at, m) > at
    ensures DoneAt(script, at, m) <==> script(Cursor(script, at, m) - 1) == Answer(Json(Done(true)))
  {
    LastReplyDecides(script, Cursor(script, at, m - 1), 1);
    CursorGrows(script, at, 0, m - 1);
  }

  predicate Starts(env: Setting) {
    env.hasUrl && env.hasKey && env.launches && env.loads
  }

  // A run makes exactly the calls of the steps the model is asked at, and it
  // succeeds if and only if the last answer there was "done" with success and
  // the browser closes.
  lemma RunIs(script: Script, pages: nat -> Page, at: nat, env: Setting) returns (m: nat)
    requires Starts(env)
    ensures AskedAt(script, pages, at, m)
    ensures
      var ran := Cancelled(script, pages, at, env);
      && at + ran.calls == Cursor(script, at, m)
      && ran.outcome == if env.closes && DoneAt(script, at, m) then Succeeded else Failure
  {
    m := StepsFrom(script, pages, at, 0);
  }

  // A run succeeds if and only if its last reply says "done" with success and
  // the browser closes; anything else is a failure. It makes a call if and only
  // if it gets as far as a page to show.
  lemma CancelledExactly(script: Script, pages: nat -> Page, at: nat, env: Setting)
    ensures
      var ran := Cancelled(script, pages, at, env);
      && (ran.outcome.Succeeded? <==>
            env.closes && ran.calls > 0 && script(at + ran.calls - 1) == Answer(Json(Done(true))))
      && (ran.outcome.Succeeded? || ran.outcome.Failure?)
      && (ran.calls > 0 <==> Starts(env) && Open(pages(1)))
  {
    if Starts(env) {
      var m := RunIs(script, pages, at, env);
      if m > 0 {
        LastReading(script, at, m);
        assert Open(pages(1)) by {
          assert m > 1 ==> GoesOn(script, pages, at, 1);
        }
      }
    }
  }

  // No call is made at or after a step behind a wall or without a screenshot,
  // and none after an action that could not be carried out: such a run ends with
  // the askings of the steps before, or of that step.
  lemma NothingAskedPast(script: Script, pages: nat -> Page, at: nat, env: Setting, k: nat)
    requires 1 <= k <= 20
    ensures !Open(pages(k)) ==> at + Cancelled(script, pages, at, env).calls <= Cursor(script, at, k - 1)
    ensures !pages(k).acted ==> at + Cancelled(script, pages, at, env).calls <= Cursor(script, at, k)
  {
    CursorGrows(script, at, 0, k - 1);
    if Starts(env) {
      var m := RunIs(script, pages, at, env);
      assert k < m ==> GoesOn(script, pages, at, k);
      if m < k {
        CursorGrows(script, at, m, k - 1);
      }
    }
  }
}
