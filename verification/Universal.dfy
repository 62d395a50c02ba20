// The AI automation: three nested bounded loops around a model that may stall,
// refuse, or answer nonsense. The model and the browser are oracles.
module Universal {
  import opened Wrappers
  import opened Protocol

  const MAX_STEPS: nat := 20
  const MAX_PARSE_RETRIES: nat := 2
  const MAX_RATE_LIMIT_RETRIES: nat := 5

  // A parsed reply: JSON null makes the next property access throw; "done"
  // ends the run; anything else is tried as an action.
  datatype Move = Broken | Done(success: bool) | Act
  // Reading the text of a reply may throw, or the text may not parse.
  datatype Body = Blocked | NotJson | Json(move: Move)
  // hint: the delay in seconds the error message asks for, rounded up.
  datatype Reply = Answer(body: Body) | Fault(transient: bool, hint: Option<nat>)

  // The model's replies in call order.
  type Script = nat -> Reply

  function Min(a: nat, b: nat): nat {
    if a <= b then a else b
  }

  function Wait(hint: Option<nat>, i: nat): nat {
    Min(if hint.Some? then hint.value else 15 * (i + 1), 45)
  }

  // ---- what each loop computes ----

  // None: the call threw.
  datatype Sent = Sent(reply: Option<Body>, calls: nat, slept: nat)

  function Backoff(script: Script, at: nat, i: nat): Sent
    requires i <= MAX_RATE_LIMIT_RETRIES
    decreases MAX_RATE_LIMIT_RETRIES - i, at
  {
    match script(at)
    case Answer(body) => Sent(Some(body), 1, 0)
    case Fault(transient, hint) =>
      if !transient || i == MAX_RATE_LIMIT_RETRIES then Sent(None, 1, 0)
      else
        var rest := Backoff(script, at + 1, i + 1);
        Sent(rest.reply, 1 + rest.calls, Wait(hint, i) + rest.slept)
  }

  datatype Reading = Usable(move: Move) | Unusable | Raised
  datatype Asked = Asked(reading: Reading, calls: nat, slept: nat)

  function Ask(script: Script, at: nat, attempt: nat): Asked
    requires 1 <= attempt <= MAX_PARSE_RETRIES + 1
    decreases MAX_PARSE_RETRIES + 1 - attempt, at
  {
    var sent := Backoff(script, at, 0);
    match sent.reply
    case None => Asked(Raised, sent.calls, sent.slept)
    case Some(Blocked) => Asked(Raised, sent.calls, sent.slept)
    case Some(Json(move)) => Asked(Usable(move), sent.calls, sent.slept)
    case Some(NotJson) =>
      if attempt > MAX_PARSE_RETRIES then Asked(Unusable, sent.calls, sent.slept)
      else
        var rest := Ask(script, at + sent.calls, attempt + 1);
        Asked(rest.reading, sent.calls + rest.calls, sent.slept + rest.slept)
  }

  // One step's page: a human-verification wall, whether the screenshot could be
  // taken, whether the action could be carried out.
  datatype Page = Page(wall: bool, shot: bool, acted: bool)
  datatype Ran = Ran(outcome: Outcome, calls: nat, slept: nat)

  function Steps(script: Script, pages: nat -> Page, at: nat, step: nat): Ran
    requires 1 <= step <= MAX_STEPS + 1
    decreases MAX_STEPS + 1 - step, at
  {
    if step > MAX_STEPS || pages(step).wall || !pages(step).shot then Ran(Failure, 0, 0)
    else
      var asked := Ask(script, at, 1);
      match asked.reading
      case Usable(Done(true)) => Ran(Succeeded, asked.calls, asked.slept)
      case Usable(Act) =>
        if !pages(step).acted then Ran(Failure, asked.calls, asked.slept)
        else
          var rest := Steps(script, pages, at + asked.calls, step + 1);
          Ran(rest.outcome, asked.calls + rest.calls, asked.slept + rest.slept)
      case _ => Ran(Failure, asked.calls, asked.slept)
  }

  // What the worker sees of one run; a throw reaches it as a failure. A
  // browser that fails to close throws after the run and hides its result.
  datatype Setting = Setting(hasUrl: bool, hasKey: bool, launches: bool, loads: bool, closes: bool)

  function Cancelled(script: Script, pages: nat -> Page, at: nat, env: Setting): Ran {
    if !env.hasUrl || !env.hasKey || !env.launches || !env.loads then Ran(Failure, 0, 0)
    else
      var ran := Steps(script, pages, at, 1);
      if env.closes then ran else ran.(outcome := Failure)
  }

  // ---- the loops themselves ----

  class Gemini {
    const script: Script
    var calls: nat
    var slept: nat

    constructor (script: Script)
      ensures this.script == script && calls == 0 && slept == 0
    {
      this.script := script;
      calls, slept := 0, 0;
    }

    method GenerateContent() returns (r: Reply)
      modifies this
      ensures r == script(old(calls)) && calls == old(calls) + 1 && slept == old(slept)
    {
      r := script(calls);
      calls := calls + 1;
    }

    method Sleep(seconds: nat)
      modifies this
      ensures slept == old(slept) + seconds && calls == old(calls)
    {
      slept := slept + seconds;
    }
  }

  // The throw after the loop is dead code: the last round always leaves.
  method GenerateWithBackoff(g: Gemini) returns (reply: Option<Body>)
    modifies g
    ensures g.calls >= old(g.calls) && g.slept >= old(g.slept)
    ensures Sent(reply, g.calls - old(g.calls), g.slept - old(g.slept)) == Backoff(g.script, old(g.calls), 0)
  {
    for i := 0 to MAX_RATE_LIMIT_RETRIES + 1
      invariant g.calls >= old(g.calls) && g.slept >= old(g.slept)
      invariant i <= MAX_RATE_LIMIT_RETRIES ==>
                  var rest := Backoff(g.script, g.calls, i);
                  Backoff(g.script, old(g.calls), 0)
                  == Sent(rest.reply, g.calls - old(g.calls) + rest.calls, g.slept - old(g.slept) + rest.slept)
      invariant i <= MAX_RATE_LIMIT_RETRIES
    {
      var r := g.GenerateContent();
      match r {
        case Answer(body) =>
          return Some(body);
        case Fault(transient, hint) =>
          if !transient || i == MAX_RATE_LIMIT_RETRIES {
            return None;
          }
          g.Sleep(Wait(hint, i));
      }
    }
    assert false;
  }

  // The return after the loop is dead code too.
  method AskGeminiForAction(g: Gemini) returns (reading: Reading)
    modifies g
    ensures g.calls >= old(g.calls) && g.slept >= old(g.slept)
    ensures Asked(reading, g.calls - old(g.calls), g.slept - old(g.slept)) == Ask(g.script, old(g.calls), 1)
  {
    for attempt := 1 to MAX_PARSE_RETRIES + 2
      invariant 1 <= attempt <= MAX_PARSE_RETRIES + 1
      invariant g.calls >= old(g.calls) && g.slept >= old(g.slept)
      invariant var rest := Ask(g.script, g.calls, attempt);
                Ask(g.script, old(g.calls), 1)
                == Asked(rest.reading, g.calls - old(g.calls) + rest.calls, g.slept - old(g.slept) + rest.slept)
    {
      var reply := GenerateWithBackoff(g);
      match reply {
        case None =>
          return Raised;
        case Some(Blocked) =>
          return Raised;
        case Some(Json(move)) =>
          return Usable(move);
        case Some(NotJson) =>
          if attempt > MAX_PARSE_RETRIES {
            return Unusable;
          }
      }
    }
    assert false;
  }

  method Cancel(g: Gemini, pages: nat -> Page, env: Setting) returns (outcome: Outcome)
    modifies g
    ensures g.calls >= old(g.calls) && g.slept >= old(g.slept)
    ensures Ran(outcome, g.calls - old(g.calls), g.slept - old(g.slept))
         == Cancelled(g.script, pages, old(g.calls), env)
  {
    if !env.hasUrl || !env.hasKey || !env.launches || !env.loads {
      return Failure;
    }
    outcome := Failure;
    var step := 1;
    while step <= MAX_STEPS
      invariant 1 <= step <= MAX_STEPS + 1 && outcome == Failure
      invariant g.calls >= old(g.calls) && g.slept >= old(g.slept)
      invariant var rest := Steps(g.script, pages, g.calls, step);
                Steps(g.script, pages, old(g.calls), 1)
                == Ran(rest.outcome, g.calls - old(g.calls) + rest.calls, g.slept - old(g.slept) + rest.slept)
    {
      if pages(step).wall || !pages(step).shot {
        break;
      }
      var reading := AskGeminiForAction(g);
      if reading == Usable(Done(true)) {
        outcome := Succeeded;
        break;
      }
      if reading != Usable(Act) || !pages(step).acted {
        break;
      }
      step := step + 1;
    }
    if !env.closes {
      outcome := Failure;
    }
  }

  // ---- bounds and meaning ----

  // The reply a backoff ends with: every call before the last met a transient
  // error, and the last one was decisive or the sixth.
  lemma {:induction false} BackoffMeaning(script: Script, at: nat, i: nat)
    requires i <= MAX_RATE_LIMIT_RETRIES
    ensures
      var sent := Backoff(script, at, i);
      && 1 <= sent.calls <= MAX_RATE_LIMIT_RETRIES + 1 - i
      && (forall k :: at <= k < at + sent.calls - 1 ==> script(k).Fault? && script(k).transient)
      && (var last := script(at + sent.calls - 1);
          && (sent.reply.Some? <==> last.Answer?)
          && (last.Answer? ==> sent.reply == Some(last.body))
          && (last.Fault? && last.transient ==> sent.calls == MAX_RATE_LIMIT_RETRIES + 1 - i))
      && sent.slept <= 45 * (MAX_RATE_LIMIT_RETRIES - i)
    decreases MAX_RATE_LIMIT_RETRIES - i
  {
    if i < MAX_RATE_LIMIT_RETRIES && script(at).Fault? && script(at).transient {
      BackoffMeaning(script, at + 1, i + 1);
    }
  }

  // One backoff: at most 6 calls and 225 s, and 180 s when no error says how long to wait.
  lemma BackoffBound(script: Script, at: nat)
    ensures Backoff(script, at, 0).calls <= 6 && Backoff(script, at, 0).slept <= 225
    ensures (forall k :: script(k).Fault? ==> script(k).hint.None?) ==> Backoff(script, at, 0).slept <= 180
  {
    BackoffMeaning(script, at, 0);
    if forall k :: script(k).Fault? ==> script(k).hint.None? {
      UnhintedSleep(script, at, 0);
    }
  }

  function UnhintedTotal(i: nat): nat
    requires i <= MAX_RATE_LIMIT_RETRIES
    decreases MAX_RATE_LIMIT_RETRIES - i
  {
    if i == MAX_RATE_LIMIT_RETRIES then 0 else Wait(None, i) + UnhintedTotal(i + 1)
  }

  lemma {:induction false} UnhintedSleep(script: Script, at: nat, i: nat)
    requires i <= MAX_RATE_LIMIT_RETRIES
    requires forall k :: script(k).Fault? ==> script(k).hint.None?
    ensures Backoff(script, at, i).slept <= UnhintedTotal(i) && UnhintedTotal(0) == 180
    decreases MAX_RATE_LIMIT_RETRIES - i
  {
    assert UnhintedTotal(0) == 180 by {
      assert UnhintedTotal(3) == 90;
    }
    if i < MAX_RATE_LIMIT_RETRIES && script(at).Fault? {
      UnhintedSleep(script, at + 1, i + 1);
    }
  }

  lemma {:induction false} AskBound(script: Script, at: nat, attempt: nat)
    requires 1 <= attempt <= MAX_PARSE_RETRIES + 1
    ensures
      var asked := Ask(script, at, attempt);
      && 1 <= asked.calls <= 6 * (MAX_PARSE_RETRIES + 2 - attempt)
      && asked.slept <= 225 * (MAX_PARSE_RETRIES + 2 - attempt)
      && (forall move :: asked.reading == Usable(move) ==> script(at + asked.calls - 1) == Answer(Json(move)))
    decreases MAX_PARSE_RETRIES + 1 - attempt
  {
    BackoffMeaning(script, at, 0);
    var sent := Backoff(script, at, 0);
    if sent.reply == Some(NotJson) && attempt <= MAX_PARSE_RETRIES {
      AskBound(script, at + sent.calls, attempt + 1);
    }
  }

  lemma {:induction false} StepsCost(script: Script, pages: nat -> Page, at: nat, step: nat)
    requires 1 <= step <= MAX_STEPS + 1
    ensures
      var ran := Steps(script, pages, at, step);
      ran.calls <= 18 * (MAX_STEPS + 1 - step) && ran.slept <= 675 * (MAX_STEPS + 1 - step)
    decreases MAX_STEPS + 1 - step
  {
    if step <= MAX_STEPS {
      AskBound(script, at, 1);
      StepsCost(script, pages, at + Ask(script, at, 1).calls, step + 1);
    }
  }

  lemma {:induction false} StepsWord(script: Script, pages: nat -> Page, at: nat, step: nat)
    requires 1 <= step <= MAX_STEPS + 1
    ensures
      var ran := Steps(script, pages, at, step);
      && !ran.outcome.DetectedTrialEnd?
      && (ran.outcome.Succeeded? ==> ran.calls > 0 && script(at + ran.calls - 1) == Answer(Json(Done(true))))
    decreases MAX_STEPS + 1 - step
  {
    if step <= MAX_STEPS {
      AskBound(script, at, 1);
      StepsWord(script, pages, at + Ask(script, at, 1).calls, step + 1);
    }
  }

  lemma StepsBound(script: Script, pages: nat -> Page, at: nat, step: nat)
    requires 1 <= step <= MAX_STEPS + 1
    ensures
      var ran := Steps(script, pages, at, step);
      && ran.calls <= 18 * (MAX_STEPS + 1 - step) && ran.slept <= 675 * (MAX_STEPS + 1 - step)
      && !ran.outcome.DetectedTrialEnd?
      && (ran.outcome.Succeeded? ==> ran.calls > 0 && script(at + ran.calls - 1) == Answer(Json(Done(true))))
  {
    StepsCost(script, pages, at, step);
    StepsWord(script, pages, at, step);
  }

  // One run: at most 360 model calls and 13500 s of backoff; it never reports a
  // trial end, and it succeeds only on the model's own last word.
  lemma CancelBound(script: Script, pages: nat -> Page, at: nat, env: Setting)
    ensures
      var ran := Cancelled(script, pages, at, env);
      && ran.calls <= MAX_MODEL_CALLS && ran.slept <= 13_500
      && !ran.outcome.DetectedTrialEnd?
      && (ran.outcome.Succeeded? ==> ran.calls > 0 && script(at + ran.calls - 1) == Answer(Json(Done(true))))
  {
    StepsBound(script, pages, at, 1);
  }

  // ---- the bounds are reached ----

  // Five long waits before every answer; two unreadable answers before every
  // readable one; and the readable ones never finish the job.
  function Exhausting(k: nat): Reply {
    if k % 6 < 5 then Fault(true, Some(60)) else Answer(AnswerOfBlock(k / 6))
  }

  function AnswerOfBlock(block: nat): Body {
    if block % 3 < 2 then NotJson else Json(Act)
  }

  lemma InBlock(block: nat, i: nat)
    requires i < 6
    ensures (6 * block + i) % 6 == i && (6 * block + i) / 6 == block
  {
  }

  lemma {:induction false} ExhaustingBackoff(block: nat, i: nat)
    requires i <= MAX_RATE_LIMIT_RETRIES
    ensures Backoff(Exhausting, 6 * block + i, i)
         == Sent(Some(AnswerOfBlock(block)), MAX_RATE_LIMIT_RETRIES + 1 - i, 45 * (MAX_RATE_LIMIT_RETRIES - i))
    decreases MAX_RATE_LIMIT_RETRIES - i
  {
    InBlock(block, i);
    if i < MAX_RATE_LIMIT_RETRIES {
      ExhaustingBackoff(block, i + 1);
    }
  }

  // An unreadable answer with retries left means asking again.
  lemma AskAgain(script: Script, at: nat, attempt: nat, sent: Sent)
    requires 1 <= attempt <= MAX_PARSE_RETRIES && sent == Backoff(script, at, 0) && sent.reply == Some(NotJson)
    ensures
      var rest := Ask(script, at + sent.calls, attempt + 1);
      Ask(script, at, attempt) == Asked(rest.reading, sent.calls + rest.calls, sent.slept + rest.slept)
  {
  }

  lemma AskSettles(script: Script, at: nat, attempt: nat, sent: Sent, move: Move)
    requires 1 <= attempt <= MAX_PARSE_RETRIES + 1 && sent == Backoff(script, at, 0)
    requires sent.reply == Some(Json(move))
    ensures Ask(script, at, attempt) == Asked(Usable(move), sent.calls, sent.slept)
  {
  }

  lemma ExhaustingSent(block: nat)
    ensures Backoff(Exhausting, 6 * block, 0) == Sent(Some(AnswerOfBlock(block)), 6, 225)
  {
    ExhaustingBackoff(block, 0);
  }

  // The last asking of a round, the one before it, and the first.
  lemma ThirdAsk(block: nat)
    requires block % 3 == 2
    ensures Ask(Exhausting, 6 * block, 3) == Asked(Usable(Act), 6, 225)
  {
    ExhaustingSent(block);
    AskSettles(Exhausting, 6 * block, 3, Backoff(Exhausting, 6 * block, 0), Act);
  }

  lemma SecondAsk(block: nat)
    requires block % 3 == 1
    ensures Ask(Exhausting, 6 * block, 2) == Asked(Usable(Act), 12, 450)
  {
    ExhaustingSent(block);
    AskAgain(Exhausting, 6 * block, 2, Backoff(Exhausting, 6 * block, 0));
    ThirdAsk(block + 1);
  }

  lemma ExhaustingAsk(block: nat)
    requires block % 3 == 0
    ensures Ask(Exhausting, 6 * block, 1) == Asked(Usable(Act), 18, 675)
  {
    ExhaustingSent(block);
    AskAgain(Exhausting, 6 * block, 1, Backoff(Exhausting, 6 * block, 0));
    SecondAsk(block + 1);
  }

  lemma {:induction false} ExhaustingSteps(pages: nat -> Page, round: nat, step: nat)
    requires 1 <= step <= MAX_STEPS + 1
    requires forall k :: pages(k) == Page(false, true, true)
    ensures Steps(Exhausting, pages, 18 * round, step)
         == Ran(Failure, 18 * (MAX_STEPS + 1 - step), 675 * (MAX_STEPS + 1 - step))
    decreases MAX_STEPS + 1 - step
  {
    if step <= MAX_STEPS {
      ExhaustingRound(round);
      NextRound(round);
      ExhaustingSteps(pages, round + 1, step + 1);
      OneStep(Exhausting, pages, 18 * round, step);
    }
  }

  lemma NextRound(round: nat)
    ensures 18 * (round + 1) == 18 * round + 18
  {
  }

  lemma ExhaustingRound(round: nat)
    ensures Ask(Exhausting, 18 * round, 1) == Asked(Usable(Act), 18, 675)
  {
    assert 6 * (3 * round) == 18 * round;
    ExhaustingAsk(3 * round);
  }

  // A step that gets an action and can carry it out goes on to the next.
  lemma OneStep(script: Script, pages: nat -> Page, at: nat, step: nat)
    requires 1 <= step <= MAX_STEPS && pages(step) == Page(false, true, true)
    requires Ask(script, at, 1).reading == Usable(Act)
    ensures
      var asked := Ask(script, at, 1);
      var rest := Steps(script, pages, at + asked.calls, step + 1);
      Steps(script, pages, at, step) == Ran(rest.outcome, asked.calls + rest.calls, asked.slept + rest.slept)
  {
  }

  lemma ExhaustingRun(pages: nat -> Page, round: nat, env: Setting)
    requires forall k :: pages(k) == Page(false, true, true)
    requires env == Setting(true, true, true, true, true)
    ensures Cancelled(Exhausting, pages, 18 * round, env) == Ran(Failure, MAX_MODEL_CALLS, 13_500)
  {
    ExhaustingSteps(pages, round, 1);
  }

  // So 360 calls and 13500 s are the exact worst case of one run, however many
  // such rounds of 18 calls came before.
  lemma CancelBoundIsReached(round: nat)
    ensures exists script, pages, env ::
              Cancelled(script, pages, 18 * round, env) == Ran(Failure, MAX_MODEL_CALLS, 13_500)
  {
    var pages := (k: nat) => Page(false, true, true);
    ExhaustingRun(pages, round, Setting(true, true, true, true, true));
  }
}
