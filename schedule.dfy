/** What the monitors' asyncio loops do, seen from the outside: an ordered
    trace of the things that happened (captures, judgements, alerts, sleeps,
    cleanups, errors). Time does not pass in the model; a sleep is an event. */
module Schedule {
  import opened Wrappers
  import opened Models

  datatype Event =
    | Captured(path: Option<Path>)
    | Judged(positive: bool)
    | Alerted(message: string)
    | Slept(seconds: real)
    | CleanedUp
    | Raised(error: string)
    | Cancelled

  /** The alert texts in a trace, in order. */
  function Alerts(events: seq<Event>): (messages: seq<string>)
    ensures |messages| <= |events|
  {
    if events == [] then []
    else (if events[0].Alerted? then [events[0].message] else []) + Alerts(events[1..])
  }

  /** The sleep durations in a trace, in order. */
  function Sleeps(events: seq<Event>): (durations: seq<real>)
    ensures |durations| <= |events|
  {
    if events == [] then []
    else (if events[0].Slept? then [events[0].seconds] else []) + Sleeps(events[1..])
  }

  /** The number of judge calls in a trace. */
  function JudgeCalls(events: seq<Event>): (n: nat)
    ensures n <= |events|
  {
    if events == [] then 0
    else (if events[0].Judged? then 1 else 0) + JudgeCalls(events[1..])
  }

  /** The outcomes of the capture attempts in a trace, in order. */
  function Captures(events: seq<Event>): (paths: seq<Option<Path>>)
    ensures |paths| <= |events|
  {
    if events == [] then []
    else (if events[0].Captured? then [events[0].path] else []) + Captures(events[1..])
  }

  lemma {:induction false} CapturesAppend(a: seq<Event>, b: seq<Event>)
    ensures Captures(a + b) == Captures(a) + Captures(b)
  {
    if a != [] {
      CapturesAppend(a[1..], b);
      assert (a + b)[1..] == a[1..] + b;
    } else {
      assert a + b == b;
    }
  }

  lemma {:induction false} AlertsAppend(a: seq<Event>, b: seq<Event>)
    ensures Alerts(a + b) == Alerts(a) + Alerts(b)
  {
    if a != [] {
      AlertsAppend(a[1..], b);
      assert (a + b)[1..] == a[1..] + b;
    } else {
      assert a + b == b;
    }
  }

  lemma {:induction false} SleepsAppend(a: seq<Event>, b: seq<Event>)
    ensures Sleeps(a + b) == Sleeps(a) + Sleeps(b)
  {
    if a != [] {
      SleepsAppend(a[1..], b);
      assert (a + b)[1..] == a[1..] + b;
    } else {
      assert a + b == b;
    }
  }

  lemma {:induction false} JudgeCallsAppend(a: seq<Event>, b: seq<Event>)
    ensures JudgeCalls(a + b) == JudgeCalls(a) + JudgeCalls(b)
  {
    if a != [] {
      JudgeCallsAppend(a[1..], b);
      assert (a + b)[1..] == a[1..] + b;
    } else {
      assert a + b == b;
    }
  }

  lemma AppendAssoc<T>(a: seq<T>, b: seq<T>, c: seq<T>)
    ensures (a + b) + c == a + (b + c)
  {
  }

  /** The concatenation of the rounds' traces. */
  function Concat(rounds: seq<seq<Event>>): seq<Event>
  {
    if rounds == [] then [] else Concat(rounds[..|rounds| - 1]) + rounds[|rounds| - 1]
  }

  lemma ConcatStep(rounds: seq<seq<Event>>, k: nat)
    requires k < |rounds|
    ensures Concat(rounds[..k + 1]) == Concat(rounds[..k]) + rounds[k]
  {
    assert rounds[..k + 1][..k] == rounds[..k];
  }

  /** The event loop the monitors run on. It keeps the ghost trace of what
      happened; `Sleep` is `asyncio.sleep`. */
  class EventLoop {
    ghost var trace: seq<Event>

    constructor ()
      ensures trace == []
    {
      trace := [];
    }

    method Sleep(seconds: real)
      modifies this
      ensures trace == old(trace) + [Slept(seconds)]
    {
      trace := trace + [Slept(seconds)];
    }

    ghost method Record(e: Event)
      modifies this
      ensures trace == old(trace) + [e]
    {
      trace := trace + [e];
    }
  }

  /** What interrupts one pass of a monitor loop, and at which of its stages.
      An ordinary exception is caught by the loop, which logs it and sleeps
      for the check interval; `recoveryCancelled` says that this recovery
      sleep is itself cancelled. A `CancelledError` is not caught by the
      `except Exception` clause: it breaks out of the loop. */
  datatype Disruption<Stage> =
    | Undisturbed
    | Raises(at: Stage, error: string, recoveryCancelled: bool)
    | Cancels(at: Stage)

  /** How one pass ends: the loop goes on to re-check `is_running`; the loop
      breaks and `start` returns; or the `CancelledError` raised in the
      recovery sleep leaves `start`. */
  datatype RoundEnd = Continued | Broke | CancelledInRecovery

  function EndOf<S>(d: Disruption<S>): (e: RoundEnd)
    ensures e == Continued <==> d.Undisturbed? || (d.Raises? && !d.recoveryCancelled)
  {
    match d
    case Undisturbed => Continued
    case Raises(_, _, recoveryCancelled) => if recoveryCancelled then CancelledInRecovery else Continued
    case Cancels(_) => Broke
  }

  /** The events of the handler that deals with a disruption. */
  function HandlerEvents<S>(d: Disruption<S>, checkInterval: real): seq<Event>
    requires !d.Undisturbed?
  {
    match d
    case Raises(_, error, recoveryCancelled) =>
      [Raised(error)] + (if recoveryCancelled then [Cancelled] else [Slept(checkInterval)])
    case Cancels(_) => [Cancelled]
  }

  /** A handler speaks nothing and makes no judge call; it sleeps the check
      interval exactly when an exception's recovery sleep is not cancelled. */
  lemma HandlerEffects<S>(d: Disruption<S>, interval: real)
    requires !d.Undisturbed?
    ensures Alerts(HandlerEvents(d, interval)) == []
    ensures JudgeCalls(HandlerEvents(d, interval)) == 0
    ensures Sleeps(HandlerEvents(d, interval)) == if d.Raises? && !d.recoveryCancelled then [interval] else []
  {
    if d.Raises? {
      var rest: seq<Event> := if d.recoveryCancelled then [Cancelled] else [Slept(interval)];
      AlertsAppend([Raised(d.error)], rest);
      JudgeCallsAppend([Raised(d.error)], rest);
      SleepsAppend([Raised(d.error)], rest);
    }
  }

  /** The result of `start`: it returns, or the `CancelledError` propagates. */
  datatype StartOutcome = Returned | CancelledErrorRaised

  /** Whether the loop stops after a pass: `stop` was called during it, or
      the pass did not continue. */
  predicate Halts<S>(d: Disruption<S>, stopCalled: bool)
  {
    stopCalled || EndOf(d) != Continued
  }

  /** The index of the first pass that halts the loop. */
  function FirstHalt(halts: seq<bool>): (k: nat)
    requires true in halts
    ensures k < |halts| && halts[k]
    ensures forall i :: 0 <= i < k ==> !halts[i]
  {
    if halts[0] then 0
    else
      assert true in halts[1..] by {
        var i :| 0 <= i < |halts| && halts[i];
        assert halts[1..][i - 1] == halts[i];
      }
      1 + FirstHalt(halts[1..])
  }
}
