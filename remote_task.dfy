/**
 * RemoteTask: a single-assignment completion slot with a timeout timer.
 * Completing with a result, completing with an exception and the timer
 * firing are three atomic steps (the source runs each under one lock); only
 * the first one to run settles the slot.
 */
module Utils {
  import opened Common

  /** The terminal state a completion source is set to. */
  datatype Completion<T> = Resolved(value: T) | Faulted(error: Exception)

  datatype Slot<T> = Pending | Settled(outcome: Completion<T>)

  /**
   * The three things that can happen to a remote task. `TimerElapsed` carries
   * what the timeout callback returns when it is called (None for null).
   */
  datatype Event<T> = ResultArrived(value: T) | ExceptionArrived(error: Exception) | TimerElapsed(callback: Option<Exception>)

  /** The smallest timer interval, in milliseconds. */
  const MinIntervalMs: int := 5

  /** The timer interval for a requested timeout: the timeout, but never less than 5 ms. */
  function TimerInterval(timeoutMs: int): (r: int)
    ensures r >= MinIntervalMs && r >= timeoutMs
    ensures r == MinIntervalMs || r == timeoutMs
  {
    if timeoutMs < MinIntervalMs then MinIntervalMs else timeoutMs
  }

  /** The constructor's checks, in order: a negative timeout, a null callback, a null completion source. */
  function ConstructorError(timeoutMs: int, hasCallback: bool, hasSource: bool): (r: Option<Exception>)
    ensures r.None? <==> timeoutMs >= 0 && hasCallback && hasSource
    ensures timeoutMs < 0 ==> r == Some(Argument)
    ensures timeoutMs >= 0 && !(hasCallback && hasSource) ==> r == Some(ArgumentNull)
  {
    var present := [hasCallback, hasSource];
    assert present[0] == hasCallback && present[1] == hasSource;
    if timeoutMs < 0 then Some(Argument) else NullCheck(present)
  }

  /** The completion an event sets when it finds the slot pending. */
  function OutcomeOf<T>(e: Event<T>): (c: Completion<T>)
    ensures e.ResultArrived? <==> c.Resolved?
    ensures e.ResultArrived? ==> c.value == e.value
    ensures e.ExceptionArrived? ==> c == Faulted(e.error)
    ensures e.TimerElapsed? ==> c == Faulted(if e.callback.Some? then e.callback.value else Timeout)
  {
    match e
    case ResultArrived(v) => Resolved(v)
    case ExceptionArrived(x) => Faulted(x)
    case TimerElapsed(cb) => Faulted(if cb.Some? then cb.value else Timeout)
  }

  /** One atomic step: a pending slot is settled by the event, a settled one ignores it. */
  function Step<T>(s: Slot<T>, e: Event<T>): Slot<T>
  {
    if s.Pending? then Settled(OutcomeOf(e)) else s
  }

  /** The slot after the events happen in the given order. */
  function Run<T>(s: Slot<T>, events: seq<Event<T>>): Slot<T>
    decreases |events|
  {
    if events == [] then s else Run(Step(s, events[0]), events[1..])
  }

  /** A settled slot stays settled, with the same outcome, whatever happens afterwards. */
  lemma {:induction false} SettledIsFinal<T>(c: Completion<T>, events: seq<Event<T>>)
    ensures Run(Settled(c), events) == Settled(c)
    decreases |events|
  {
    if events != [] {
      SettledIsFinal(c, events[1..]);
    }
  }

  /**
   * Exactly one terminal outcome: over any interleaving of completions and
   * timer firings, the slot ends settled by the first event, and stays
   * pending only if nothing happened.
   */
  lemma {:induction false} FirstEventWins<T>(events: seq<Event<T>>)
    ensures Run(Pending, events) == if events == [] then Pending else Settled(OutcomeOf(events[0]))
  {
    if events != [] {
      SettledIsFinal(OutcomeOf(events[0]), events[1..]);
    }
  }

  class RemoteTask<T> {
    /** The completion source and the timer are still held: neither has been released. */
    var pending: bool
    /** The timer interval in milliseconds. */
    const intervalMs: int
    /** The TrySetResult / TrySetException calls made on the completion source. */
    var settlements: seq<Completion<T>>
    /** The number of times the timeout callback has been invoked. */
    var callbackCalls: nat

    /** The completion source is set at most once, and exactly when the slot is no longer pending. */
    ghost predicate Valid()
      reads this
    {
      |settlements| <= 1 && (pending <==> settlements == []) && callbackCalls <= |settlements|
    }

    ghost function State(): Slot<T>
      reads this
      requires Valid()
    {
      if pending then Pending else Settled(settlements[0])
    }

    constructor (timeoutMs: int)
      requires timeoutMs >= 0
      ensures Valid() && State() == Pending && intervalMs == TimerInterval(timeoutMs)
      ensures settlements == [] && callbackCalls == 0
    {
      pending, intervalMs, settlements, callbackCalls := true, TimerInterval(timeoutMs), [], 0;
    }

    /** The constructor with its argument checks; a successful one arms the timer. */
    static method Create(timeoutMs: int, hasCallback: bool, hasSource: bool) returns (r: Result<RemoteTask<T>>)
      ensures r.Err? <==> ConstructorError(timeoutMs, hasCallback, hasSource).Some?
      ensures r.Err? ==> r.error == ConstructorError(timeoutMs, hasCallback, hasSource).value
      ensures r.Ok? ==> fresh(r.value) && r.value.Valid() && r.value.State() == Pending
                        && r.value.intervalMs == TimerInterval(timeoutMs) && r.value.settlements == []
    {
      var e := ConstructorError(timeoutMs, hasCallback, hasSource);
      if e.Some? {
        return Err(e.value);
      }
      var t := new RemoteTask(timeoutMs);
      return Ok(t);
    }

    method CompleteWithResult(result: T)
      requires Valid()
      modifies this
      ensures Valid() && State() == Step(old(State()), ResultArrived(result))
      ensures settlements == if old(pending) then [Resolved(result)] else old(settlements)
      ensures callbackCalls == old(callbackCalls)
    {
      if !pending {
        return;
      }
      settlements := settlements + [Resolved(result)];
      pending := false;
    }

    method CompleteWithException(ex: Exception)
      requires Valid()
      modifies this
      ensures Valid() && State() == Step(old(State()), ExceptionArrived(ex))
      ensures settlements == if old(pending) then [Faulted(ex)] else old(settlements)
      ensures callbackCalls == old(callbackCalls)
    {
      if !pending {
        return;
      }
      settlements := settlements + [Faulted(ex)];
      pending := false;
    }

    /**
     * The timer's Elapsed handler. `callbackResult` is what the timeout
     * callback returns if it is called; it is called only on a pending task.
     */
    method OnTimerElapsed(callbackResult: Option<Exception>)
      requires Valid()
      modifies this
      ensures Valid() && State() == Step(old(State()), TimerElapsed(callbackResult))
      ensures settlements == if old(pending) then [OutcomeOf(TimerElapsed(callbackResult))] else old(settlements)
      ensures callbackCalls == if old(pending) then old(callbackCalls) + 1 else old(callbackCalls)
    {
      if !pending {
        return;
      }
      callbackCalls := callbackCalls + 1;
      var ex := if callbackResult.Some? then callbackResult.value else Timeout;
      settlements := settlements + [Faulted(ex)];
      pending := false;
    }
  }

  /** Applies a sequence of events to a remote task, one atomic method call per event. */
  method Drive<T>(task: RemoteTask<T>, events: seq<Event<T>>)
    requires task.Valid()
    modifies task
    ensures task.Valid() && task.State() == Run(old(task.State()), events)
  {
    var i := 0;
    while i < |events|
      invariant 0 <= i <= |events|
      invariant task.Valid() && Run(old(task.State()), events) == Run(task.State(), events[i..])
    {
      ghost var s := task.State();
      match events[i] {
        case ResultArrived(v) => task.CompleteWithResult(v);
        case ExceptionArrived(x) => task.CompleteWithException(x);
        case TimerElapsed(cb) => task.OnTimerElapsed(cb);
      }
      assert events[i..][1..] == events[i + 1..];
      i := i + 1;
    }
  }

  /** A result arriving after the timer fired changes nothing: the task stays faulted with a timeout. */
  method TimeoutThenResult(v: int) returns (settlements: seq<Completion<int>>)
    ensures settlements == [Faulted(Timeout)]
  {
    var t := new RemoteTask<int>(10);
    t.OnTimerElapsed(None);
    t.CompleteWithResult(v);
    t.CompleteWithException(Raised(0));
    settlements := t.settlements;
  }
}
