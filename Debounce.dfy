/** `debounce(func, waitFor)`: a trailing-edge debouncer with a single timer
    slot, over an abstract millisecond clock. Each call clears the pending
    timer and starts a new one; a clock tick at or after the deadline runs
    `func` with the arguments of the call that started the timer. */
module Debounce {
  import opened Wrappers

  /** Node runs a timer whose delay is below 1 ms or above 2^31 - 1 ms after 1 ms. */
  const TimeoutMax: int := 0x7FFF_FFFF

  function EffectiveDelay(waitFor: int): (d: int)
    ensures 1 <= d <= TimeoutMax
    ensures 1 <= waitFor <= TimeoutMax ==> d == waitFor
    ensures !(1 <= waitFor <= TimeoutMax) ==> d == 1
  {
    if 1 <= waitFor <= TimeoutMax then waitFor else 1
  }

  datatype Pending<A> = Pending(deadline: int, args: A)

  /** The debouncer's state: the one pending timer, if any, and the
      arguments of every invocation of `func` so far. */
  datatype Timer<A> = Timer(pending: Option<Pending<A>>, invoked: seq<A>)

  /** The wrapper: `clearTimeout`, then `setTimeout`. */
  function OnCall<A>(t: Timer<A>, waitFor: int, now: int, args: A): (t': Timer<A>) {
    t.(pending := Some(Pending(now + EffectiveDelay(waitFor), args)))
  }

  /** The clock reaching `now`: a due timer fires once and is gone. */
  function OnTick<A>(t: Timer<A>, now: int): (t': Timer<A>) {
    match t.pending
    case Some(p) => if p.deadline <= now then Timer(None, t.invoked + [p.args]) else t
    case None => t
  }

  datatype Event<A> = Call(at: int, args: A) | Tick(at: int)

  function Step<A>(t: Timer<A>, waitFor: int, e: Event<A>): (t': Timer<A>) {
    match e
    case Call(now, args) => OnCall(t, waitFor, now, args)
    case Tick(now) => OnTick(t, now)
  }

  /** The state after a sequence of events, taken in order. */
  function Run<A>(t: Timer<A>, waitFor: int, events: seq<Event<A>>): (t': Timer<A>)
    decreases |events|
  {
    if events == [] then t
    else Step(Run(t, waitFor, events[..|events| - 1]), waitFor, events[|events| - 1])
  }

  /** The latest call among the events, if any. */
  function LastCall<A>(events: seq<Event<A>>): (r: Option<Event<A>>)
    ensures r.Some? ==> r.value.Call?
    decreases |events|
  {
    if events == [] then None
    else if events[|events| - 1].Call? then Some(events[|events| - 1])
    else LastCall(events[..|events| - 1])
  }

  /** A burst: it opens with a call, and every later event, call or tick,
      comes less than the delay after the latest call before it. */
  ghost predicate Burst<A>(waitFor: int, events: seq<Event<A>>) {
    && |events| > 0 && events[0].Call?
    && forall k | 1 <= k < |events| ::
         LastCall(events[..k]).Some? && events[k].at < LastCall(events[..k]).value.at + EffectiveDelay(waitFor)
  }

  /** Each call cancels whatever was pending and never runs `func` itself. */
  lemma CallCancelsPending<A>(t: Timer<A>, waitFor: int, now: int, args: A)
    ensures OnCall(t, waitFor, now, args).invoked == t.invoked
    ensures OnCall(t, waitFor, now, args).pending == Some(Pending(now + EffectiveDelay(waitFor), args))
  {
  }

  /** During a burst nothing runs, and afterwards exactly one invocation is
      pending: the latest call's arguments, due the delay after that call. */
  lemma {:induction false} BurstDefers<A>(t: Timer<A>, waitFor: int, events: seq<Event<A>>)
    requires Burst(waitFor, events)
    ensures LastCall(events).Some?
    ensures Run(t, waitFor, events).invoked == t.invoked
    ensures Run(t, waitFor, events).pending ==
              Some(Pending(LastCall(events).value.at + EffectiveDelay(waitFor), LastCall(events).value.args))
  {
    var n := |events|;
    var prefix := events[..n - 1];
    if n == 1 {
      assert prefix == [];
    } else {
      assert Burst(waitFor, prefix) by {
        forall k | 1 <= k < |prefix|
          ensures LastCall(prefix[..k]).Some? &&
                  prefix[k].at < LastCall(prefix[..k]).value.at + EffectiveDelay(waitFor)
        {
          assert prefix[..k] == events[..k];
        }
      }
      BurstDefers(t, waitFor, prefix);
      assert events[..n - 1] == prefix;
    }
  }

  /** A burst followed by a tick at or after the latest call plus the delay
      runs `func` exactly once, with the latest call's arguments, and leaves
      nothing pending. */
  lemma BurstFiresOnce<A>(t: Timer<A>, waitFor: int, events: seq<Event<A>>, now: int)
    requires Burst(waitFor, events)
    requires LastCall(events).Some? && now >= LastCall(events).value.at + EffectiveDelay(waitFor)
    ensures Run(t, waitFor, events + [Tick(now)]) ==
              Timer(None, t.invoked + [LastCall(events).value.args])
  {
    BurstDefers(t, waitFor, events);
    assert (events + [Tick(now)])[..|events|] == events;
  }

  /** Once nothing is pending, ticks alone never run `func` again. */
  lemma {:induction false} IdleTicksDoNothing<A>(t: Timer<A>, waitFor: int, events: seq<Event<A>>)
    requires t.pending.None?
    requires forall k | 0 <= k < |events| :: events[k].Tick?
    ensures Run(t, waitFor, events) == t
    decreases |events|
  {
    if events != [] {
      IdleTicksDoNothing(t, waitFor, events[..|events| - 1]);
    }
  }

  /** The debounced wrapper, with its captured timer. */
  class Debouncer<A> {
    const waitFor: int
    var pending: Option<Pending<A>>
    var invoked: seq<A>

    function State(): (t: Timer<A>)
      reads this
    {
      Timer(pending, invoked)
    }

    constructor (waitFor: int)
      ensures this.waitFor == waitFor && State() == Timer(None, [])
    {
      this.waitFor := waitFor;
      pending := None;
      invoked := [];
    }

    /** The wrapper returned by `debounce`; it returns nothing. */
    method Call(now: int, args: A)
      modifies this
      ensures State() == OnCall(old(State()), waitFor, now, args)
    {
      pending := Some(Pending(now + EffectiveDelay(waitFor), args));
    }

    /** The clock reaching `now`; `fired` holds the arguments `func` ran with. */
    method Tick(now: int) returns (fired: Option<A>)
      modifies this
      ensures State() == OnTick(old(State()), now)
      ensures fired.Some? <==> |invoked| == |old(invoked)| + 1
      ensures fired.Some? ==> old(pending).Some? && fired.value == old(pending).value.args
    {
      fired := None;
      if pending.Some? && pending.value.deadline <= now {
        fired := Some(pending.value.args);
        invoked := invoked + [pending.value.args];
        pending := None;
      }
    }
  }
}
