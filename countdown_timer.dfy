/**
 * CountdownTimer of StrikeGame.ts: a 100 ms interval that counts a time
 * budget down, plays a tick on every whole second and tells its player
 * controller `timerDone` once the budget is used up.
 */
module Countdown {
  import opened Events

  const TICK_MSEC := 100

  /** What one tick that leaves `remaining` milliseconds emits. */
  function TickOutputs(remaining: int): (out: seq<Output>)
    ensures Play(TickSfx) in out <==> remaining % 1000 == 0
    ensures Send(PlayerController, TimerDone) in out <==> remaining <= 0
    ensures |out| <= 2
  {
    (if remaining % 1000 == 0 then [Play(TickSfx)] else [])
    + (if remaining <= 0 then [Send(PlayerController, TimerDone)] else [])
  }

  /** Everything a timer started with `remaining` milliseconds emits until its interval is cleared. */
  function RunToDone(remaining: int): seq<Output>
    decreases if remaining > 0 then remaining else 0
  {
    var next := remaining - TICK_MSEC;
    TickOutputs(next) + (if next > 0 then RunToDone(next) else [])
  }

  /** The number of ticks until the interval is cleared. */
  function TicksToDone(remaining: int): nat
    decreases if remaining > 0 then remaining else 0
  {
    if remaining - TICK_MSEC > 0 then 1 + TicksToDone(remaining - TICK_MSEC) else 1
  }

  function Count(out: seq<Output>, o: Output): nat {
    if out == [] then 0 else (if out[0] == o then 1 else 0) + Count(out[1..], o)
  }

  lemma {:induction false} CountAppend(a: seq<Output>, b: seq<Output>, o: Output)
    ensures Count(a + b, o) == Count(a, o) + Count(b, o)
  {
    if a != [] {
      assert (a + b)[1..] == a[1..] + b;
      CountAppend(a[1..], b, o);
    } else {
      assert a + b == b;
    }
  }

  /**
   * A started timer tells its controller `timerDone` exactly once, as the very
   * last thing it emits.
   */
  lemma {:induction false} TimerDoneOnce(remaining: int)
    ensures Count(RunToDone(remaining), Send(PlayerController, TimerDone)) == 1
    ensures RunToDone(remaining)[|RunToDone(remaining)| - 1] == Send(PlayerController, TimerDone)
  {
    var next := remaining - TICK_MSEC;
    var done := Send(PlayerController, TimerDone);
    var first := TickOutputs(next);
    if next > 0 {
      var rest := RunToDone(next);
      assert RunToDone(remaining) == first + rest;
      TimerDoneOnce(next);
      CountAppend(first, rest, done);
      assert Count(first, done) == 0 by {
        if first != [] {
          assert first == [Play(TickSfx)];
        }
      }
      assert (first + rest)[|first + rest| - 1] == rest[|rest| - 1];
    } else {
      assert RunToDone(remaining) == first + [];
      if next % 1000 == 0 {
        assert first == [Play(TickSfx), done];
      } else {
        assert first == [done];
      }
      CountAppend(first, [], done);
    }
  }

  /** With a positive budget, the interval runs ceil(msec / 100) ticks. */
  lemma {:induction false} TicksToDoneIsCeiling(msec: int)
    requires msec > 0
    ensures TicksToDone(msec) == (msec + TICK_MSEC - 1) / TICK_MSEC
  {
    if msec - TICK_MSEC > 0 {
      TicksToDoneIsCeiling(msec - TICK_MSEC);
    }
  }

  /** A run is its first tick's outputs followed by the run from what that tick leaves. */
  lemma TickThenRest(before: seq<Output>, remaining: int)
    ensures var next := remaining - TICK_MSEC;
            && (next > 0 ==> before + RunToDone(remaining) == (before + TickOutputs(next)) + RunToDone(next))
            && (next <= 0 ==> before + RunToDone(remaining) == before + TickOutputs(next))
  {
    var next := remaining - TICK_MSEC;
    if next <= 0 {
      assert RunToDone(remaining) == TickOutputs(next) + [];
    }
  }

  class CountdownTimer {
    var timeRemainingMsec: int
    var wholeSeconds: bool
    /** The tick interval is set (tickInterval holds a live handle). */
    var ticking: bool
    var outbox: seq<Output>

    /** The field initialisers and start(), which stops the timer. */
    constructor ()
      ensures timeRemainingMsec == 0 && !wholeSeconds && !ticking && outbox == []
    {
      timeRemainingMsec, wholeSeconds, ticking, outbox := 0, false, false, [];
    }

    /** startTimer: take the new budget, cancel any running interval and start a new one. */
    method StartTimer(msec: int, wholeSeconds: bool)
      modifies this
      ensures timeRemainingMsec == msec && this.wholeSeconds == wholeSeconds && ticking
      ensures outbox == old(outbox)
    {
      timeRemainingMsec := msec;
      this.wholeSeconds := wholeSeconds;
      ticking := true;
    }

    /** stopTimer: cancel the interval; no `timerDone` is sent. */
    method StopTimer()
      modifies this
      ensures !ticking
      ensures timeRemainingMsec == old(timeRemainingMsec) && wholeSeconds == old(wholeSeconds)
      ensures outbox == old(outbox)
    {
      ticking := false;
    }

    /** onTick: the interval fired. */
    method OnTick()
      requires ticking
      modifies this
      ensures timeRemainingMsec == old(timeRemainingMsec) - TICK_MSEC
      ensures wholeSeconds == old(wholeSeconds)
      ensures ticking <==> timeRemainingMsec > 0
      ensures outbox == old(outbox) + TickOutputs(timeRemainingMsec)
    {
      timeRemainingMsec := timeRemainingMsec - TICK_MSEC;
      if timeRemainingMsec % 1000 == 0 {
        outbox := outbox + [Play(TickSfx)];
      }
      if timeRemainingMsec <= 0 {
        ticking := false;
        outbox := outbox + [Send(PlayerController, TimerDone)];
      }
    }

    /** Every tick of a running interval, until it clears itself. */
    method TickUntilDone() returns (ghost ticks: nat)
      requires ticking
      modifies this
      ensures !ticking && timeRemainingMsec <= 0
      ensures outbox == old(outbox) + RunToDone(old(timeRemainingMsec))
      ensures ticks == TicksToDone(old(timeRemainingMsec))
    {
      ticks := 0;
      while ticking
        invariant ticking ==> old(outbox) + RunToDone(old(timeRemainingMsec)) == outbox + RunToDone(timeRemainingMsec)
        invariant !ticking ==> outbox == old(outbox) + RunToDone(old(timeRemainingMsec)) && timeRemainingMsec <= 0
        invariant ticking ==> ticks + TicksToDone(timeRemainingMsec) == TicksToDone(old(timeRemainingMsec))
        invariant !ticking ==> ticks == TicksToDone(old(timeRemainingMsec))
        decreases if !ticking then 0 else if timeRemainingMsec > 0 then timeRemainingMsec + 1 else 1
      {
        ghost var before := outbox;
        ghost var remaining := timeRemainingMsec;
        OnTick();
        ticks := ticks + 1;
        TickThenRest(before, remaining);
      }
    }

    /**
     * startTimer followed by every tick of its interval, with no stop in
     * between: `timerDone` arrives exactly once, last.
     */
    method RunToCompletion(msec: int, wholeSeconds: bool) returns (ghost ticks: nat)
      modifies this
      ensures !ticking && timeRemainingMsec <= 0
      ensures outbox == old(outbox) + RunToDone(msec)
      ensures Count(outbox[|old(outbox)|..], Send(PlayerController, TimerDone)) == 1
      ensures outbox[|outbox| - 1] == Send(PlayerController, TimerDone)
      ensures ticks == if msec > 0 then (msec + TICK_MSEC - 1) / TICK_MSEC else 1
    {
      StartTimer(msec, wholeSeconds);
      ticks := TickUntilDone();
      assert outbox[|old(outbox)|..] == RunToDone(msec);
      TimerDoneOnce(msec);
      if msec > 0 {
        TicksToDoneIsCeiling(msec);
      }
    }
  }
}
