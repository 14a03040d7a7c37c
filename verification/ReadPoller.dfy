/** The read poller of the web client: one read at a time, refreshes during a read coalesce into one
    more read, and nothing happens any more after it is disposed of. */
module ReadPoller {

  datatype Delay = Immediately | AfterInterval

  datatype Call = Value | Failure

  /** What a callback does: it may itself refresh the poller or dispose of it, and it may throw. */
  datatype Reaction = Reaction(refreshes: bool, disposes: bool, throws: bool)

  /** An answer that arrives, in time or late, is followed by a second callback when the first one
      throws and has not disposed of the poller. */
  predicate CalledTwice(ok: bool, first: Reaction) {
    ok && first.throws && !first.disposes
  }

  class Poller {
    var disposed: bool
    var running: bool
    var queued: bool
    // The timer last set; it may have fired or been cleared since.
    var timer: nat
    var aborted: bool

    // What the browser keeps: timers waiting to fire, the time limit of the read, reads in flight.
    var timers: map<nat, Delay>
    var limitArmed: bool
    var inFlight: set<nat>
    var nextId: nat
    var calls: seq<Call>

    /** Before it is disposed of: one read in flight and no timer, or no read and exactly one timer. */
    ghost predicate Live()
      reads this
    {
      !disposed && if running then timers == map[] else timers.Keys == {timer} && !queued
    }

    ghost predicate Valid()
      reads this
    {
      (Live() || (disposed && timers == map[])) && Consistent()
    }

    ghost predicate Consistent()
      reads this
    {
      && (if running then exists r :: inFlight == {r} else inFlight == {})
      && (limitArmed <==> running)
      && (forall t :: t in timers ==> t < nextId) && (forall r :: r in inFlight ==> r < nextId)
    }

    /** Between a timer that has fired and what it does. */
    ghost predicate Fired()
      reads this
    {
      !disposed && !running && !queued && timers == map[] && Consistent()
    }

    constructor ()
      ensures Valid() && Live() && running && !queued && calls == []
    {
      disposed, running, queued, timer, aborted := false, true, false, 0, false;
      timers, limitArmed, inFlight, nextId, calls := map[], true, {0}, 1, [];
    }

    method ClearTimer()
      modifies this`timers
      ensures timers == old(timers) - {timer}
    {
      timers := timers - {timer};
    }

    method SetTimer(delay: Delay)
      modifies this`timers, this`timer, this`nextId
      ensures timer == old(nextId) && timers == old(timers)[timer := delay] && nextId == old(nextId) + 1
    {
      timer := nextId;
      timers := timers[timer := delay];
      nextId := nextId + 1;
    }

    /** Starts a read unless one is in flight, which then leads to one more. */
    method Refresh()
      requires Valid() || Fired()
      modifies this
      ensures Valid() && disposed == old(disposed) && calls == old(calls)
      ensures disposed || old(running) ==>
                inFlight == old(inFlight) && timers == old(timers) && running == old(running) && nextId == old(nextId)
      ensures !disposed && old(running) ==> queued && aborted == old(aborted) && timer == old(timer)
      ensures !disposed && !old(running) ==> Live() && running && !queued && inFlight == {old(nextId)} && !aborted
    {
      if disposed { return; }
      if running { queued := true; return; }
      ClearTimer();
      running := true;
      aborted := false;
      limitArmed := true;
      inFlight := inFlight + {nextId};
      nextId := nextId + 1;
    }

    /** A waiting timer fires: a new read when the page is visible, or the timer again. */
    method TimerFires(t: nat, visible: bool)
      requires Valid() && t in timers
      modifies this
      ensures Valid() && Live() && calls == old(calls)
      ensures old(timers).Keys == {t} && !old(running)
      ensures if visible then running && !queued && inFlight == {old(nextId)} && !aborted
              else !running && timers == map[timer := AfterInterval]
    {
      timers := timers - {t};
      Tick(visible);
    }

    method Tick(visible: bool)
      requires Fired()
      modifies this
      ensures Valid() && Live() && calls == old(calls)
      ensures if visible then running && !queued && inFlight == {old(nextId)} && !aborted
              else !running && timers == map[timer := AfterInterval]
    {
      if visible { Refresh(); } else { SetTimer(AfterInterval); }
    }

    method LimitReached()
      requires Valid() && limitArmed
      modifies this`aborted
      ensures Valid() && aborted
    {
      aborted := true;
    }

    method Dispose()
      requires Valid()
      modifies this
      ensures Valid() && disposed && timers == map[] && calls == old(calls)
      ensures inFlight == old(inFlight) && running == old(running) && (running ==> aborted) && nextId == old(nextId)
    {
      disposed := true;
      ClearTimer();
      aborted := true;
    }

    method CallBack(c: Call, does: Reaction)
      requires Valid() && running && !disposed
      modifies this
      ensures Valid() && running && inFlight == old(inFlight) && calls == old(calls) + [c] && nextId == old(nextId)
      ensures disposed == does.disposes && (!disposed ==> queued == (old(queued) || does.refreshes))
      ensures !disposed ==> timers == map[]
    {
      calls := calls + [c];
      if does.refreshes { Refresh(); }
      if does.disposes { Dispose(); }
    }

    /** The read in flight settles. The value is delivered, or an error when the read failed or its time
        was up; a callback for the value that throws is followed by one for the error. */
    method Settles(ok: bool, first: Reaction, second: Reaction)
      requires Valid() && running
      modifies this
      ensures Valid() && !running && inFlight == {} && !limitArmed && (!disposed ==> nextId == old(nextId) + 1)
      ensures disposed == (old(disposed) || first.disposes || (CalledTwice(ok, first) && second.disposes))
      ensures calls == old(calls) + if old(disposed) then [] else
                [if ok && !old(aborted) then Value else Failure] + if CalledTwice(ok, first) then [Failure] else []
      ensures disposed ==> timers == map[]
      ensures !disposed ==> Live() && timers == map[timer :=
                if old(queued) || first.refreshes || (CalledTwice(ok, first) && second.refreshes)
                then Immediately else AfterInterval]
    {
      if !disposed {
        CallBack(if ok && !aborted then Value else Failure, first);
        if ok && first.throws && !disposed {
          CallBack(Failure, second);
        }
      }
      limitArmed := false;
      running := false;
      inFlight := {};
      if !disposed {
        var delay := if queued then Immediately else AfterInterval;
        queued := false;
        SetTimer(delay);
      }
    }

    /** Any number of refreshes during a read make one more read, at once, and the poller is then as
        after a single refresh. */
    method RefreshesCoalesce(n: nat, ok: bool, first: Reaction, second: Reaction)
      requires Valid() && Live() && running && n > 0
      requires !first.disposes && (CalledTwice(ok, first) ==> !second.disposes)
      modifies this
      ensures Valid() && Live() && running && !queued && inFlight == {old(nextId) + 1} && inFlight !! old(inFlight)
      ensures calls == old(calls) + [if ok && !old(aborted) then Value else Failure]
                       + if CalledTwice(ok, first) then [Failure] else []
    {
      for k := 0 to n
        invariant Valid() && Live() && running && inFlight == old(inFlight) && calls == old(calls)
        invariant nextId == old(nextId) && aborted == old(aborted) && timers == map[]
        invariant k > 0 ==> queued
      {
        Refresh();
      }
      Settles(ok, first, second);
      assert timers[timer] == Immediately;
      TimerFires(timer, true);
    }
  }

  datatype Event =
    | Refreshing
    | Firing(timer: nat, visible: bool)
    | TimeUp
    | Settling(ok: bool, first: Reaction, second: Reaction)
    | Disposing

  /** Whatever happens in whatever order: the poller reads or waits, never both and never neither, until
      it is disposed of; from then on no callback runs and no timer is left. */
  method Drive(p: Poller, events: seq<Event>)
    requires p.Valid()
    modifies p
    ensures p.Valid() && |p.inFlight| <= 1 && |p.timers| <= 1
    ensures old(p.disposed) || Disposing in events ==> p.disposed
    ensures !p.disposed ==> |p.inFlight| + |p.timers| == 1
    ensures old(p.disposed) ==> p.calls == old(p.calls) && p.timers == map[] && p.inFlight <= old(p.inFlight)
    ensures old(p.calls) <= p.calls
  {
    for n := 0 to |events|
      invariant p.Valid()
      invariant old(p.disposed) || Disposing in events[..n] ==> p.disposed
      invariant old(p.disposed) ==> p.calls == old(p.calls) && p.timers == map[] && p.inFlight <= old(p.inFlight)
      invariant old(p.calls) <= p.calls
    {
      match events[n] {
        case Refreshing => p.Refresh();
        case Firing(t, visible) => if t in p.timers { p.TimerFires(t, visible); }
        case TimeUp => if p.limitArmed { p.LimitReached(); }
        case Settling(ok, first, second) => if p.running { p.Settles(ok, first, second); }
        case Disposing => p.Dispose();
      }
    }
    assert events[..|events|] == events;
    assert !p.disposed && !p.running ==> |p.timers.Keys| == 1;
  }
}
