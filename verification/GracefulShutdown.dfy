/**
 * Graceful (internal/infra/shutdown/graceful.go, lines 25-90): components running
 * concurrently, a wait group, a buffered error channel that is filled, closed and drained,
 * signals and the fade-out timer -- in every schedule.
 */
module GracefulShutdown {

  /**
   * A component: still in its function; returned an error other than cancellation and about
   * to send it; past the send, about to call Done; or done.
   */
  datatype Component = Running | Failing | Exiting(failed: bool) | Finished(failed: bool)

  /** The goroutine of line 68. */
  datatype Waiter = Waiting | ClosedDone | ClosedBoth

  /** The caller: in the first select, in the inner one, draining, or returned. */
  datatype Caller = FirstSelect | FadingOut | Draining | Returned

  /**
   * `channel` is the buffered error channel, whose capacity is the number of components;
   * errors are named by the component they come from. `cancelled` is the run context.
   */
  datatype State = State(
    components: seq<Component>, channel: seq<nat>, waiter: Waiter, caller: Caller, errs: seq<nat>,
    cancelled: bool, panicked: bool)

  datatype Event =
    | Return(i: nat, failed: bool)   // a component's function returns; `failed` excludes cancellation
    | Send(i: nat)                   // it sends its error
    | CallDone(i: nat)               // its deferred wg.Done
    | CloseDone                      // wg.Wait returns, done is closed
    | CloseErrs                      // errsCh is closed
    | Cancel                         // a signal, or the parent context
    | SeeDone                        // either select receives from done
    | SeeCancel                      // the first select receives from the context
    | FadeOut                        // the inner select's timer fires
    | Receive                        // the drain takes one error
    | SeeClosed                      // the drain finds the channel closed and empty

  function Start(n: nat): State { State(seq(n, _ => Running), [], Waiting, FirstSelect, [], false, false) }

  predicate AllFinished(cs: seq<Component>) { forall i :: 0 <= i < |cs| ==> cs[i].Finished? }

  /** Whether the scheduler can take the event now. A send waits while the channel is full. */
  predicate Enabled(s: State, e: Event) {
    match e
    case Return(i, _) => i < |s.components| && s.components[i].Running?
    case Send(i) => i < |s.components| && s.components[i].Failing? && (|s.channel| < |s.components| || s.waiter.ClosedBoth?)
    case CallDone(i) => i < |s.components| && s.components[i].Exiting?
    case CloseDone => s.waiter.Waiting? && AllFinished(s.components)
    case CloseErrs => s.waiter.ClosedDone?
    case Cancel => true
    case SeeDone => (s.caller.FirstSelect? || s.caller.FadingOut?) && !s.waiter.Waiting?
    case SeeCancel => s.caller.FirstSelect? && s.cancelled
    case FadeOut => s.caller.FadingOut?
    case Receive => s.caller.Draining? && s.channel != []
    case SeeClosed => s.caller.Draining? && s.channel == [] && s.waiter.ClosedBoth?
  }

  function Step(s: State, e: Event): State
    requires Enabled(s, e)
  {
    match e
    case Return(i, failed) => s.(components := s.components[i := if failed then Failing else Exiting(false)])
    case Send(i) =>
      if s.waiter.ClosedBoth? then s.(panicked := true)
      else s.(components := s.components[i := Exiting(true)], channel := s.channel + [i])
    case CallDone(i) => s.(components := s.components[i := Finished(s.components[i].failed)])
    case CloseDone => s.(waiter := ClosedDone)
    case CloseErrs => s.(waiter := ClosedBoth)
    case Cancel => s.(cancelled := true)
    case SeeDone => s.(caller := Draining)
    case SeeCancel => s.(caller := FadingOut)
    case FadeOut => s.(caller := Draining)
    case Receive => s.(errs := s.errs + [s.channel[0]], channel := s.channel[1..])
    case SeeClosed => s.(caller := Returned)
  }

  /** `s` is reached by some schedule of the events. */
  ghost predicate Reached(n: nat, s: State, events: seq<Event>)
    decreases |events|
  {
    if events == [] then s == Start(n)
    else
      var before, e := events[..|events| - 1], events[|events| - 1];
      exists p :: Reached(n, p, before) && Enabled(p, e) && s == Step(p, e)
  }

  // ---- what every schedule keeps --------------------------------------------------------

  /** Its error is in the channel or with the caller. */
  predicate HasSent(c: Component) { (c.Exiting? || c.Finished?) && c.failed }

  predicate Distinct(xs: seq<nat>) { forall i, j :: 0 <= i < j < |xs| ==> xs[i] != xs[j] }

  predicate Kept(s: State) {
    && !s.panicked
    && Distinct(s.errs + s.channel)
    && (forall i :: 0 <= i < |s.components| ==> (HasSent(s.components[i]) <==> i in s.errs + s.channel))
    && (forall i :: i in s.errs + s.channel ==> i < |s.components|)
    && (!s.waiter.Waiting? ==> AllFinished(s.components))
    && (s.caller.Returned? ==> s.waiter.ClosedBoth? && s.channel == [])
  }

  lemma {:induction false} DistinctFit(xs: seq<nat>, n: nat)
    requires Distinct(xs) && forall x :: x in xs ==> x < n
    ensures |xs| <= n
    decreases n
  {
    if xs == [] {
      return;
    }
    assert xs[0] in xs;
    if n - 1 in xs {
      var k :| 0 <= k < |xs| && xs[k] == n - 1;
      var rest := xs[..k] + xs[k + 1..];
      assert forall i :: 0 <= i < |rest| ==> rest[i] == if i < k then xs[i] else xs[i + 1];
      forall x | x in rest
        ensures x < n - 1
      {
        var i :| 0 <= i < |rest| && rest[i] == x;
        assert x in xs && x != xs[k];
      }
      DistinctFit(rest, n - 1);
    } else {
      DistinctFit(xs, n - 1);
    }
  }

  /** A component about to send always finds room in an open channel. */
  lemma SendNeverWaits(s: State, i: nat)
    requires Kept(s) && i < |s.components| && s.components[i].Failing?
    ensures !s.waiter.ClosedBoth? && |s.channel| < |s.components|
  {
    var sent := s.errs + s.channel;
    assert i !in sent;
    var more := s.channel + [i];
    forall a, b | 0 <= a < b < |more|
      ensures more[a] != more[b]
    {
      assert sent[|s.errs| + a] == s.channel[a];
      if b < |s.channel| {
        assert sent[|s.errs| + b] == s.channel[b];
      }
    }
    forall x | x in more
      ensures x < |s.components|
    {
      if x in s.channel {
        assert x in sent;
      }
    }
    DistinctFit(more, |s.components|);
  }

  lemma KeptStep(s: State, e: Event)
    requires Kept(s) && Enabled(s, e)
    ensures Kept(Step(s, e)) && |Step(s, e).components| == |s.components|
  {
    match e
    case Send(i) =>
      SendNeverWaits(s, i);
      assert s.errs + (s.channel + [i]) == (s.errs + s.channel) + [i];
    case Receive =>
      assert (s.errs + [s.channel[0]]) + s.channel[1..] == s.errs + s.channel;
    case _ =>
  }

  lemma KeptAtStart(n: nat)
    ensures Kept(Start(n))
  {
  }

  lemma {:induction false} EveryScheduleKeeps(n: nat, s: State, events: seq<Event>)
    requires Reached(n, s, events)
    ensures Kept(s) && |s.components| == n
    decreases |events|
  {
    hide Kept, Step, Enabled;
    if events == [] {
      KeptAtStart(n);
    } else {
      var before, e := events[..|events| - 1], events[|events| - 1];
      var p :| Reached(n, p, before) && Enabled(p, e) && s == Step(p, e);
      EveryScheduleKeeps(n, p, before);
      KeptStep(p, e);
    }
  }

  /**
   * In every schedule: no send meets a closed or a full channel; and when Graceful returns,
   * every component has returned and each non-cancelled error is reported exactly once.
   */
  lemma ShutdownIsClean(n: nat, s: State, events: seq<Event>)
    requires Reached(n, s, events)
    ensures !s.panicked && |s.components| == n
    ensures forall i :: 0 <= i < n && s.components[i].Failing? ==> Enabled(s, Send(i)) && !s.waiter.ClosedBoth?
    ensures s.caller.Returned? ==>
      && AllFinished(s.components) && Distinct(s.errs)
      && forall i: nat :: i in s.errs <==> i < n && HasSent(s.components[i])
  {
    EveryScheduleKeeps(n, s, events);
    forall i | 0 <= i < n && s.components[i].Failing?
      ensures Enabled(s, Send(i)) && !s.waiter.ClosedBoth?
    {
      SendNeverWaits(s, i);
    }
    if s.caller.Returned? {
      assert s.errs + s.channel == s.errs;
    }
  }

  /** A component remembers how its function returned. */
  predicate Remembers(c: Component, i: nat, events: seq<Event>) {
    && (Return(i, true) in events <==> c.Failing? || HasSent(c))
    && (Return(i, false) in events <==> (c.Exiting? || c.Finished?) && !c.failed)
  }

  lemma RemembersStep(p: State, e: Event, i: nat, before: seq<Event>)
    requires Kept(p) && Enabled(p, e) && i < |p.components| && Remembers(p.components[i], i, before)
    ensures |Step(p, e).components| == |p.components| && Remembers(Step(p, e).components[i], i, before + [e])
  {
    if e.Send? {
      SendNeverWaits(p, e.i);
    }
    hide Kept;
    forall x
      ensures x in before + [e] <==> x in before || x == e
    {
    }
  }

  lemma {:induction false} EveryReturnIsRemembered(n: nat, s: State, events: seq<Event>)
    requires Reached(n, s, events)
    ensures |s.components| == n && forall i: nat :: i < n ==> Remembers(s.components[i], i, events)
    decreases |events|
  {
    if events != [] {
      hide Kept, Step, Enabled, Remembers;
      var before, e := events[..|events| - 1], events[|events| - 1];
      var p :| Reached(n, p, before) && Enabled(p, e) && s == Step(p, e);
      assert events == before + [e];
      EveryReturnIsRemembered(n, p, before);
      EveryScheduleKeeps(n, p, before);
      EveryScheduleKeeps(n, s, events);
      forall i: nat | i < n
        ensures Remembers(s.components[i], i, events)
      {
        RemembersStep(p, e, i, before);
      }
    }
  }

  /**
   * When Graceful returns, every component's function has returned, and the errors it reports
   * are, each once, exactly those of the functions that returned one other than cancellation.
   */
  lemma ErrorsAreReturns(n: nat, s: State, events: seq<Event>)
    requires Reached(n, s, events) && s.caller.Returned?
    ensures forall i: nat :: i in s.errs <==> i < n && Return(i, true) in events
    ensures forall i: nat :: i < n ==> Return(i, true) in events || Return(i, false) in events
    ensures Distinct(s.errs)
  {
    ShutdownIsClean(n, s, events);
    EveryReturnIsRemembered(n, s, events);
    forall i: nat | i < n
      ensures s.components[i].Finished? && Remembers(s.components[i], i, events)
    {
    }
  }

  /**
   * The fade-out bounds nothing: while one component has not returned, Graceful does not
   * return, however often the timer has fired. Its documentation promises to wait only up to
   * the fade-out.
   */
  lemma FadeOutDoesNotRelease(n: nat, s: State, events: seq<Event>, i: nat)
    requires Reached(n, s, events) && i < |s.components| && s.components[i].Running?
    ensures !s.caller.Returned?
  {
    ShutdownIsClean(n, s, events);
  }

  lemma ReachedStart(n: nat)
    ensures Reached(n, Start(n), [])
  {
  }

  lemma ReachedNext(n: nat, p: State, before: seq<Event>, e: Event)
    requires Reached(n, p, before) && Enabled(p, e)
    ensures Reached(n, Step(p, e), before + [e])
  {
    hide Enabled, Step;
    var events := before + [e];
    assert events[..|events| - 1] == before && events[|events| - 1] == e;
  }

  /** A schedule in which the fade-out has elapsed and the caller waits on a component still running. */
  lemma StuckAfterFadeOut(n: nat) returns (s: State, events: seq<Event>)
    requires n >= 1
    ensures Reached(n, s, events) && s.caller.Draining? && FadeOut in events
    ensures |s.components| == n && s.components[0].Running?
    ensures forall e :: Enabled(s, e) ==> e.Return? || e.Cancel?
  {
    hide Reached;
    var s0 := Start(n);
    ReachedStart(n);
    ReachedNext(n, s0, [], Cancel);
    var s1 := Step(s0, Cancel);
    ReachedNext(n, s1, [] + [Cancel], SeeCancel);
    var s2 := Step(s1, SeeCancel);
    ReachedNext(n, s2, ([] + [Cancel]) + [SeeCancel], FadeOut);
    s, events := Step(s2, FadeOut), (([] + [Cancel]) + [SeeCancel]) + [FadeOut];
    assert events[2] == FadeOut;
  }

  // ---- the shutdown completes -------------------------------------------------------------

  function Work(c: Component): nat {
    match c
    case Running => 4
    case Failing => 3
    case Exiting(_) => 1
    case Finished(_) => 0
  }

  function TotalWork(cs: seq<Component>): nat {
    if cs == [] then 0 else TotalWork(cs[..|cs| - 1]) + Work(cs[|cs| - 1])
  }

  /** What is left to do before Graceful returns. */
  function Remaining(s: State): nat {
    TotalWork(s.components) + |s.channel|
      + (match s.waiter case Waiting => 2 case ClosedDone => 1 case ClosedBoth => 0)
      + (match s.caller case FirstSelect => 3 case FadingOut => 2 case Draining => 1 case Returned => 0)
  }

  lemma {:induction false} WorkUpdate(cs: seq<Component>, i: nat, c: Component)
    requires i < |cs|
    ensures TotalWork(cs[i := c]) == TotalWork(cs) - Work(cs[i]) + Work(c)
    decreases |cs|
  {
    var front := cs[..|cs| - 1];
    if i < |front| {
      WorkUpdate(front, i, c);
      assert cs[i := c][..|cs| - 1] == front[i := c];
    } else {
      assert cs[i := c][..|cs| - 1] == front;
    }
  }

  /** Every event but a cancellation brings the shutdown closer to its end. */
  lemma EveryEventHelps(s: State, e: Event)
    requires Kept(s) && Enabled(s, e) && !e.Cancel?
    ensures Remaining(Step(s, e)) < Remaining(s)
  {
    hide TotalWork, Kept;
    match e
    case Return(i, failed) => WorkUpdate(s.components, i, if failed then Failing else Exiting(false));
    case Send(i) =>
      SendNeverWaits(s, i);
      WorkUpdate(s.components, i, Exiting(true));
    case CallDone(i) => WorkUpdate(s.components, i, Finished(s.components[i].failed));
    case _ =>
  }

  /** Once the components have returned from their functions nothing can hang: some step is always enabled. */
  lemma NeverStuck(s: State) returns (e: Event)
    requires Kept(s) && !s.caller.Returned?
    requires forall i :: 0 <= i < |s.components| ==> !s.components[i].Running?
    ensures Enabled(s, e) && !e.Cancel?
  {
    if i :| 0 <= i < |s.components| && s.components[i].Failing? {
      SendNeverWaits(s, i);
      return Send(i);
    }
    if i :| 0 <= i < |s.components| && s.components[i].Exiting? {
      return CallDone(i);
    }
    if s.waiter.Waiting? {
      return CloseDone;
    }
    if s.waiter.ClosedDone? {
      return CloseErrs;
    }
    if s.caller.Draining? {
      return if s.channel != [] then Receive else SeeClosed;
    }
    return SeeDone;
  }

  /** The schedule `events` leads from `s` to `t`. */
  predicate Leads(s: State, events: seq<Event>, t: State)
    decreases |events|
  {
    if events == [] then s == t else Enabled(s, events[0]) && Leads(Step(s, events[0]), events[1..], t)
  }

  /** The events that are not cancellations. */
  function Helpful(events: seq<Event>): nat {
    if events == [] then 0 else (if events[0].Cancel? then 0 else 1) + Helpful(events[1..])
  }

  predicate NoneRunning(s: State) { forall i :: 0 <= i < |s.components| ==> !s.components[i].Running? }

  lemma CancelKeepsWork(s: State)
    ensures Remaining(Step(s, Cancel)) == Remaining(s)
  {
  }

  lemma {:induction false} ScheduleHelps(s: State, events: seq<Event>, t: State)
    requires Kept(s) && NoneRunning(s) && Leads(s, events, t)
    ensures Helpful(events) + Remaining(t) <= Remaining(s) && Kept(t) && NoneRunning(t)
    decreases |events|
  {
    hide Kept, Remaining, Enabled;
    if events != [] {
      var e := events[0];
      KeptStep(s, e);
      if e.Cancel? {
        CancelKeepsWork(s);
      } else {
        EveryEventHelps(s, e);
      }
      NoneStarts(s, e);
      ScheduleHelps(Step(s, e), events[1..], t);
    }
  }

  lemma NoneStarts(s: State, e: Event)
    requires Enabled(s, e) && NoneRunning(s)
    ensures NoneRunning(Step(s, e))
  {
  }

  lemma {:induction false} NoWorkLeft(cs: seq<Component>)
    ensures TotalWork(cs) == 0 <==> AllFinished(cs)
    decreases |cs|
  {
    if cs != [] {
      NoWorkLeft(cs[..|cs| - 1]);
      assert AllFinished(cs) <==> AllFinished(cs[..|cs| - 1]) && cs[|cs| - 1].Finished?;
    }
  }

  /** Graceful has returned exactly when nothing is left to do. */
  lemma ReturnedMeansDone(s: State)
    requires Kept(s)
    ensures s.caller.Returned? <==> Remaining(s) == 0
  {
    hide TotalWork, AllFinished, Distinct, HasSent;
    NoWorkLeft(s.components);
  }

  /**
   * From every reached state in which the components' functions have returned, Graceful returns
   * within `Remaining(s)` events other than cancellations, whatever the schedule: none can take
   * more, none can get stuck before, and while a function still runs it has not returned.
   */
  lemma ShutdownCompletes(n: nat, s: State, before: seq<Event>, events: seq<Event>, t: State)
    requires Reached(n, s, before) && Leads(s, events, t)
    ensures !NoneRunning(s) ==> !s.caller.Returned?
    ensures NoneRunning(s) ==> Helpful(events) + Remaining(t) <= Remaining(s)
    ensures NoneRunning(s) ==> (t.caller.Returned? <==> Remaining(t) == 0)
    ensures NoneRunning(s) && !t.caller.Returned? ==> exists e :: Enabled(t, e) && !e.Cancel?
  {
    hide Kept, Remaining, Enabled, Reached, Leads, Step;
    EveryScheduleKeeps(n, s, before);
    if NoneRunning(s) {
      ScheduleHelps(s, events, t);
      ReturnedMeansDone(t);
      if !t.caller.Returned? {
        var e := NeverStuck(t);
      }
    } else {
      var i :| 0 <= i < |s.components| && s.components[i].Running?;
      FadeOutDoesNotRelease(n, s, before, i);
    }
  }
}
