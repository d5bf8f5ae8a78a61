/** What brings a call to its end: word that its channel or its media channel is gone, or the deferred cleanup. */
module CallEndings {
  import opened Basics
  import opened CallSignals
  import opened CallMachine
  import opened CallSafety
  import opened CallLosses
  import opened CallTheorems
  import C = CallClaims

  /** The call's own events in order of arrival, so that event `n` is the one with fate `n`. */
  function Arrived(moves: seq<Move>): seq<Event> {
    if moves == [] then []
    else
      var before, last := moves[..|moves| - 1], moves[|moves| - 1];
      Arrived(before) + Newly(Run(before), last)
  }

  function Newly(w: World, move: Move): seq<Event> {
    if move.EventArrives? && |Next(w, move).fates| > |w.fates| then [move.event] else []
  }

  /** An event that ends the call once it is handled. */
  predicate Ends(ev: Event) { ev.Destroyed? && (ev.leg == Main || ev.leg == Media) }

  /** Queued events are those that arrived under their numbers; none that ends the call was handled in vain. */
  ghost predicate Linked(w: World, arrived: seq<Event>) {
    && |arrived| == |w.fates|
    && (forall a | a in w.pending :: a.number < |arrived| && arrived[a.number] == a.event && Own(w, a.event.leg))
    && (forall n | n in w.handled :: n < |arrived| && (Ends(arrived[n]) ==> !w.inRegistry))
  }

  lemma QuietLinks(w: World, u: World, arrived: seq<Event>)
    requires Linked(w, arrived) && Quiet(w, u)
    ensures Linked(u, arrived)
  {}

  lemma HandledEnds(w: World, ev: Event, late: bool)
    requires Ends(ev) && Matched(w, ev.leg)
    ensures !Handle(w, ev, late).0.inRegistry
  {
    hide Termination;
  }

  /** What the event does before it is handled at once. */
  function Begun(w: World, ev: Event): World {
    if Matched(w, ev.leg) then w.(fates := w.fates + [Handled], handled := w.handled + [|w.fates|])
    else if Own(w, ev.leg) then w.(fates := w.fates + [Lost(true, |w.fates|)])
    else w
  }

  lemma QueuedLinks(w: World, u: World, ev: Event, arrived: seq<Event>)
    requires Linked(w, arrived) && Own(w, ev.leg) && u.inRegistry == w.inRegistry && u.call == w.call
    requires u.pending == w.pending + [Arrival(|w.fates|, ev)] && u.fates == w.fates + [Waiting]
    requires u.handled == w.handled
    ensures Linked(u, arrived + [ev])
  {}

  lemma TakenLinks(w: World, u: World, ev: Event, late: bool, arrived: seq<Event>)
    requires Linked(w, arrived) && u == Handle(Begun(w, ev), ev, late).0 && Quiet(Begun(w, ev), u)
    ensures Linked(u, arrived + if |u.fates| > |w.fates| then [ev] else [])
  {
    if Ends(ev) && Matched(w, ev.leg) {
      HandledEnds(Begun(w, ev), ev, late);
    }
    hide Handle;
    assert arrived + [] == arrived;
  }

  lemma ArrivalLinks(w: World, ev: Event, late: bool, arrived: seq<Event>)
    requires Core(w) && Linked(w, arrived)
    ensures Linked(Arrive(w, ev, late), arrived + Newly(w, EventArrives(ev, late)))
  {
    hide Core, Handle, Linked, Grown;
    if !w.listener.ListenerIdle? {
      assert arrived + [] == arrived;
    } else if Matched(w, ev.leg) && (!w.accepted || !w.drain.NoDrain?) {
      QueuedLinks(w, Arrive(w, ev, late), ev, arrived);
    } else {
      var w0 := Begun(w, ev);
      CoreOnlyReads(w, w0);
      HandleKeeps(w0, ev, late);
      var (u, out) := Handle(w0, ev, late);
      GrownIsQuiet(w0, u);
      TakenLinks(w, u, ev, late, arrived);
      QuietLinks(u, ListenerTo(u, out), arrived + Newly(w, EventArrives(ev, late)));
    }
  }

  /** The drain takes the first queued event. */
  lemma PopLinks(w: World, u: World, late: bool, arrived: seq<Event>)
    requires Linked(w, arrived) && InOrder(w) && w.pending != [] && w.inRegistry
    requires u == Handle(Popped(w), w.pending[0].event, late).0 && Quiet(Popped(w), u)
    ensures Linked(u, arrived)
  {
    var next := w.pending[0];
    assert next in w.pending;
    if Ends(next.event) {
      HandledEnds(Popped(w), next.event, late);
    }
    hide Handle, InOrder;
  }

  lemma DrainLinks(w: World, ok: bool, late: bool, arrived: seq<Event>)
    requires Inv(w) && Linked(w, arrived)
    ensures Linked(DrainStep(w, ok, late), arrived)
  {
    hide Core, Gated, InOrder, LossExplained, Resume, Cleanup, Handle, FrameOk, Grown, DrainTo, Linked;
    match w.drain {
      case NoDrain =>
      case DrainWaiting =>
        DroppedLinks(w, |w.fates|, arrived);
        QuietLinks(w, w.(drain := DrainLooping), arrived);
      case DrainLooping =>
        QuietLinks(w, w.(drain := DrainExiting(|w.fates|)), arrived);
        if w.pending != [] && w.inRegistry {
          CoreOnlyReads(w, Popped(w));
          HandleKeeps(Popped(w), w.pending[0].event, late);
          var (u, out) := Handle(Popped(w), w.pending[0].event, late);
          GrownIsQuiet(Popped(w), u);
          PopLinks(w, u, late, arrived);
          DrainToLinks(u, out, late, arrived);
        }
      case DrainBusy(frame) =>
        ResumeKeeps(w, frame, ok, late);
        var (u, out) := Resume(w, frame, ok, late);
        GrownIsQuiet(w, u);
        QuietLinks(w, u, arrived);
        DrainToLinks(u, out, late, arrived);
      case DrainCleaning(frame) =>
        ResumeKeeps(w, frame, ok, late);
        GrownIsQuiet(w, Resume(w, frame, ok, late).0);
        QuietLinks(w, DrainStep(w, ok, late), arrived);
      case DrainExiting(since) =>
        DroppedLinks(w, since, arrived);
    }
  }

  lemma DroppedLinks(w: World, since: nat, arrived: seq<Event>)
    requires Linked(w, arrived)
    ensures Linked(LoseWaiting(w, since), arrived)
  {}

  lemma DrainToLinks(w: World, out: Outcome, late: bool, arrived: seq<Event>)
    requires Core(w) && Linked(w, arrived)
    ensures Linked(DrainTo(w, out, late), arrived)
  {
    CleanupKeeps(w, Some(EventFailed), false, late);
    GrownIsQuiet(w, Cleanup(w, Some(EventFailed), false, late).0);
    hide Core, Cleanup, Linked, Grown;
    QuietLinks(w, DrainTo(w, out, late), arrived);
  }

  lemma {:induction false} RunLinks(moves: seq<Move>)
    ensures Linked(Run(moves), Arrived(moves))
  {
    if moves == [] {
      assert Run(moves) == RESERVED_WORLD;
    } else {
      var before, last := moves[..|moves| - 1], moves[|moves| - 1];
      hide Linked, Arrive, DrainStep, ListenerStep, EnderStep, OriginateStep;
      RunLinks(before);
      RunKeeps(before);
      hide Inv;
      StepLinks(Run(before), last, Arrived(before));
    }
  }

  lemma StepLinks(w: World, move: Move, arrived: seq<Event>)
    requires Inv(w) && Linked(w, arrived)
    ensures Linked(Next(w, move), arrived + Newly(w, move))
  {
    hide Linked, Arrive, DrainStep, ListenerStep, EnderStep, OriginateStep;
    if move.EventArrives? {
      ArrivalLinks(w, move.event, move.late, arrived);
    } else {
      assert arrived + Newly(w, move) == arrived;
      if move.DrainRuns? {
        DrainLinks(w, move.ok, move.late, arrived);
      } else {
        OthersAreQuiet(w, move);
        QuietLinks(w, Next(w, move), arrived);
      }
    }
  }

  /** The call has left the registry, and the last word on it is its end. */
  ghost predicate Over(w: World) { !w.inRegistry && w.log != [] && Last(w.log).Terminal() }

  /**
    A call does end: once word that its own or its media channel was destroyed has been
    handled, directly or out of the queue, or the deferred cleanup has begun, the call
    has left the registry and its log ends in a terminal snapshot.
   */
  lemma EndIsReached(moves: seq<Move>)
    ensures var w, arrived := Run(moves), Arrived(moves);
            && |arrived| == |w.fates|
            && (forall n | n in w.handled :: n < |arrived| && (Ends(arrived[n]) ==> Over(w)))
            && (C.EnderBegan(w) ==> Over(w))
  {
    RunLinks(moves);
    C.RunAccountable(moves);
    EndsExactlyOnce(moves);
    EventsWaitForAcceptance(moves);
    hide Run;
  }
}
