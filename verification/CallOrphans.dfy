/** Channels without a call to serve are deleted, and events of other channels leave a call alone. */
module CallOrphans {
  import opened Basics
  import opened CallSignals
  import opened CallMachine
  import opened CallSafety
  import opened CallLosses
  import opened CallTheorems
  import opened CallEndings
  import opened CallActivation

  /** The answer is told, the channel went up unclaimed in Stasis, and nobody is left to talk to. */
  predicate DeletesAfterTelling(w: World, last: Option<Event>) {
    last == Some(StateChange(Main, StateUp)) && Claimable(w.call) && !w.partner
  }

  /** A channel enters Stasis without a call or a partner, or goes up again without a partner. */
  predicate DeletesAtOnce(w: World, ev: Event) {
    if ev.StasisStart? then !w.inRegistry || !w.partner
    else ev == StateChange(Main, StateUp) && w.inRegistry && !w.partner && w.call.answered && Claimable(w.call)
  }

  lemma CleanupDeletesNothing(w: World, override: Option<Reason>, raises: bool, late: bool)
    ensures Cleanup(w, override, raises, late).1 != Suspended(Deleting)
  {
    hide Termination;
  }

  lemma ResumeDeletes(w: World, frame: Frame, ok: bool, late: bool, ev: Event)
    requires Core(w) && FrameOk(w, frame) && Fits(ev, frame)
    ensures Resume(w, frame, ok, late).1 == Suspended(Deleting)
            <==> ToldIn(w, frame, ok) && DeletesAfterTelling(w, Some(ev))
  {
    CleanupDeletesNothing(w, Some(MediaFailed), true, late);
    hide Core, Cleanup;
  }

  lemma HandleDeletes(w: World, ev: Event, late: bool)
    requires Core(w)
    ensures Handle(w, ev, late).1 == Suspended(Deleting) <==> DeletesAtOnce(w, ev)
  {
    if w.call.answered && w.inRegistry {
      AnswerIsSuppressed(w);
    }
    hide Core, Cleanup;
    match ev {
      case Destroyed(leg, cause) =>
        var w1 := if leg == Media then w else w.(call := WithDestroyCause(w.call, cause));
        CleanupDeletesNothing(w1, None, false, late);
        CleanupDeletesNothing(w1, Some(MediaFailed), false, late);
      case _ =>
    }
  }

  /** An arrival that goes to the queue of the call it belongs to. */
  predicate Queues(w: World, ev: Event) { Matched(w, ev.leg) && (!w.accepted || !w.drain.NoDrain?) }

  /** When whoever moves goes on to delete an orphaned channel. */
  ghost predicate DeletesIff(w: World, move: Move, u: World, last: Option<Event>) {
    match move
    case EventArrives(ev, _) =>
      w.listener.ListenerIdle? ==> (u.listener == ListenerBusy(Deleting) <==> !Queues(w, ev) && DeletesAtOnce(w, ev))
    case ListenerRuns(ok, _) =>
      w.listener.ListenerBusy? ==>
        (u.listener == ListenerBusy(Deleting) <==> ToldIn(w, w.listener.frame, ok) && DeletesAfterTelling(w, last))
    case DrainRuns(ok, _) =>
      && (w.drain.DrainLooping? && w.pending != [] && w.inRegistry ==>
          (u.drain == DrainBusy(Deleting) <==> DeletesAtOnce(w, w.pending[0].event)))
      && (w.drain.DrainBusy? ==>
          (u.drain == DrainBusy(Deleting) <==> ToldIn(w, w.drain.frame, ok) && DeletesAfterTelling(w, last)))
    case _ => u.listener == w.listener && u.drain == w.drain
  }

  lemma ArrivalDeletes(w: World, ev: Event, late: bool)
    requires Inv(w) && w.listener.ListenerIdle?
    ensures Arrive(w, ev, late).listener == ListenerBusy(Deleting) <==> !Queues(w, ev) && DeletesAtOnce(w, ev)
  {
    hide Core, Gated, InOrder, LossExplained, Handle, FrameOk;
    var w0 := Begun(w, ev);
    CoreOnlyReads(w, w0);
    HandleDeletes(w0, ev, late);
  }

  lemma ListenerDeletes(w: World, ok: bool, late: bool, arrived: seq<Event>)
    requires Inv(w) && Fitting(w, arrived) && w.listener.ListenerBusy?
    ensures ListenerStep(w, ok, late).listener == ListenerBusy(Deleting)
            <==> ToldIn(w, w.listener.frame, ok) && DeletesAfterTelling(w, LastHandled(w, arrived))
  {
    hide Core, Gated, InOrder, LossExplained, Resume, FrameOk, Fits;
    if w.listener.frame.Deleting? {
      DeletingEnds(w, ok, late);
    } else {
      ResumeDeletes(w, w.listener.frame, ok, late, LastHandled(w, arrived).value);
    }
  }

  lemma DrainDeletes(w: World, ok: bool, late: bool, arrived: seq<Event>)
    requires Inv(w) && Fitting(w, arrived)
    ensures DeletesIff(w, DrainRuns(ok, late), DrainStep(w, ok, late), LastHandled(w, arrived))
  {
    hide Core, Gated, InOrder, LossExplained, Resume, Handle, Cleanup, FrameOk, Fits;
    if w.drain.DrainLooping? && w.pending != [] && w.inRegistry {
      CoreOnlyReads(w, Popped(w));
      HandleDeletes(Popped(w), w.pending[0].event, late);
    }
    if w.drain.DrainBusy? {
      ResumeDeletes(w, w.drain.frame, ok, late, LastHandled(w, arrived).value);
    }
  }

  /** An unclaimed channel is deleted exactly when it has no call, or no partner is left to talk on it. */
  lemma OrphansAreDeletedIff(moves: seq<Move>, move: Move)
    ensures var w, u := Run(moves), Run(moves + [move]);
            DeletesIff(w, move, u, LastHandled(w, Arrived(moves)))
  {
    RunKeeps(moves);
    RunFits(moves);
    RunSnoc(moves, move);
    hide Run, Inv, Fitting, Arrive, DrainStep, ListenerStep, DeletesAtOnce, DeletesAfterTelling, ToldIn;
    var w := Run(moves);
    match move {
      case EventArrives(ev, late) =>
        if w.listener.ListenerIdle? {
          ArrivalDeletes(w, ev, late);
        }
      case ListenerRuns(ok, late) =>
        if w.listener.ListenerBusy? {
          ListenerDeletes(w, ok, late, Arrived(moves));
        }
      case DrainRuns(ok, late) => DrainDeletes(w, ok, late, Arrived(moves));
      case _ =>
        OthersLeaveListener(w, move);
        OthersAreQuiet(w, move);
    }
  }

  /** No channel of the call. */
  predicate Unknown(w: World, leg: Leg) { leg == Foreign || (leg == Media && !w.call.mediaKnown) }

  /** No channel of a registered call. */
  predicate Stranger(w: World, leg: Leg) { !w.inRegistry || Unknown(w, leg) }

  lemma StrangerIsPassedOver(w: World, ev: Event, late: bool)
    requires Stranger(w, ev.leg)
    ensures var (u, out) := Handle(w, ev, late);
            u == w && (out == Finished(false) || (ev.StasisStart? && out == Suspended(Deleting)))
  {
    hide Publish, Cleanup;
  }

  /** What an event of a stranger leaves: the same call, queue and tasks. */
  ghost predicate LeavesAlone(w: World, ev: Event, u: World) {
    && u == w.(listener := u.listener, fates := u.fates)
    && (u.listener == w.listener || (ev.StasisStart? && u.listener == ListenerBusy(Deleting)))
    && u.fates == w.fates + (if w.listener.ListenerIdle? && !Unknown(w, ev.leg) then [Lost(true, |w.fates|)] else [])
  }

  lemma StrangerArrives(w: World, ev: Event, late: bool)
    requires Stranger(w, ev.leg) && w.listener.ListenerIdle?
    ensures Arrive(w, ev, late) == ListenerTo(Begun(w, ev), Handle(Begun(w, ev), ev, late).1)
  {
    StrangerIsPassedOver(Begun(w, ev), ev, late);
    hide Handle;
  }

  lemma StrangerLeavesAlone(w: World, ev: Event, late: bool)
    requires Stranger(w, ev.leg)
    ensures LeavesAlone(w, ev, Arrive(w, ev, late))
  {
    if w.listener.ListenerIdle? {
      StrangerArrives(w, ev, late);
      StrangerIsPassedOver(Begun(w, ev), ev, late);
      hide Arrive, Handle;
    }
  }

  /**
    An event of a channel that is none of a registered call's changes nothing of the call, nor
    of its queue and its tasks; an own channel's event is lost, as the call is gone.
   */
  lemma StrangersChangeNothing(moves: seq<Move>, ev: Event, late: bool)
    requires Stranger(Run(moves), ev.leg)
    ensures LeavesAlone(Run(moves), ev, Run(moves + [EventArrives(ev, late)]))
  {
    RunSnoc(moves, EventArrives(ev, late));
    hide Run, LeavesAlone, Arrive;
    StrangerLeavesAlone(Run(moves), ev, late);
  }
}
