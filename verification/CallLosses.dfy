/** When exactly an event of a live call can be lost: when it arrives while the drain's task is ending. */
module CallLosses {
  import opened Basics
  import opened CallSignals
  import opened CallMachine
  import opened CallSafety
  import opened CallTheorems

  /** Event `n` has been dropped although its call was still in the registry. */
  predicate LostAlive(w: World, n: nat) {
    n < |w.fates| && w.fates[n].Lost? && !w.fates[n].callGone
  }

  /** Event `n` is not lost for a live call, nor is it queued behind the drain's last test. */
  predicate Safe(w: World, n: nat) {
    && n < |w.fates| && !LostAlive(w, n)
    && (w.fates[n] == Waiting && w.inRegistry ==> !w.drain.DrainExiting?)
  }

  /** Event `n` is not handled, and if it still waits, the drain has made its last test. */
  predicate Doomed(w: World, n: nat) {
    && n < |w.fates| && w.fates[n] != Handled
    && (w.fates[n] == Waiting ==> w.drain.DrainExiting?)
  }

  // ------------------------------------------------------------ what a step does to fates

  /** A step outside the drain adds at most one fate at the end, and leaves the drain where it is. */
  ghost predicate FatesStay(w: World, u: World) {
    && w.fates <= u.fates && |u.fates| <= |w.fates| + 1
    && (u.drain == w.drain || (w.drain.NoDrain? && u.drain.DrainWaiting?))
    && (u.inRegistry ==> w.inRegistry)
  }

  /** No event comes, goes or is handled; a known media channel stays known and an ended call ended. */
  ghost predicate Quiet(w: World, u: World) {
    && u.pending == w.pending && u.fates == w.fates && u.handled == w.handled
    && (w.call.mediaKnown ==> u.call.mediaKnown) && (u.inRegistry ==> w.inRegistry)
  }

  lemma GrownIsQuiet(w: World, u: World)
    requires Grown(w, u)
    ensures Quiet(w, u) && u.drain == w.drain && u.listener == w.listener
  {}

  lemma OthersAreQuiet(w: World, move: Move)
    requires Inv(w) && !move.EventArrives? && !move.DrainRuns?
    ensures Quiet(w, Next(w, move)) && Next(w, move).drain == w.drain
  {
    hide Inv, ListenerStep, EnderStep, OriginateStep;
    match move {
      case ListenerRuns(ok, late) => ListenerIsQuiet(w, ok, late);
      case EnderRuns(ok, late) => EnderIsQuiet(w, ok, late);
      case OriginateRuns(ok) => OriginateIsQuiet(w, ok);
      case PartnerLeaves =>
      case PartnerAsksEnd(_) =>
    }
  }

  lemma ListenerIsQuiet(w: World, ok: bool, late: bool)
    requires Inv(w)
    ensures Quiet(w, ListenerStep(w, ok, late)) && ListenerStep(w, ok, late).drain == w.drain
  {
    hide Core, Gated, InOrder, LossExplained, Resume, FrameOk, Grown;
    if w.listener.ListenerBusy? {
      if w.listener.frame.Deleting? {
        DeletingEnds(w, ok, late);
      } else {
        ResumeKeeps(w, w.listener.frame, ok, late);
      }
      GrownIsQuiet(w, Resume(w, w.listener.frame, ok, late).0);
    }
  }

  lemma EnderIsQuiet(w: World, ok: bool, late: bool)
    requires Inv(w)
    ensures Quiet(w, EnderStep(w, ok, late)) && EnderStep(w, ok, late).drain == w.drain
  {
    hide Core, Gated, InOrder, LossExplained, Resume, Cleanup, FrameOk, Grown;
    CleanupKeeps(w, None, false, late);
    GrownIsQuiet(w, Cleanup(w, None, false, late).0);
    if w.ender.EnderBusy? {
      ResumeKeeps(w, w.ender.frame, ok, late);
      GrownIsQuiet(w, Resume(w, w.ender.frame, ok, late).0);
    }
  }

  lemma OriginateIsQuiet(w: World, ok: bool)
    requires Inv(w)
    ensures Quiet(w, OriginateStep(w, ok)) && OriginateStep(w, ok).drain == w.drain
  {
    hide Core, InOrder, LossExplained, Exclusive, Resume, FrameOk, Grown;
    if w.originate.PublishingDialing? {
      DialingResumes(w, ok);
      GrownIsQuiet(w, Resume(w, w.originate.frame, ok, false).0);
    }
  }

  lemma OthersLeaveFates(w: World, move: Move)
    requires Inv(w) && !move.DrainRuns?
    ensures FatesStay(w, Next(w, move))
    ensures !move.EventArrives? ==> Next(w, move).fates == w.fates
  {
    if move.EventArrives? {
      ArrivalLeavesFates(w, move.event, move.late);
    } else {
      OthersAreQuiet(w, move);
    }
    hide Inv, Next;
  }

  lemma ArrivalLeavesFates(w: World, ev: Event, late: bool)
    requires Core(w)
    ensures FatesStay(w, Arrive(w, ev, late))
    ensures w.listener.ListenerIdle? && Own(w, ev.leg) ==> |Arrive(w, ev, late).fates| == |w.fates| + 1
    ensures w.listener.ListenerIdle? && Own(w, ev.leg) ==>
              Arrive(w, ev, late).fates[|w.fates|]
              == if !Matched(w, ev.leg) then Lost(true, |w.fates|)
                 else if !w.accepted || !w.drain.NoDrain? then Waiting
                 else Handled
    ensures !(w.listener.ListenerIdle? && Own(w, ev.leg)) ==> |Arrive(w, ev, late).fates| == |w.fates|
  {
    hide Core, Handle;
    var matched := Matched(w, ev.leg);
    var w0 := if matched then w.(fates := w.fates + [Handled], handled := w.handled + [|w.fates|])
              else if Own(w, ev.leg) then w.(fates := w.fates + [Lost(true, |w.fates|)])
              else w;
    CoreOnlyReads(w, w0);
    HandleKeeps(w0, ev, late);
  }

  /** The drain ends its loop only when nothing waits or the call is gone, and then only drops what waits. */
  ghost predicate DrainKeepsFates(w: World, u: World) {
    && |u.fates| == |w.fates| && (u.inRegistry ==> w.inRegistry)
    && if w.drain.DrainExiting? || (w.drain.DrainWaiting? && u.drain.NoDrain?) then
         && u.drain.NoDrain? && u.inRegistry == w.inRegistry
         && (w.drain.DrainWaiting? ==> !w.inRegistry)
         && (forall i | 0 <= i < |w.fates| ::
               if w.fates[i] == Waiting then u.fates[i].Lost? && u.fates[i].callGone == !w.inRegistry
               else u.fates[i] == w.fates[i])
       else
         && (forall i | 0 <= i < |w.fates| ::
               u.fates[i] == w.fates[i] || (w.fates[i] == Waiting && u.fates[i] == Handled))
         && (u.drain.DrainExiting? && u.inRegistry ==> forall i | 0 <= i < |u.fates| :: u.fates[i] != Waiting)
         && (w.drain.NoDrain? ==> u == w)
  }

  lemma DrainLeavesFates(w: World, ok: bool, late: bool)
    requires Inv(w)
    ensures DrainKeepsFates(w, DrainStep(w, ok, late))
  {
    hide Core, Gated, LossExplained, Resume, Cleanup, Handle, FrameOk, DrainTo, CleaningUp;
    match w.drain {
      case NoDrain =>
      case DrainWaiting =>
      case DrainLooping =>
        if w.pending != [] && w.inRegistry {
          var w0 := Popped(w);
          CoreOnlyReads(w, w0);
          NumberWaits(w);
          HandleKeeps(w0, w.pending[0].event, late);
          var (u, out) := Handle(w0, w.pending[0].event, late);
          EndingIsGone(u, out, late);
        }
      case DrainBusy(frame) =>
        ResumeKeeps(w, frame, ok, late);
        var (u, out) := Resume(w, frame, ok, late);
        EndingIsGone(u, out, late);
      case DrainCleaning(frame) =>
        CleaningStays(w, frame, ok, late);
      case DrainExiting(_) =>
    }
  }

  lemma NumberWaits(w: World)
    requires InOrder(w) && w.pending != []
    ensures w.pending[0].number < |w.fates| && w.fates[w.pending[0].number] == Waiting
  {
    assert Numbers(w.pending)[0] in Numbers(w.pending);
  }

  lemma EndingIsGone(w: World, out: Outcome, late: bool)
    requires Core(w)
    ensures var u := DrainTo(w, out, late);
            && u.fates == w.fates && (u.inRegistry ==> w.inRegistry) && (u.drain.DrainExiting? ==> !u.inRegistry)
            && !u.drain.NoDrain?
  {
    CleanupKeeps(w, Some(EventFailed), false, late);
    hide Core, Cleanup;
  }

  // ------------------------------------------------------------------- over whole runs

  lemma StepKeepsSafe(w: World, move: Move, n: nat)
    requires Inv(w) && Safe(w, n)
    ensures Safe(Next(w, move), n)
  {
    hide Core, Gated, Exclusive, LossExplained, Arrive, ListenerStep, DrainStep, EnderStep, OriginateStep;
    if move.DrainRuns? {
      DrainLeavesFates(w, move.ok, move.late);
    } else {
      OthersLeaveFates(w, move);
    }
  }

  lemma StepKeepsDoomed(w: World, move: Move, n: nat)
    requires Inv(w) && Doomed(w, n)
    ensures Doomed(Next(w, move), n)
  {
    hide Core, Gated, Exclusive, LossExplained, Arrive, ListenerStep, DrainStep, EnderStep, OriginateStep;
    if move.DrainRuns? {
      DrainLeavesFates(w, move.ok, move.late);
    } else {
      OthersLeaveFates(w, move);
    }
  }

  lemma {:induction false} StaysSafe(before: seq<Move>, later: seq<Move>, n: nat)
    requires Safe(Run(before), n)
    ensures Safe(Run(before + later), n)
  {
    hide Safe, Run;
    if later == [] {
      assert before + later == before;
    } else {
      var front := before + later[..|later| - 1];
      StaysSafe(before, later[..|later| - 1], n);
      assert before + later == front + [later[|later| - 1]];
      RunKeeps(front);
      RunSnoc(front, later[|later| - 1]);
      StepKeepsSafe(Run(front), later[|later| - 1], n);
    }
  }

  lemma {:induction false} StaysDoomed(before: seq<Move>, later: seq<Move>, n: nat)
    requires Doomed(Run(before), n)
    ensures Doomed(Run(before + later), n)
  {
    hide Doomed, Run;
    if later == [] {
      assert before + later == before;
    } else {
      var front := before + later[..|later| - 1];
      StaysDoomed(before, later[..|later| - 1], n);
      assert before + later == front + [later[|later| - 1]];
      RunKeeps(front);
      RunSnoc(front, later[|later| - 1]);
      StepKeepsDoomed(Run(front), later[|later| - 1], n);
    }
  }

  /** The run so far, this event next, and then anything. */
  function AfterArrival(before: seq<Move>, event: Event, late: bool, later: seq<Move>): World {
    Run(before + [EventArrives(event, late)] + later)
  }

  /** The listener takes the event, and the call is in the registry. */
  predicate Taken(w: World, event: Event) { w.listener.ListenerIdle? && Matched(w, event.leg) }

  /** An event of a registered call that arrives outside the drain's exit window is never lost while the call lives. */
  lemma OutsideTheWindowNothingIsLost(before: seq<Move>, event: Event, late: bool, later: seq<Move>)
    requires Taken(Run(before), event) && !Run(before).drain.DrainExiting?
    ensures !LostAlive(AfterArrival(before, event, late, later), |Run(before).fates|)
  {
    hide Run;
    RunKeeps(before);
    RunSnoc(before, EventArrives(event, late));
    ArrivalLeavesFates(Run(before), event, late);
    StaysSafe(before + [EventArrives(event, late)], later, |Run(before).fates|);
  }

  /**
    One that arrives inside it is never handled, whatever follows: it is lost as soon as
    the drain's task has ended, and lost for a live call if the call is registered then.
   */
  lemma ExitWindowLosesArrivals(before: seq<Move>, event: Event, late: bool, later: seq<Move>)
    requires Taken(Run(before), event) && Run(before).drain.DrainExiting?
    ensures var u, n := AfterArrival(before, event, late, later), |Run(before).fates|;
            && n < |u.fates| && n !in u.handled
            && (u.drain.DrainExiting? || u.fates[n].Lost?)
            && (u.inRegistry && !u.drain.DrainExiting? ==> LostAlive(u, n))
  {
    hide Run;
    var n, arrived := |Run(before).fates|, before + [EventArrives(event, late)];
    RunKeeps(before);
    RunSnoc(before, EventArrives(event, late));
    ArrivalLeavesFates(Run(before), event, late);
    StaysDoomed(arrived, later, n);
    RunKeeps(arrived + later);
  }

  /** Whatever follows, the event is not lost while its call lives. */
  ghost predicate NeverLostAlive(before: seq<Move>, event: Event, late: bool) {
    forall later: seq<Move> :: !LostAlive(AfterArrival(before, event, late, later), |Run(before).fates|)
  }

  /** An event of a registered call is safe exactly when it does not arrive while the drain's task is ending. */
  lemma ArrivalIsSafeIff(before: seq<Move>, event: Event, late: bool)
    requires Taken(Run(before), event)
    ensures NeverLostAlive(before, event, late) <==> !Run(before).drain.DrainExiting?
  {
    hide Run;
    var w := Run(before);
    if w.drain.DrainExiting? {
      var arrived := before + [EventArrives(event, late)];
      DrainEndDropsArrival(before, event, late, true);
      RunSnoc(before, EventArrives(event, late));
      RunSnoc(arrived, DrainRuns(true, false));
      assert LostAlive(AfterArrival(before, event, late, [DrainRuns(true, false)]), |w.fates|);
    } else {
      forall later: seq<Move>
        ensures !LostAlive(AfterArrival(before, event, late, later), |w.fates|)
      {
        OutsideTheWindowNothingIsLost(before, event, late, later);
      }
    }
  }

  /** Move `k` of the run brought event `n`, and the drain's task was ending then. */
  predicate ArrivedInWindow(moves: seq<Move>, n: nat, k: nat) {
    && k < |moves| && moves[k].EventArrives? && |Run(moves[..k]).fates| == n
    && Taken(Run(moves[..k]), moves[k].event) && Run(moves[..k]).drain.DrainExiting?
  }

  ghost predicate CameInWindow(moves: seq<Move>, n: nat) { exists k :: ArrivedInWindow(moves, n, k) }

  /** Traced back: every event that a run lost for a live call did arrive in the exit window. */
  lemma LossesArrivedInTheWindow(moves: seq<Move>, n: nat)
    requires LostAlive(Run(moves), n)
    ensures CameInWindow(moves, n)
  {
    hide Run;
    var k := ArrivalOf(moves, n);
    var before, event := moves[..k], moves[k].event;
    RunKeeps(before);
    RunSnoc(before, moves[k]);
    ArrivalLeavesFates(Run(before), event, moves[k].late);
    assert moves == before + [moves[k]] + moves[k + 1..];
    assert before + [moves[k]] == moves[..k + 1];
    if !ArrivedInWindow(moves, n, k) {
      assert Safe(Run(moves[..k + 1]), n);
      StaysSafe(moves[..k + 1], moves[k + 1..], n);
    }
  }

  /** The move that brought event `n`. */
  lemma {:induction false} ArrivalOf(moves: seq<Move>, n: nat) returns (k: nat)
    requires n < |Run(moves).fates|
    ensures k < |moves| && moves[k].EventArrives? && |Run(moves[..k]).fates| == n
    ensures Run(moves[..k]).listener.ListenerIdle? && Own(Run(moves[..k]), moves[k].event.leg)
  {
    NoEventsAtFirst(moves);
    hide Run;
    var before, last := moves[..|moves| - 1], moves[|moves| - 1];
    assert moves == before + [last];
    RunKeeps(before);
    RunSnoc(before, last);
    if n < |Run(before).fates| {
      k := ArrivalOf(before, n);
      assert moves[..k] == before[..k];
    } else {
      k := |before|;
      FatesGrowByArrivals(Run(before), last);
    }
  }

  lemma NoEventsAtFirst(moves: seq<Move>)
    ensures moves == [] ==> Run(moves).fates == []
  {}

  lemma FatesGrowByArrivals(w: World, move: Move)
    requires Inv(w) && |Next(w, move).fates| > |w.fates|
    ensures |Next(w, move).fates| == |w.fates| + 1
    ensures move.EventArrives? && w.listener.ListenerIdle? && Own(w, move.event.leg)
  {
    hide Inv, DrainStep, Arrive, ListenerStep, EnderStep, OriginateStep;
    if move.DrainRuns? {
      DrainLeavesFates(w, move.ok, move.late);
    } else {
      OthersLeaveFates(w, move);
      if move.EventArrives? {
        EventsNeedCore(w, move.event, move.late);
      }
    }
  }

  lemma EventsNeedCore(w: World, ev: Event, late: bool)
    requires Inv(w) && |Arrive(w, ev, late).fates| > |w.fates|
    ensures w.listener.ListenerIdle? && Own(w, ev.leg)
  {
    hide Core;
    ArrivalLeavesFates(w, ev, late);
  }

  lemma WindowArrivalsAreNotHandled(moves: seq<Move>, n: nat)
    requires CameInWindow(moves, n)
    ensures n !in Run(moves).handled
  {
    hide Run;
    var k: nat :| ArrivedInWindow(moves, n, k);
    assert moves == moves[..k] + [EventArrives(moves[k].event, moves[k].late)] + moves[k + 1..];
    ExitWindowLosesArrivals(moves[..k], moves[k].event, moves[k].late, moves[k + 1..]);
  }

  /**
    Events are handled in arrival order, each at most once. One that is neither
    handled nor queued was overtaken by the end of its call, or arrived in the exit
    window; and none that arrived there is handled.
   */
  lemma EventsAreHandledInOrder(moves: seq<Move>)
    ensures var w := Run(moves);
            && (forall i, j | 0 <= i < j < |w.handled| :: w.handled[i] < w.handled[j])
            && (forall n | 0 <= n < |w.fates| :: w.fates[n] == Handled <==> n in w.handled)
            && (forall n | 0 <= n < |w.fates| && w.fates[n] == Waiting :: n in Numbers(w.pending))
            && (forall n | 0 <= n < |w.fates| && w.fates[n].Lost? ::
                  if w.fates[n].callGone then !w.inRegistry else w.fates[n].since <= n && CameInWindow(moves, n))
            && (forall n: nat | CameInWindow(moves, n) :: n !in w.handled)
  {
    RunKeeps(moves);
    AscendingPrefix(Run(moves).handled, Numbers(Run(moves).pending));
    hide Run, CameInWindow;
    forall n: nat | LostAlive(Run(moves), n)
      ensures CameInWindow(moves, n)
    {
      LossesArrivedInTheWindow(moves, n);
    }
    forall n: nat | CameInWindow(moves, n)
      ensures n !in Run(moves).handled
    {
      WindowArrivalsAreNotHandled(moves, n);
    }
  }
}
