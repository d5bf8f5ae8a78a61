/** What must go on does go on: handlers finish, queued events are served, and what is published is sent. */
module CallProgress {
  import opened Basics
  import opened CallSignals
  import opened CallMachine
  import opened CallSafety
  import opened CallLosses
  import opened CallTheorems
  import opened CallActivation

  // ------------------------------------------------------------- a bound on what is left to do

  function StepsAfter(after: After): nat {
    match after
    case ToReturn => 0
    case ToAnsweredUp => 10
    case ToClaim => 10
    case ToBridge => 6
    case ToClose(_) => 2
  }

  /** At most so many awaits are left of a handler in `frame`. */
  function StepsLeft(frame: Frame): (n: nat)
    ensures n > 0
  {
    match frame
    case Recording(_, after) => StepsAfter(after) + 2
    case Sending(_, after) => StepsAfter(after) + 1
    case Answering => 9
    case Bridging => 5
    case Joining => 4
    case CreatingMedia => 3
    case AttachingMedia => 2
    case Announcing => 1
    case Deleting => 1
    case Closing(_, _) => 1
  }

  lemma ResumeAdvances(w: World, frame: Frame, late: bool)
    ensures var out := Resume(w, frame, true, late).1;
            && (out.Suspended? ==> StepsLeft(out.frame) < StepsLeft(frame))
            && (out == Finished(true) ==> frame.Closing? || (frame.Recording? && frame.after.ToClose?)
                                          || (frame.Sending? && frame.after.ToClose?))
  {
    hide Cleanup;
  }

  lemma HandleIsShort(w: World, ev: Event, late: bool)
    ensures var out := Handle(w, ev, late).1;
            && (out.Suspended? ==> StepsLeft(out.frame) <= 12)
            && (out.Finished? ==> !out.raised)
  {
    hide Termination;
  }

  // ------------------------------------------------------------------------ the listener

  function Listens(n: nat, late: bool): seq<Move> { seq(n, _ => ListenerRuns(true, late)) }

  lemma MovesOneMore(moves: seq<Move>, move: Move, n: nat, more: seq<Move>)
    requires |more| == n + 1 && forall i | 0 <= i <= n :: more[i] == move
    ensures moves + more == (moves + more[..n]) + [move]
  {}

  lemma ListenerAdvances(w: World, late: bool)
    requires w.listener.ListenerBusy?
    ensures var u := Next(w, ListenerRuns(true, late));
            u.listener.ListenerBusy? ==> StepsLeft(u.listener.frame) < StepsLeft(w.listener.frame)
  {
    ResumeAdvances(w, w.listener.frame, late);
    hide Resume;
  }

  /** While its requests succeed, the listener is done with any event after at most twelve awaits. */
  lemma {:induction false} HandlersFinish(moves: seq<Move>, late: bool) returns (n: nat)
    requires Run(moves).listener.ListenerBusy?
    ensures n <= StepsLeft(Run(moves).listener.frame)
    ensures Run(moves + Listens(n, late)).listener.ListenerIdle?
    decreases StepsLeft(Run(moves).listener.frame)
  {
    var move := ListenerRuns(true, late);
    RunSnoc(moves, move);
    ListenerAdvances(Run(moves), late);
    hide Run, StepsLeft;
    var one := moves + [move];
    if Run(one).listener.ListenerIdle? {
      n := 1;
      assert Listens(1, late) == [move];
    } else {
      n := HandlersFinish(one, late);
      assert moves + Listens(n + 1, late) == one + Listens(n, late);
      n := n + 1;
    }
  }

  // --------------------------------------------------------------------------- the queue

  /** At most so many awaits are left of the drain. */
  function DrainStepsLeft(w: World): nat {
    match w.drain
    case NoDrain => 0
    case DrainExiting(_) => 1
    case DrainCleaning(frame) => 1 + StepsLeft(frame)
    case DrainLooping => 2 + 14 * |w.pending|
    case DrainBusy(frame) => 2 + 14 * |w.pending| + StepsLeft(frame)
    case DrainWaiting => 3 + 14 * |w.pending|
  }

  lemma DrainToAdvances(w: World, out: Outcome, late: bool)
    requires out == Finished(true) ==> !w.inRegistry
    ensures var u := DrainTo(w, out, late);
            && u.pending == w.pending
            && DrainStepsLeft(u) <= 2 + 14 * |w.pending| + if out.Suspended? then StepsLeft(out.frame) else 0
  {
    hide Termination;
  }

  lemma DrainAdvances(w: World, late: bool)
    requires Inv(w) && w.accepted && !w.drain.NoDrain?
    ensures DrainStepsLeft(DrainStep(w, true, late)) < DrainStepsLeft(w)
  {
    hide Core, Gated, InOrder, LossExplained, Resume, Handle, DrainTo, StepsLeft;
    match w.drain {
      case DrainLooping =>
        if w.pending != [] && w.inRegistry {
          CoreOnlyReads(w, Popped(w));
          HandleKeeps(Popped(w), w.pending[0].event, late);
          HandleIsShort(Popped(w), w.pending[0].event, late);
          var (u, out) := Handle(Popped(w), w.pending[0].event, late);
          GrownIsQuiet(Popped(w), u);
          DrainToAdvances(u, out, late);
        }
      case DrainBusy(frame) =>
        ResumeKeeps(w, frame, true, late);
        ResumeAdvances(w, frame, late);
        var (u, out) := Resume(w, frame, true, late);
        GrownIsQuiet(w, u);
        DrainToAdvances(u, out, late);
      case DrainCleaning(frame) =>
        ResumeAdvances(w, frame, late);
      case _ =>
    }
  }

  function Drains(n: nat, late: bool): seq<Move> { seq(n, _ => DrainRuns(true, late)) }

  lemma {:induction false} DrainFinishes(moves: seq<Move>, late: bool) returns (n: nat)
    requires Run(moves).accepted
    ensures n <= DrainStepsLeft(Run(moves))
    ensures Run(moves + Drains(n, late)).drain.NoDrain?
    decreases DrainStepsLeft(Run(moves))
  {
    hide Run, DrainStepsLeft, Inv, Next;
    if Run(moves).drain.NoDrain? {
      n := 0;
      assert moves + Drains(0, late) == moves;
    } else {
      var move := DrainRuns(true, late);
      RunSnoc(moves, move);
      RunKeeps(moves);
      DrainGoesOn(Run(moves), late);
      n := DrainFinishes(moves + [move], late);
      assert moves + Drains(n + 1, late) == (moves + [move]) + Drains(n, late);
      n := n + 1;
    }
  }

  lemma DrainGoesOn(w: World, late: bool)
    requires Inv(w) && w.accepted && !w.drain.NoDrain?
    ensures var u := Next(w, DrainRuns(true, late));
            u.accepted && DrainStepsLeft(u) < DrainStepsLeft(w)
  {
    DrainAdvances(w, late);
    AcceptedStays(w, late);
    hide Inv, DrainStep, DrainStepsLeft;
  }

  lemma AcceptedStays(w: World, late: bool)
    requires Inv(w) && w.accepted
    ensures DrainStep(w, true, late).accepted
  {
    hide Core, Gated, InOrder, LossExplained, Resume, Handle, DrainTo, Grown;
    match w.drain {
      case DrainLooping =>
        if w.pending != [] && w.inRegistry {
          CoreOnlyReads(w, Popped(w));
          HandleKeeps(Popped(w), w.pending[0].event, late);
          var (u, out) := Handle(Popped(w), w.pending[0].event, late);
          GrownIsAccepted(Popped(w), u);
          DrainToIsAccepted(u, out, late);
        }
      case DrainBusy(frame) =>
        ResumeKeeps(w, frame, true, late);
        var (u, out) := Resume(w, frame, true, late);
        GrownIsAccepted(w, u);
        DrainToIsAccepted(u, out, late);
      case DrainCleaning(frame) =>
        ResumeKeeps(w, frame, true, late);
        GrownIsAccepted(w, Resume(w, frame, true, late).0);
      case _ =>
    }
  }

  lemma GrownIsAccepted(w: World, u: World)
    requires Grown(w, u)
    ensures u.accepted == w.accepted
  {}

  lemma DrainToIsAccepted(w: World, out: Outcome, late: bool)
    ensures DrainTo(w, out, late).accepted == w.accepted
  {
    hide Termination;
  }

  /**
    Once originate has accepted the call, the drain's own moves, their requests succeeding,
    empty the queue and end its task; if the call is still registered then, every event that
    was waiting has been handled, unless the task was ending already.
   */
  lemma QueueIsServed(moves: seq<Move>, late: bool) returns (n: nat)
    requires Run(moves).accepted
    ensures n <= DrainStepsLeft(Run(moves))
    ensures var w, u := Run(moves), Run(moves + Drains(n, late));
            && u.drain.NoDrain? && u.pending == []
            && (u.inRegistry && !w.drain.DrainExiting? ==>
                forall i | 0 <= i < |w.fates| && w.fates[i] == Waiting :: i < |u.fates| && u.fates[i] == Handled)
  {
    n := DrainFinishes(moves, late);
    var w, u := Run(moves), Run(moves + Drains(n, late));
    RunKeeps(moves + Drains(n, late));
    hide Run;
    forall i | 0 <= i < |w.fates| && w.fates[i] == Waiting && u.inRegistry && !w.drain.DrainExiting?
      ensures i < |u.fates| && u.fates[i] == Handled
    {
      StaysSafe(moves, Drains(n, late), i);
      SettledFate(u, i);
    }
    NothingWaits(u);
  }

  lemma NothingWaits(w: World)
    requires Inv(w) && w.drain.NoDrain?
    ensures w.pending == []
  {}

  lemma SettledFate(w: World, i: nat)
    requires Inv(w) && Safe(w, i) && w.drain.NoDrain? && w.inRegistry
    ensures w.fates[i] == Handled
  {
    hide Core, Gated, Exclusive;
  }

  // --------------------------------------------------------------------------- originate

  function OriginateStepsLeft(o: Originate): (n: nat)
    ensures n <= 5
  {
    match o
    case Starting => 5
    case Posting => 4
    case Acknowledging => 3
    case PublishingDialing(frame) => if frame.Recording? then 2 else 1
    case _ => 0
  }

  function Originates(n: nat): seq<Move> { seq(n, _ => OriginateRuns(true)) }

  /** Accepted with dialing published, and nothing else. */
  predicate Accepts(w: World) {
    w.accepted && w.originate.OriginateDone? && w.inRegistry && |w.log| == 1 && w.log[0].status == CallSignals.Dialing
  }

  lemma OriginateAdvances(w: World)
    requires Inv(w) && !w.accepted
    ensures var u := OriginateStep(w, true);
            && (u.accepted ==> Accepts(u))
            && (!u.accepted ==> OriginateStepsLeft(u.originate) < OriginateStepsLeft(w.originate))
  {
    hide InOrder, LossExplained, Exclusive;
  }

  /** While its requests succeed, originate accepts the call after at most five awaits, with dialing published. */
  lemma {:induction false} OriginateFinishes(moves: seq<Move>) returns (n: nat)
    requires !Run(moves).accepted
    ensures n <= OriginateStepsLeft(Run(moves).originate) && Accepts(Run(moves + Originates(n)))
    decreases OriginateStepsLeft(Run(moves).originate)
  {
    var one := moves + [OriginateRuns(true)];
    RunSnoc(moves, OriginateRuns(true));
    RunKeeps(moves);
    OriginateAdvances(Run(moves));
    OriginateIsPending(Run(moves));
    hide Run, Inv, Accepts;
    if Run(one).accepted {
      n := 1;
      assert Originates(1) == [OriginateRuns(true)];
    } else {
      n := OriginateFinishes(one);
      assert moves + Originates(n + 1) == one + Originates(n);
      n := n + 1;
    }
  }

  lemma OriginateIsPending(w: World)
    requires Inv(w) && !w.accepted
    ensures OriginateStepsLeft(w.originate) > 0
  {}

  /** A failed originate gives its snapshot to the store and is done after two awaits, whatever they answer. */
  lemma FailureFinishes(moves: seq<Move>, stored: bool, deleted: bool)
    requires Run(moves).originate.RecordingFailure?
    ensures var w, u := Run(moves), Run(moves + [OriginateRuns(stored)] + [OriginateRuns(deleted)]);
            u == w.(originate := OriginateDone, recorded := w.recorded + [w.originate.snap])
  {
    RunSnoc(moves, OriginateRuns(stored));
    RunSnoc(moves + [OriginateRuns(stored)], OriginateRuns(deleted));
    hide Run;
  }

  // ------------------------------------------------------------------------ media setup

  /** The next await of a media setup whose requests succeed. */
  function NextRequest(frame: Frame): Option<Frame> {
    match frame
    case Answering => Some(Bridging)
    case Bridging => Some(Joining)
    case Joining => Some(CreatingMedia)
    case CreatingMedia => Some(AttachingMedia)
    case AttachingMedia => Some(Announcing)
    case _ => None
  }

  lemma SetupGoesOn(w: World, frame: Frame, late: bool)
    requires Core(w) && FrameOk(w, frame)
    requires frame.Announcing? || NextRequest(frame).Some?
    ensures var (u, out) := Resume(w, frame, true, late);
            && out == (if frame.Announcing? then Finished(false) else Suspended(NextRequest(frame).value))
            && u == w.(call := w.call.(bridged := w.call.bridged || frame.Bridging?,
                                       mediaKnown := w.call.mediaKnown || frame.CreatingMedia?))
  {
    ActivatingIsAnswered(w);
  }

  function Listening(moves: seq<Move>, n: nat, late: bool): World { Run(moves + Listens(n, late)) }

  lemma ListensOneMore(moves: seq<Move>, n: nat, late: bool)
    ensures Listening(moves, n + 1, late) == Next(Listening(moves, n, late), ListenerRuns(true, late))
  {
    hide Next;
    assert moves + Listens(n + 1, late) == (moves + Listens(n, late)) + [ListenerRuns(true, late)];
    RunSnoc(moves + Listens(n, late), ListenerRuns(true, late));
  }

  lemma SetupStep(moves: seq<Move>, n: nat, late: bool, frame: Frame)
    requires Listening(moves, n, late).listener == ListenerBusy(frame)
    requires frame.Announcing? || NextRequest(frame).Some?
    ensures var w, u := Listening(moves, n, late), Listening(moves, n + 1, late);
            && u.listener == (if frame.Announcing? then ListenerIdle else ListenerBusy(NextRequest(frame).value))
            && u.log == w.log && u.starts == w.starts && u.inRegistry == w.inRegistry
            && u.call.bridged == (w.call.bridged || frame.Bridging?)
            && u.call.mediaKnown == (w.call.mediaKnown || frame.CreatingMedia?)
  {
    var w := Listening(moves, n, late);
    RunKeeps(moves + Listens(n, late));
    ListensOneMore(moves, n, late);
    hide Run, Core, Gated, InOrder, LossExplained, FrameOk, Resume;
    SetupGoesOn(w, frame, late);
  }

  lemma SetupChain(moves: seq<Move>, late: bool)
    requires Listening(moves, 0, late).listener == ListenerBusy(Answering)
    ensures var w, u := Listening(moves, 0, late), Listening(moves, 6, late);
            && u.listener.ListenerIdle? && u.call.bridged && u.call.mediaKnown
            && u.log == w.log && u.starts == w.starts && u.inRegistry == w.inRegistry
  {
    hide Listening;
    SetupStep(moves, 0, late, Answering);
    SetupStep(moves, 1, late, Bridging);
    SetupStep(moves, 2, late, Joining);
    SetupStep(moves, 3, late, CreatingMedia);
    SetupStep(moves, 4, late, AttachingMedia);
    SetupStep(moves, 5, late, Announcing);
  }

  /** An activation whose six requests succeed leaves the call bridged, its media channel known, the handler done. */
  lemma ActivationCompletes(moves: seq<Move>, late: bool)
    requires Run(moves).listener == ListenerBusy(Answering)
    ensures var w, u := Run(moves), Run(moves + Listens(6, late));
            && u.listener.ListenerIdle? && u.call.bridged && u.call.mediaKnown
            && u.log == w.log && u.starts == w.starts && u.inRegistry == w.inRegistry
  {
    hide Run;
    assert moves + Listens(0, late) == moves;
    SetupChain(moves, late);
  }
}
