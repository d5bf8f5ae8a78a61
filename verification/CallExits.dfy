/** When a call leaves the registry, and what its last snapshot says about why. */
module CallExits {
  import opened Basics
  import opened CallSignals
  import opened CallMachine
  import opened CallSafety
  import opened CallLosses
  import opened CallTheorems
  import opened CallEndings
  import opened CallActivation

  /** A request of the media setup is awaited. */
  predicate SettingUp(frame: Frame) {
    || frame.Answering? || frame.Bridging? || frame.Joining? || frame.CreatingMedia? || frame.AttachingMedia?
    || frame.Announcing?
  }

  /** The handler in `frame` fails without having ended the call. */
  predicate RaisesIn(frame: Frame) { frame.Sending? || frame.Deleting? }

  /** Why a call ends: what was heard of it, or a reason of the gateway's own. */
  datatype Why = ByEvidence | ByReason(reason: Reason)

  /** The event ends the call when it is handled. */
  function WhyOfEvent(ev: Event): Option<Why> {
    if ev.Destroyed? && ev.leg == Main then Some(ByEvidence)
    else if ev.Destroyed? && ev.leg == Media then Some(ByReason(MediaFailed))
    else None
  }

  /** The snapshot carries what the call shows. */
  predicate Carries(s: Snapshot, c: Call) {
    && s.status == c.status && s.sequence == c.sequence && s.answered == c.answered
    && s.reason == c.reason && s.hangupCause == c.hangupCause && s.dialStatus == c.dialStatus
  }

  /** One more snapshot, of a call that ended for this reason, or on the evidence it then holds. */
  ghost predicate EndsLog(w: World, u: World, why: Why, late: bool) {
    && |u.log| == |w.log| + 1 && w.log <= u.log && Carries(u.log[|w.log|], u.call)
    && u.call.answered == w.call.answered && u.call.sequence == w.call.sequence + 1
    && match why
       case ByReason(reason) => u.call.status == Ended(Failed) && u.call.reason == Some(reason)
       case ByEvidence =>
         var (how, reason) := Termination(u.call, late);
         u.call.status == Ended(how) && u.call.reason == Some(reason)
  }

  // ------------------------------------------------------------------------ segments

  lemma CleanupExits(w: World, override: Option<Reason>, raises: bool, late: bool)
    requires w.inRegistry
    ensures var u := Cleanup(w, override, raises, late).0;
            && !u.inRegistry
            && EndsLog(w, u, if override.Some? then ByReason(override.value) else ByEvidence, late)
  {}

  lemma ContinueStays(w: World, after: After)
    ensures var (u, out) := Continue(w, after);
            u.inRegistry == w.inRegistry && (out.Finished? ==> !out.raised)
  {}

  lemma ResumeExits(w: World, frame: Frame, ok: bool, late: bool, ev: Event)
    requires Core(w) && FrameOk(w, frame) && Fits(ev, frame) && w.inRegistry
    ensures var (u, out) := Resume(w, frame, ok, late);
            && (u.inRegistry <==> ok || !SettingUp(frame))
            && (!u.inRegistry ==> EndsLog(w, u, ByReason(MediaFailed), late))
            && (u.inRegistry ==> (out == Finished(true) <==> !ok && RaisesIn(frame)))
            && (u.inRegistry && out.Finished? && out.raised ==> u == w)
  {
    if w.call.activating {
      ActivatingIsAnswered(w);
    }
    CleanupExits(w, Some(MediaFailed), true, late);
    if frame.Recording? {
      ContinueStays(w.(recorded := w.recorded + [frame.snap]), frame.after);
    }
    if frame.Sending? {
      ContinueStays(w, frame.after);
    }
    ContinueStays(w, ToBridge);
    hide Core, Cleanup, Continue, EndsLog;
  }

  lemma HandleExits(w: World, ev: Event, late: bool)
    requires Matched(w, ev.leg)
    ensures var (u, out) := Handle(w, ev, late);
            && (u.inRegistry <==> WhyOfEvent(ev).None?)
            && (!u.inRegistry ==> EndsLog(w, u, WhyOfEvent(ev).value, late))
            && (out.Finished? ==> !out.raised)
  {
    match ev {
      case Destroyed(leg, cause) =>
        var w1 := if leg == Media then w else w.(call := WithDestroyCause(w.call, cause));
        CleanupExits(w1, None, false, late);
        CleanupExits(w1, Some(MediaFailed), false, late);
      case Dial(leg, report) =>
        var w1 := w.(call := WithDial(w.call, if report.Known? then Some(report.dial) else None));
        ContinueStays(w1, ToReturn);
      case StateChange(leg, state) =>
        ContinueStays(w, ToReturn);
        ContinueStays(w, ToAnsweredUp);
      case StasisStart(leg, up) =>
        ContinueStays(w.(call := w.call.(inStasis := true)), ToClaim);
      case _ =>
    }
    hide Cleanup, Continue;
  }

  // ---------------------------------------------------------------------------- moves

  /** The move ends a call that is in the registry, for this reason. */
  ghost function WhyItEnds(w: World, move: Move, u: World, now: seq<Event>): Option<Why> {
    if u.handled != w.handled && LastHandled(u, now).Some? then WhyOfEvent(LastHandled(u, now).value)
    else
      match move
      case ListenerRuns(ok, _) =>
        if !ok && w.listener.ListenerBusy? && SettingUp(w.listener.frame) then Some(ByReason(MediaFailed)) else None
      case DrainRuns(ok, _) =>
        if ok || !w.drain.DrainBusy? then None
        else if SettingUp(w.drain.frame) then Some(ByReason(MediaFailed))
        else if RaisesIn(w.drain.frame) then Some(ByReason(EventFailed))
        else None
      case EnderRuns(_, _) => if w.ender.EnderSleeping? then Some(ByEvidence) else None
      case OriginateRuns(ok) =>
        if !ok && (w.originate.Posting? || w.originate.Acknowledging?
                   || (w.originate.PublishingDialing? && w.originate.frame.Sending?))
        then Some(ByReason(OriginateFailed)) else None
      case _ => None
  }

  function LateOf(move: Move): bool {
    match move
    case EventArrives(_, late) => late
    case ListenerRuns(_, late) => late
    case DrainRuns(_, late) => late
    case EnderRuns(_, late) => late
    case _ => false
  }

  ghost predicate ExitsAs(w: World, u: World, why: Option<Why>, late: bool) {
    && (u.inRegistry <==> why.None?)
    && (why.Some? ==> EndsLog(w, u, why.value, late))
  }

  lemma ListenerExits(w: World, ok: bool, late: bool, arrived: seq<Event>)
    requires Inv(w) && Fitting(w, arrived) && w.inRegistry
    ensures var u := ListenerStep(w, ok, late);
            ExitsAs(w, u, WhyItEnds(w, ListenerRuns(ok, late), u, arrived), late)
  {
    hide Core, Gated, InOrder, LossExplained, Resume, FrameOk, Grown, Fits, EndsLog;
    if w.listener.ListenerBusy? {
      if w.listener.frame.Deleting? {
        DeletingEnds(w, ok, late);
      } else {
        ResumeKeeps(w, w.listener.frame, ok, late);
        ResumeExits(w, w.listener.frame, ok, late, LastHandled(w, arrived).value);
        var u := Resume(w, w.listener.frame, ok, late).0;
        GrownIsQuiet(w, u);
        EndsLogAlike(w, u, ListenerStep(w, ok, late), ByReason(MediaFailed), late);
      }
    }
  }

  lemma EndsLogAlike(w: World, u: World, v: World, why: Why, late: bool)
    requires u.log == v.log && u.call == v.call
    ensures EndsLog(w, u, why, late) <==> EndsLog(w, v, why, late)
  {}

  lemma EndsLogFrom(w: World, w0: World, u: World, why: Why, late: bool)
    requires w.log == w0.log && w0.call == w.call
    ensures EndsLog(w, u, why, late) <==> EndsLog(w0, u, why, late)
  {}

  lemma ArrivalExits(w: World, ev: Event, late: bool, arrived: seq<Event>)
    requires Inv(w) && Linked(w, arrived) && w.inRegistry
    ensures var move := EventArrives(ev, late);
            var u := Arrive(w, ev, late);
            ExitsAs(w, u, WhyItEnds(w, move, u, arrived + Newly(w, move)), late)
  {
    hide Core, Gated, InOrder, LossExplained, Handle, FrameOk, WhyOfEvent, EndsLog;
    if w.listener.ListenerIdle? && !(Matched(w, ev.leg) && (!w.accepted || !w.drain.NoDrain?)) {
      var w0, now := Begun(w, ev), arrived + Newly(w, EventArrives(ev, late));
      CoreOnlyReads(w, w0);
      HandleKeeps(w0, ev, late);
      var (u, out) := Handle(w0, ev, late);
      GrownIsQuiet(w0, u);
      hide Grown;
      if Matched(w, ev.leg) {
        HandleExits(w0, ev, late);
        assert now[|w.fates|] == ev;
        if WhyOfEvent(ev).Some? {
          EndsLogAlike(w0, u, Arrive(w, ev, late), WhyOfEvent(ev).value, late);
          EndsLogFrom(w, w0, Arrive(w, ev, late), WhyOfEvent(ev).value, late);
        }
      }
    }
  }

  /** What the drain makes of a handler's end. */
  lemma DrainToExits(w: World, out: Outcome, late: bool)
    ensures var u := DrainTo(w, out, late);
            && u.handled == w.handled
            && (out == Finished(true) && w.inRegistry ==> !u.inRegistry && EndsLog(w, u, ByReason(EventFailed), late))
            && (out != Finished(true) || !w.inRegistry ==>
                u.inRegistry == w.inRegistry && u.log == w.log && u.call == w.call)
  {
    if w.inRegistry {
      CleanupExits(w, Some(EventFailed), false, late);
      var u := Cleanup(w, Some(EventFailed), false, late).0;
      EndsLogAlike(w, u, DrainTo(w, Finished(true), late), ByReason(EventFailed), late);
    }
    hide EndsLog, Terminated;
  }

  lemma DrainBusyExits(w: World, ok: bool, late: bool, arrived: seq<Event>)
    requires Inv(w) && Fitting(w, arrived) && w.inRegistry && w.drain.DrainBusy?
    ensures var u, frame := DrainStep(w, ok, late), w.drain.frame;
            && u.handled == w.handled
            && ExitsAs(w, u, if ok then None else if SettingUp(frame) then Some(ByReason(MediaFailed))
                             else if RaisesIn(frame) then Some(ByReason(EventFailed)) else None, late)
  {
    hide Core, Gated, InOrder, LossExplained, Resume, FrameOk, Fits, EndsLog, DrainTo, Grown;
    ResumeKeeps(w, w.drain.frame, ok, late);
    ResumeExits(w, w.drain.frame, ok, late, LastHandled(w, arrived).value);
    var (u, out) := Resume(w, w.drain.frame, ok, late);
    GrownIsQuiet(w, u);
    DrainToExits(u, out, late);
    if !u.inRegistry {
      EndsLogAlike(w, u, DrainTo(u, out, late), ByReason(MediaFailed), late);
    }
  }

  lemma DrainPopExits(w: World, ok: bool, late: bool, arrived: seq<Event>)
    requires Inv(w) && Linked(w, arrived) && w.inRegistry && w.drain.DrainLooping? && w.pending != []
    ensures var u := DrainStep(w, ok, late);
            && u.handled != w.handled && LastHandled(u, arrived) == Some(w.pending[0].event)
            && ExitsAs(w, u, WhyOfEvent(w.pending[0].event), late)
  {
    hide Core, Gated, InOrder, LossExplained, Handle, FrameOk, EndsLog, DrainTo, WhyOfEvent, Grown;
    var ev := w.pending[0].event;
    CoreOnlyReads(w, Popped(w));
    HandleKeeps(Popped(w), ev, late);
    assert w.pending[0] in w.pending;
    NumberWaits(w);
    HandleExits(Popped(w), ev, late);
    var (u, out) := Handle(Popped(w), ev, late);
    GrownIsQuiet(Popped(w), u);
    DrainToExits(u, out, late);
    if WhyOfEvent(ev).Some? {
      EndsLogAlike(Popped(w), u, DrainTo(u, out, late), WhyOfEvent(ev).value, late);
      EndsLogFrom(w, Popped(w), DrainTo(u, out, late), WhyOfEvent(ev).value, late);
    }
  }

  lemma DrainExits(w: World, ok: bool, late: bool, arrived: seq<Event>)
    requires Inv(w) && Linked(w, arrived) && Fitting(w, arrived) && w.inRegistry
    ensures var u := DrainStep(w, ok, late);
            ExitsAs(w, u, WhyItEnds(w, DrainRuns(ok, late), u, arrived), late)
  {
    hide Core, Gated, InOrder, LossExplained, Linked, Fitting, EndsLog, WhyOfEvent, Resume, Handle;
    if w.drain.DrainBusy? {
      DrainBusyExits(w, ok, late, arrived);
    } else if w.drain.DrainLooping? && w.pending != [] {
      DrainPopExits(w, ok, late, arrived);
    } else {
      assert !w.drain.DrainCleaning? by {
        if w.drain.DrainCleaning? {
          CleaningIsGone(w, w.drain.frame);
        }
      }
    }
  }

  lemma CleaningIsGone(w: World, frame: Frame)
    requires FrameOk(w, frame) && CleaningUp(frame)
    ensures !w.inRegistry
  {}

  lemma EnderExits(w: World, ok: bool, late: bool)
    requires Inv(w) && w.inRegistry
    ensures var u := EnderStep(w, ok, late);
            && u.handled == w.handled
            && ExitsAs(w, u, if w.ender.EnderSleeping? then Some(ByEvidence) else None, late)
  {
    hide Core, Gated, InOrder, LossExplained, Cleanup, EndsLog, Resume;
    if w.ender.EnderSleeping? {
      CleanupExits(w, None, false, late);
      var u := Cleanup(w, None, false, late).0;
      CleanupKeeps(w, None, false, late);
      EndsLogAlike(w, u, EnderStep(w, ok, late), ByEvidence, late);
    }
    if w.ender.EnderBusy? {
      CleaningIsGone(w, w.ender.frame);
    }
  }

  lemma OriginateExits(w: World, ok: bool)
    requires Inv(w) && w.inRegistry && !(w.originate.Starting? && !ok)
    ensures var u := OriginateStep(w, ok);
            && u.handled == w.handled
            && ExitsAs(w, u, if !ok && (w.originate.Posting? || w.originate.Acknowledging?
                                        || (w.originate.PublishingDialing? && w.originate.frame.Sending?))
                             then Some(ByReason(OriginateFailed)) else None, false)
  {
    FailureExits(w);
    if w.originate.PublishingDialing? {
      DialingExits(w, ok);
      var u := Resume(w, w.originate.frame, ok, false).0;
      FailureExits(u);
      EndsLogFrom(w, u, FailOriginate(u), ByReason(OriginateFailed), false);
    }
    hide Core, InOrder, LossExplained, Exclusive, FrameOk, FailOriginate, EndsLog, Resume;
  }

  lemma FailureExits(w: World)
    ensures var u := FailOriginate(w);
            !u.inRegistry && u.handled == w.handled && EndsLog(w, u, ByReason(OriginateFailed), false)
  {}

  lemma DialingExits(w: World, ok: bool)
    requires Inv(w) && w.originate.PublishingDialing?
    ensures var (u, out) := Resume(w, w.originate.frame, ok, false);
            && u.log == w.log && u.call == w.call && u.inRegistry && u.handled == w.handled
            && (out == Finished(true) <==> !ok && w.originate.frame.Sending?)
  {
    hide Core, InOrder, LossExplained, Exclusive, FrameOk;
  }

  /** The move takes a registered call out of the registry exactly if there is a reason, and reports it. */
  lemma StepExits(w: World, move: Move, arrived: seq<Event>)
    requires Inv(w) && Linked(w, arrived) && Fitting(w, arrived) && w.inRegistry
    requires !(move == OriginateRuns(false) && w.originate.Starting?)
    ensures var u := Next(w, move);
            ExitsAs(w, u, WhyItEnds(w, move, u, arrived + Newly(w, move)), LateOf(move))
  {
    hide Inv, Linked, Fitting, Arrive, DrainStep, ListenerStep, EnderStep, OriginateStep, EndsLog, WhyOfEvent;
    if !move.EventArrives? {
      assert arrived + Newly(w, move) == arrived;
    }
    match move {
      case EventArrives(ev, late) => ArrivalExits(w, ev, late, arrived);
      case ListenerRuns(ok, late) => ListenerExits(w, ok, late, arrived);
      case DrainRuns(ok, late) => DrainExits(w, ok, late, arrived);
      case EnderRuns(ok, late) => EnderExits(w, ok, late);
      case OriginateRuns(ok) => OriginateExits(w, ok);
      case _ =>
    }
  }

  /**
    A call leaves the registry exactly when its channel or its media channel is reported
    destroyed, a request of its media setup fails, a queued event's handler fails, the
    deferred cleanup runs, or originate fails; and its last snapshot says which: the verdict
    on the evidence, or the gateway's own reason. Only a failed durable start leaves none.
   */
  lemma LeavesIff(moves: seq<Move>, move: Move)
    requires Run(moves).inRegistry
    ensures var w, u := Run(moves), Run(moves + [move]);
            if move == OriginateRuns(false) && w.originate.Starting? then !u.inRegistry && u.log == w.log == []
            else ExitsAs(w, u, WhyItEnds(w, move, u, Arrived(moves + [move])), LateOf(move))
  {
    RunKeeps(moves);
    RunLinks(moves);
    RunFits(moves);
    RunSnoc(moves, move);
    assert (moves + [move])[..|moves|] == moves;
    hide Run;
    if move == OriginateRuns(false) && Run(moves).originate.Starting? {
      hide Core, InOrder, LossExplained, Exclusive, Linked, Fitting;
    } else {
      hide Inv, Linked, Fitting, Next, WhyItEnds, ExitsAs;
      StepExits(Run(moves), move, Arrived(moves));
    }
  }
}
