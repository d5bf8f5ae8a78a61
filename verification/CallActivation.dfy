/**
  When a call is activated. The answer may be heard in several ways and told to the partner
  first; what counts afterwards is which event was handled last, and how the call then stands.
 */
module CallActivation {
  import opened Basics
  import opened CallSignals
  import opened CallMachine
  import opened CallSafety
  import opened CallLosses
  import opened CallTheorems
  import opened CallEndings

  /** The last of the call's events that was handled, `arrived` being all of them in order. */
  function LastHandled(w: World, arrived: seq<Event>): Option<Event> {
    if w.handled == [] || w.handled[|w.handled| - 1] >= |arrived| then None
    else Some(arrived[w.handled[|w.handled| - 1]])
  }

  /** The callee's channel went up, or entered Stasis. */
  predicate CallsForActivation(ev: Event) {
    ev == StateChange(Main, StateUp) || (ev.StasisStart? && ev.leg == Main)
  }

  /** A handler that is telling the answer. */
  predicate TellsAnswer(frame: Frame) {
    (frame.Recording? || frame.Sending?) && frame.snap.status == Answered
  }

  /** What a handler of `ev` does once it has told the answer. */
  predicate Fits(ev: Event, frame: Frame) {
    && (TellsAnswer(frame) ==>
        if ev == StateChange(Main, StateUp) then frame.after.ToAnsweredUp?
        else if ev.StasisStart? && ev.leg == Main then frame.after.ToClaim?
        else frame.after.ToReturn?)
    && ((frame.Recording? || frame.Sending?) && !TellsAnswer(frame) ==> frame.after.ToReturn? || frame.after.ToClose?)
  }

  /** Whoever works on the call is handling the event that was handled last. */
  ghost predicate Fitting(w: World, arrived: seq<Event>) {
    && (Touches(w.listener) ==> LastHandled(w, arrived).Some? && Fits(LastHandled(w, arrived).value, w.listener.frame))
    && (w.drain.DrainBusy? ==> LastHandled(w, arrived).Some? && Fits(LastHandled(w, arrived).value, w.drain.frame))
  }

  lemma ContinueFits(w: World, after: After, ev: Event)
    ensures var out := Continue(w, after).1;
            out.Suspended? ==> Fits(ev, out.frame)
  {}

  lemma CleanupFits(w: World, override: Option<Reason>, raises: bool, late: bool, ev: Event)
    ensures var out := Cleanup(w, override, raises, late).1;
            out.Suspended? ==> Fits(ev, out.frame)
  {
    hide Termination;
  }

  lemma ActivatingIsAnswered(w: World)
    requires Core(w) && w.call.activating
    ensures w.call.answered && Suppressed(w.call, Answered)
  {}

  lemma ResumeFits(w: World, frame: Frame, ok: bool, late: bool, ev: Event)
    requires Core(w) && FrameOk(w, frame) && Fits(ev, frame)
    ensures var out := Resume(w, frame, ok, late).1;
            out.Suspended? ==> Fits(ev, out.frame)
  {
    if w.call.activating {
      ActivatingIsAnswered(w);
    }
    CleanupFits(w, Some(MediaFailed), true, late, ev);
    if frame.Recording? {
      ContinueFits(w.(recorded := w.recorded + [frame.snap]), frame.after, ev);
    }
    if frame.Sending? {
      ContinueFits(w, frame.after, ev);
    }
    ContinueFits(w, ToBridge, ev);
    hide Core, Cleanup, Continue;
  }

  lemma HandleFits(w: World, ev: Event, late: bool)
    ensures var out := Handle(w, ev, late).1;
            out.Suspended? ==> Fits(ev, out.frame)
  {
    hide Cleanup, Continue;
    match ev {
      case Destroyed(leg, cause) =>
        var w1 := if leg == Media then w else w.(call := WithDestroyCause(w.call, cause));
        CleanupFits(w1, None, false, late, ev);
        CleanupFits(w1, Some(MediaFailed), false, late, ev);
      case Dial(leg, report) =>
        var w1 := w.(call := WithDial(w.call, if report.Known? then Some(report.dial) else None));
        ContinueFits(w1, ToReturn, ev);
      case StateChange(leg, state) =>
        ContinueFits(w, ToReturn, ev);
        ContinueFits(w, ToAnsweredUp, ev);
      case StasisStart(leg, up) =>
        ContinueFits(w.(call := w.call.(inStasis := true)), ToClaim, ev);
      case _ =>
    }
  }

  // --------------------------------------------------------------- what keeps it so

  lemma FitsStay(w: World, u: World, arrived: seq<Event>, more: seq<Event>)
    requires Fitting(w, arrived) && u.handled == w.handled
    requires Touches(u.listener) ==> u.listener == w.listener
    requires u.drain.DrainBusy? ==> u.drain == w.drain
    ensures Fitting(u, arrived + more)
  {}

  lemma ListenerFits(w: World, ok: bool, late: bool, arrived: seq<Event>)
    requires Inv(w) && Fitting(w, arrived)
    ensures Fitting(ListenerStep(w, ok, late), arrived)
  {
    hide Core, Gated, InOrder, LossExplained, Resume, FrameOk, Grown, Fits;
    if w.listener.ListenerBusy? {
      if w.listener.frame.Deleting? {
        DeletingEnds(w, ok, late);
      } else {
        ResumeKeeps(w, w.listener.frame, ok, late);
        ResumeFits(w, w.listener.frame, ok, late, LastHandled(w, arrived).value);
      }
      var u := Resume(w, w.listener.frame, ok, late).0;
      GrownIsQuiet(w, u);
      assert u.drain == w.drain;
    }
  }

  lemma ArrivalFits(w: World, ev: Event, late: bool, arrived: seq<Event>)
    requires Inv(w) && Linked(w, arrived) && Fitting(w, arrived)
    ensures Fitting(Arrive(w, ev, late), arrived + Newly(w, EventArrives(ev, late)))
  {
    hide Core, Gated, InOrder, LossExplained, Handle, FrameOk, Fits;
    var more := Newly(w, EventArrives(ev, late));
    if !w.listener.ListenerIdle? || (Matched(w, ev.leg) && (!w.accepted || !w.drain.NoDrain?)) {
      FitsStay(w, Arrive(w, ev, late), arrived, more);
    } else {
      var w0 := Begun(w, ev);
      CoreOnlyReads(w, w0);
      HandleKeeps(w0, ev, late);
      var (u, out) := Handle(w0, ev, late);
      GrownIsQuiet(w0, u);
      HandleFits(w0, ev, late);
      hide Grown;
      if Matched(w, ev.leg) {
        assert (arrived + more)[|w.fates|] == ev;
      } else {
        FitsStay(w, Arrive(w, ev, late), arrived, more);
      }
    }
  }

  lemma DrainFits(w: World, ok: bool, late: bool, arrived: seq<Event>)
    requires Inv(w) && Linked(w, arrived) && Fitting(w, arrived)
    ensures Fitting(DrainStep(w, ok, late), arrived)
  {
    hide Core, Gated, InOrder, LossExplained, Resume, Cleanup, Handle, FrameOk, Grown, DrainTo, Fits;
    match w.drain {
      case DrainLooping =>
        if w.pending != [] && w.inRegistry {
          var ev := w.pending[0].event;
          CoreOnlyReads(w, Popped(w));
          HandleKeeps(Popped(w), ev, late);
          HandleFits(Popped(w), ev, late);
          var (u, out) := Handle(Popped(w), ev, late);
          GrownIsQuiet(Popped(w), u);
          assert w.pending[0] in w.pending;
          NumberWaits(w);
          DrainToFits(u, out, late, arrived, ev);
        }
      case DrainBusy(frame) =>
        var ev := LastHandled(w, arrived).value;
        ResumeKeeps(w, frame, ok, late);
        ResumeFits(w, frame, ok, late, ev);
        var (u, out) := Resume(w, frame, ok, late);
        GrownIsQuiet(w, u);
        DrainToFits(u, out, late, arrived, ev);
      case DrainCleaning(frame) =>
        ResumeKeeps(w, frame, ok, late);
        GrownIsQuiet(w, Resume(w, frame, ok, late).0);
      case _ =>
    }
  }

  lemma DrainToFits(w: World, out: Outcome, late: bool, arrived: seq<Event>, ev: Event)
    requires Core(w) && !Touches(w.listener) && LastHandled(w, arrived) == Some(ev)
    requires out.Suspended? ==> Fits(ev, out.frame)
    ensures Fitting(DrainTo(w, out, late), arrived)
  {
    CleanupKeeps(w, Some(EventFailed), false, late);
    hide Core, Cleanup, Fits;
  }

  lemma OthersFit(w: World, move: Move, arrived: seq<Event>)
    requires Inv(w) && Fitting(w, arrived)
    requires move.EnderRuns? || move.OriginateRuns? || move.PartnerLeaves? || move.PartnerAsksEnd?
    ensures Fitting(Next(w, move), arrived)
  {
    OthersAreQuiet(w, move);
    OthersLeaveListener(w, move);
    hide Inv, Next;
    assert arrived + [] == arrived;
    FitsStay(w, Next(w, move), arrived, []);
  }

  lemma OthersLeaveListener(w: World, move: Move)
    requires Inv(w) && (move.EnderRuns? || move.OriginateRuns? || move.PartnerLeaves? || move.PartnerAsksEnd?)
    ensures Next(w, move).listener == w.listener
  {
    hide Core, Gated, InOrder, LossExplained, Resume, Cleanup, FrameOk;
    match move {
      case EnderRuns(ok, late) =>
        CleanupKeeps(w, None, false, late);
        if w.ender.EnderBusy? {
          ResumeKeeps(w, w.ender.frame, ok, late);
        }
      case OriginateRuns(ok) =>
        OriginateLeavesListener(w, ok);
      case _ =>
    }
  }

  lemma OriginateLeavesListener(w: World, ok: bool)
    requires Inv(w)
    ensures OriginateStep(w, ok).listener == w.listener
  {
    hide Core, InOrder, LossExplained, Exclusive, Resume, FrameOk;
    if w.originate.PublishingDialing? {
      DialingResumes(w, ok);
    }
  }

  lemma {:induction false} RunFits(moves: seq<Move>)
    ensures Fitting(Run(moves), Arrived(moves))
  {
    if moves == [] {
      assert Run(moves) == RESERVED_WORLD;
    } else {
      var before, last := moves[..|moves| - 1], moves[|moves| - 1];
      RunFits(before);
      RunKeeps(before);
      RunLinks(before);
      hide Inv, Linked, Fitting, Next;
      StepFits(Run(before), last, Arrived(before));
    }
  }

  lemma StepFits(w: World, move: Move, arrived: seq<Event>)
    requires Inv(w) && Linked(w, arrived) && Fitting(w, arrived)
    ensures Fitting(Next(w, move), arrived + Newly(w, move))
  {
    hide Linked, Fitting, Arrive, DrainStep, ListenerStep, EnderStep, OriginateStep;
    if !move.EventArrives? {
      assert arrived + Newly(w, move) == arrived;
    }
    match move {
      case EventArrives(ev, late) => ArrivalFits(w, ev, late, arrived);
      case ListenerRuns(ok, late) => ListenerFits(w, ok, late, arrived);
      case DrainRuns(ok, late) => DrainFits(w, ok, late, arrived);
      case _ => OthersFit(w, move, arrived);
    }
  }

  // ------------------------------------------------------------------ when a start is made

  /** Nobody has claimed the call, and its channel is in Stasis. */
  predicate Claimable(c: Call) { c.inStasis && !c.activating && !c.bridged }

  /** The handler in `frame` finishes telling the answer: there is no partner left to tell, or it was sent. */
  predicate ToldIn(w: World, frame: Frame, ok: bool) {
    TellsAnswer(frame) && if frame.Recording? then !w.partner else ok
  }

  /** The move lets the handler at work finish telling the answer. */
  predicate Told(w: World, move: Move) {
    || (move.ListenerRuns? && w.listener.ListenerBusy? && ToldIn(w, w.listener.frame, move.ok))
    || (move.DrainRuns? && w.drain.DrainBusy? && ToldIn(w, w.drain.frame, move.ok))
  }

  /** Once the answer is told, the event that was handled last claims the call, if it still may. */
  predicate ClaimsAfterTelling(w: World, last: Option<Event>) {
    && last.Some? && CallsForActivation(last.value) && Claimable(w.call)
    && (last.value.StateChange? ==> w.partner)
  }

  /** An event claims the call at once if the call is answered already. */
  predicate ClaimsAtOnce(w: World, ev: Event) {
    && CallsForActivation(ev) && w.call.answered && w.partner && !w.call.activating && !w.call.bridged
    && (ev.StateChange? ==> w.call.inStasis)
  }

  lemma ContinueStarts(w: World, after: After)
    ensures var u := Continue(w, after).0;
            u.starts != w.starts <==> after.ToClaim? || (after.ToAnsweredUp? && Claimable(w.call) && w.partner)
  {}

  lemma CleanupStartsNothing(w: World, override: Option<Reason>, raises: bool, late: bool)
    ensures Cleanup(w, override, raises, late).0.starts == w.starts
  {
    hide Termination;
  }

  lemma AnswerIsSuppressed(w: World)
    requires Core(w) && w.call.answered && w.inRegistry
    ensures Suppressed(w.call, Answered)
  {}

  lemma ResumeStarts(w: World, frame: Frame, ok: bool, late: bool, ev: Event)
    requires Core(w) && FrameOk(w, frame) && Fits(ev, frame)
    ensures var u := Resume(w, frame, ok, late).0;
            u.starts != w.starts <==> ToldIn(w, frame, ok) && ClaimsAfterTelling(w, Some(ev))
  {
    CleanupStartsNothing(w, Some(MediaFailed), true, late);
    if frame.Recording? {
      ContinueStarts(w.(recorded := w.recorded + [frame.snap]), frame.after);
    }
    if frame.Sending? {
      ContinueStarts(w, frame.after);
    }
    ContinueStarts(w, ToBridge);
    hide Core, Continue, Cleanup;
  }

  lemma HandleStarts(w: World, ev: Event, late: bool)
    requires Core(w) && Matched(w, ev.leg)
    ensures var u := Handle(w, ev, late).0;
            u.starts != w.starts <==> ClaimsAtOnce(w, ev)
  {
    if w.call.answered {
      AnswerIsSuppressed(w);
    }
    hide Core, Cleanup, Continue;
    match ev {
      case Destroyed(leg, cause) =>
        var w1 := if leg == Media then w else w.(call := WithDestroyCause(w.call, cause));
        CleanupStartsNothing(w1, None, false, late);
        CleanupStartsNothing(w1, Some(MediaFailed), false, late);
      case Dial(leg, report) =>
        var w1 := w.(call := WithDial(w.call, if report.Known? then Some(report.dial) else None));
        ContinueStarts(w1, ToReturn);
      case StateChange(leg, state) =>
        ContinueStarts(w, ToReturn);
        ContinueStarts(w, ToAnsweredUp);
      case StasisStart(leg, up) =>
        ContinueStarts(w.(call := w.call.(inStasis := true)), ToClaim);
      case _ =>
    }
  }

  /** The move starts the activation, as the last event and the call then stand. */
  ghost predicate Begins(w: World, move: Move, arrived: seq<Event>, u: World, now: seq<Event>) {
    || (Told(w, move) && ClaimsAfterTelling(w, LastHandled(w, arrived)))
    || (u.handled != w.handled && LastHandled(u, now).Some? && ClaimsAtOnce(w, LastHandled(u, now).value))
  }

  lemma ListenerStarts(w: World, ok: bool, late: bool, arrived: seq<Event>)
    requires Inv(w) && Fitting(w, arrived)
    ensures var u := ListenerStep(w, ok, late);
            && u.handled == w.handled
            && (u.starts != w.starts <==>
                Told(w, ListenerRuns(ok, late)) && ClaimsAfterTelling(w, LastHandled(w, arrived)))
  {
    hide Core, Gated, InOrder, LossExplained, Resume, FrameOk, Grown, Fits, CallsForActivation;
    if w.listener.ListenerBusy? {
      if w.listener.frame.Deleting? {
        DeletingEnds(w, ok, late);
      } else {
        ResumeKeeps(w, w.listener.frame, ok, late);
        ResumeStarts(w, w.listener.frame, ok, late, LastHandled(w, arrived).value);
        GrownIsQuiet(w, Resume(w, w.listener.frame, ok, late).0);
      }
    }
  }

  lemma ArrivalStarts(w: World, ev: Event, late: bool, arrived: seq<Event>)
    requires Inv(w) && Linked(w, arrived)
    ensures var u, now := Arrive(w, ev, late), arrived + Newly(w, EventArrives(ev, late));
            u.starts != w.starts <==>
              u.handled != w.handled && LastHandled(u, now).Some? && ClaimsAtOnce(w, LastHandled(u, now).value)
  {
    hide Core, Gated, InOrder, LossExplained, Handle, FrameOk, CallsForActivation;
    if w.listener.ListenerIdle? && !(Matched(w, ev.leg) && (!w.accepted || !w.drain.NoDrain?)) {
      var w0, now := Begun(w, ev), arrived + Newly(w, EventArrives(ev, late));
      CoreOnlyReads(w, w0);
      HandleKeeps(w0, ev, late);
      var (u, out) := Handle(w0, ev, late);
      GrownIsQuiet(w0, u);
      hide Grown;
      if Matched(w, ev.leg) {
        HandleStarts(w0, ev, late);
        assert now[|w.fates|] == ev;
      }
    }
  }

  lemma DrainStarts(w: World, ok: bool, late: bool, arrived: seq<Event>)
    requires Inv(w) && Linked(w, arrived) && Fitting(w, arrived)
    ensures Begins(w, DrainRuns(ok, late), arrived, DrainStep(w, ok, late), arrived)
            <==> DrainStep(w, ok, late).starts != w.starts
  {
    hide Core, Gated, InOrder, LossExplained, Resume, Cleanup, Handle, FrameOk, Grown, DrainTo, Fits;
    hide CallsForActivation;
    match w.drain {
      case DrainLooping =>
        if w.pending != [] && w.inRegistry {
          var ev := w.pending[0].event;
          CoreOnlyReads(w, Popped(w));
          HandleKeeps(Popped(w), ev, late);
          assert w.pending[0] in w.pending;
          NumberWaits(w);
          HandleStarts(Popped(w), ev, late);
          var (u, out) := Handle(Popped(w), ev, late);
          GrownIsQuiet(Popped(w), u);
          DrainToStartsNothing(u, out, late);
        }
      case DrainBusy(frame) =>
        ResumeKeeps(w, frame, ok, late);
        ResumeStarts(w, frame, ok, late, LastHandled(w, arrived).value);
        var (u, out) := Resume(w, frame, ok, late);
        GrownIsQuiet(w, u);
        DrainToStartsNothing(u, out, late);
      case DrainCleaning(frame) =>
        ResumeKeeps(w, frame, ok, late);
        GrownIsQuiet(w, Resume(w, frame, ok, late).0);
        CleaningStartsNothing(w, frame, ok, late);
      case _ =>
    }
  }

  lemma CleaningStartsNothing(w: World, frame: Frame, ok: bool, late: bool)
    requires CleaningUp(frame)
    ensures Resume(w, frame, ok, late).0.starts == w.starts
  {
    hide Cleanup;
  }

  lemma DrainToStartsNothing(w: World, out: Outcome, late: bool)
    requires Core(w)
    ensures DrainTo(w, out, late).starts == w.starts && DrainTo(w, out, late).handled == w.handled
  {
    CleanupStartsNothing(w, Some(EventFailed), false, late);
    CleanupKeeps(w, Some(EventFailed), false, late);
    hide Core, Cleanup;
  }

  lemma OthersStartNothing(w: World, move: Move)
    requires Inv(w) && (move.EnderRuns? || move.OriginateRuns? || move.PartnerLeaves? || move.PartnerAsksEnd?)
    ensures Next(w, move).starts == w.starts && Next(w, move).handled == w.handled
  {
    OthersAreQuiet(w, move);
    hide Core, Gated, InOrder, LossExplained, Resume, Cleanup, FrameOk;
    match move {
      case EnderRuns(ok, late) =>
        CleanupStartsNothing(w, None, false, late);
        if w.ender.EnderBusy? {
          CleaningStartsNothing(w, w.ender.frame, ok, late);
        }
      case OriginateRuns(ok) =>
        OriginateStartsNothing(w, ok);
      case _ =>
    }
  }

  lemma OriginateStartsNothing(w: World, ok: bool)
    requires Inv(w)
    ensures OriginateStep(w, ok).starts == w.starts
  {
    hide Core, InOrder, LossExplained, Exclusive, Resume, FrameOk;
    if w.originate.PublishingDialing? {
      DialingResumes(w, ok);
    }
  }

  lemma StepStarts(w: World, move: Move, arrived: seq<Event>)
    requires Inv(w) && Linked(w, arrived) && Fitting(w, arrived)
    ensures var u, now := Next(w, move), arrived + Newly(w, move);
            u.starts != w.starts <==> Begins(w, move, arrived, u, now)
  {
    hide Inv, Linked, Fitting, Arrive, DrainStep, ListenerStep, EnderStep, OriginateStep;
    hide ClaimsAtOnce, ClaimsAfterTelling;
    match move {
      case EventArrives(ev, late) => ArrivalStarts(w, ev, late, arrived);
      case ListenerRuns(ok, late) => ListenerStarts(w, ok, late, arrived);
      case DrainRuns(ok, late) =>
        assert arrived + Newly(w, move) == arrived;
        DrainStarts(w, ok, late, arrived);
      case _ => OthersStartNothing(w, move);
    }
  }

  lemma UnclaimedHasNoStart(w: World)
    requires Inv(w)
    ensures w.starts != [] <==> w.call.activating
    ensures w.call.activating ==> w.call.answered
  {}

  /**
    Media setup begins exactly when an answer has been told for a channel that went up or
    entered Stasis, or such an event finds the call answered already: for a call in Stasis
    that nobody has claimed, with its partner there.
   */
  lemma ActivationBeginsIff(moves: seq<Move>, move: Move)
    ensures var w, u := Run(moves), Run(moves + [move]);
            && (u.starts != w.starts <==> Begins(w, move, Arrived(moves), u, Arrived(moves + [move])))
            && (u.starts != w.starts ==> w.starts == [] && |u.starts| == 1 && u.call.activating && u.call.answered)
  {
    RunKeeps(moves);
    RunLinks(moves);
    RunFits(moves);
    RunSnoc(moves, move);
    assert (moves + [move])[..|moves|] == moves;
    StepStarts(Run(moves), move, Arrived(moves));
    RunKeeps(moves + [move]);
    ActivatesAtMostOnce(moves + [move]);
    UnclaimedHasNoStart(Run(moves));
    UnclaimedHasNoStart(Run(moves + [move]));
    hide Run, Inv;
  }
}
