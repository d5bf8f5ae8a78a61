/**
  Whether the call that an activation starts on is still registered. The claim is not
  preceded by a look at the registry, so a deferred cleanup may have come between.
 */
module CallClaims {
  import opened Basics
  import opened CallSignals
  import opened CallMachine
  import opened CallSafety
  import opened CallTheorems

  /** A frame in which a handler may still go on to claim the call. */
  predicate Working(frame: Frame) { !frame.Deleting? && !CleaningUp(frame) }

  /** The deferred cleanup has run or is running. */
  predicate EnderBegan(w: World) { w.ender.EnderBusy? || w.ender.EnderDone? }

  /** While a handler works on the call, only the deferred cleanup can have taken it out of the registry. */
  predicate Accountable(w: World) {
    && (w.ender.EnderSleeping? ==> w.inRegistry)
    && (EnderBegan(w) ==> !w.inRegistry)
    && (w.listener.ListenerBusy? && Working(w.listener.frame) && !w.inRegistry ==> EnderBegan(w))
    && (w.drain.DrainBusy? && Working(w.drain.frame) && !w.inRegistry ==> EnderBegan(w))
  }

  /** One segment: the registry only loses the call to a cleanup, and an activation notes the registry as it is. */
  predicate Segment(w: World, u: World, out: Outcome) {
    && (|| (u.inRegistry == w.inRegistry && u.ender == w.ender)
        || (u.inRegistry && w.inRegistry && w.ender.NoEnder? && u.ender.EnderSleeping?)
        || (w.inRegistry && !u.inRegistry && u.ender == if w.ender.EnderSleeping? then EnderDone else w.ender))
    && (out.Suspended? && Working(out.frame) ==> u.inRegistry == w.inRegistry)
    && (u.starts == w.starts || Started(w, u))
  }

  predicate Started(w: World, u: World) {
    |u.starts| == |w.starts| + 1 && u.starts[|w.starts|].registered == w.inRegistry
  }

  lemma ContinueSegment(w: World, after: After)
    ensures var (u, out) := Continue(w, after);
            && Segment(w, u, out) && u.inRegistry == w.inRegistry && u.ender == w.ender
            && u.drain == w.drain && u.listener == w.listener
            && (after.ToClose? || after.ToReturn? ==> u.starts == w.starts && !(out.Suspended? && Working(out.frame)))
  {}

  lemma PublishSegment(w: World, s: Status, after: After)
    ensures var (u, out) := Publish(w, s, after);
            && Segment(w, u, out) && u.inRegistry == w.inRegistry && u.ender == w.ender
            && u.drain == w.drain && u.listener == w.listener
            && (after.ToReturn? ==> u.starts == w.starts)
  {
    ContinueSegment(w, after);
    hide Continue;
  }

  lemma CleanupSegment(w: World, override: Option<Reason>, raises: bool, late: bool)
    ensures var (u, out) := Cleanup(w, override, raises, late);
            && Segment(w, u, out) && !u.inRegistry && u.starts == w.starts
            && u.drain == w.drain && u.listener == w.listener
            && !(out.Suspended? && Working(out.frame))
  {}

  lemma ResumeSegment(w: World, frame: Frame, ok: bool, late: bool)
    ensures var (u, out) := Resume(w, frame, ok, late);
            && Segment(w, u, out) && u.drain == w.drain && u.listener == w.listener
            && (!Working(frame) ==> u.inRegistry == w.inRegistry && u.ender == w.ender
                                    && u.starts == w.starts && !(out.Suspended? && Working(out.frame)))
  {
    CleanupSegment(w, Some(MediaFailed), true, late);
    PublishSegment(w, Answered, ToBridge);
    if frame.Recording? {
      ContinueSegment(w.(recorded := w.recorded + [frame.snap]), frame.after);
    }
    if frame.Sending? {
      ContinueSegment(w, frame.after);
    }
    hide Cleanup, Continue, Publish;
  }

  lemma HandleSegment(w: World, ev: Event, late: bool)
    ensures var (u, out) := Handle(w, ev, late);
            && Segment(w, u, out) && u.drain == w.drain && u.listener == w.listener
            && (!Matched(w, ev.leg) ==> u == w && !(out.Suspended? && Working(out.frame)))
            && (out.Suspended? && Working(out.frame) ==> w.inRegistry)
  {
    hide Publish, Cleanup;
    match ev {
      case Dial(leg, report) =>
        var w1 := w.(call := WithDial(w.call, if report.Known? then Some(report.dial) else None));
        PublishSegment(w1, Ringing, ToReturn);
        PublishSegment(w1, Answered, ToReturn);
      case Destroyed(leg, cause) =>
        var w1 := if leg == Media then w else w.(call := WithDestroyCause(w.call, cause));
        CleanupSegment(w1, None, false, late);
        CleanupSegment(w1, Some(MediaFailed), false, late);
      case StateChange(leg, state) =>
        PublishSegment(w, Ringing, ToReturn);
        PublishSegment(w, Answered, ToAnsweredUp);
      case StasisStart(leg, up) =>
        PublishSegment(w.(call := w.call.(inStasis := true)), Answered, ToClaim);
      case _ =>
    }
  }

  // ------------------------------------------------------------------------ moves

  /** What a move does to the claims: it keeps `Accountable`, and a new start notes the registry. */
  predicate Claims(w: World, u: World) {
    Accountable(u) && (u.starts == w.starts || Started(w, u))
  }

  lemma ArrivalClaims(w: World, ev: Event, late: bool)
    requires Inv(w) && Accountable(w)
    ensures Claims(w, Arrive(w, ev, late))
  {
    hide Inv, Handle, FrameOk, CleaningUp, Segment, Claims, ListenerTo;
    ClaimsNothing(w, w.(pending := Arrive(w, ev, late).pending, fates := Arrive(w, ev, late).fates,
                        drain := if w.drain.NoDrain? then DrainWaiting else w.drain));
    ClaimsNothing(w, w);
    var w0 := if Matched(w, ev.leg) then w.(fates := w.fates + [Handled], handled := w.handled + [|w.fates|])
              else if Own(w, ev.leg) then w.(fates := w.fates + [Lost(true, |w.fates|)])
              else w;
    HandleSegment(w0, ev, late);
    var (u, out) := Handle(w0, ev, late);
    if w.listener.ListenerIdle? && (w.drain.NoDrain? || !Matched(w, ev.leg)) {
      ListenerToClaims(w, w0, u, out);
    }
  }

  lemma ClaimsNothing(w: World, u: World)
    requires Accountable(w) && u.ender == w.ender && u.inRegistry == w.inRegistry && u.starts == w.starts
    requires u.listener == w.listener && (u.drain == w.drain || u.drain.DrainWaiting?)
    ensures Claims(w, u)
  {}

  lemma ListenerToClaims(w: World, w0: World, u: World, out: Outcome)
    requires Accountable(w) && w0 == w.(fates := w0.fates, handled := w0.handled) && w.listener.ListenerIdle?
    requires Segment(w0, u, out) && u.drain == w.drain
    requires (w.drain.NoDrain? && (out.Suspended? && Working(out.frame) ==> w.inRegistry))
          || (u == w0 && !(out.Suspended? && Working(out.frame)))
    ensures Claims(w, ListenerTo(u, out))
  {}

  lemma ListenerClaims(w: World, ok: bool, late: bool)
    requires Inv(w) && Accountable(w)
    ensures Claims(w, ListenerStep(w, ok, late))
  {
    hide Core, Gated, InOrder, LossExplained, Resume, FrameOk;
    if w.listener.ListenerBusy? {
      ResumeSegment(w, w.listener.frame, ok, late);
    }
  }

  lemma DrainClaims(w: World, ok: bool, late: bool)
    requires Inv(w) && Accountable(w)
    ensures Claims(w, DrainStep(w, ok, late))
  {
    hide Core, Gated, InOrder, LossExplained, Resume, Handle, FrameOk, DrainTo;
    match w.drain {
      case DrainLooping =>
        if w.pending != [] && w.inRegistry {
          var w0 := Popped(w);
          HandleSegment(w0, w.pending[0].event, late);
          DrainToClaims(w0, Handle(w0, w.pending[0].event, late).0, Handle(w0, w.pending[0].event, late).1, late);
        }
      case DrainBusy(frame) =>
        ResumeSegment(w, frame, ok, late);
        DrainToClaims(w, Resume(w, frame, ok, late).0, Resume(w, frame, ok, late).1, late);
      case DrainCleaning(frame) =>
        ResumeSegment(w, frame, ok, late);
      case _ =>
    }
  }

  lemma DrainToClaims(w: World, u: World, out: Outcome, late: bool)
    requires Accountable(w) && Segment(w, u, out) && u.drain == w.drain && u.listener == w.listener
    requires !Touches(w.listener)
    requires out.Suspended? && Working(out.frame) && !w.inRegistry ==> EnderBegan(w)
    ensures Claims(w, DrainTo(u, out, late))
  {
    hide Cleanup;
    CleanupSegment(u, Some(EventFailed), false, late);
  }

  lemma EnderClaims(w: World, ok: bool, late: bool)
    requires Inv(w) && Accountable(w)
    ensures Claims(w, EnderStep(w, ok, late))
  {
    hide Core, Gated, InOrder, LossExplained, Resume, FrameOk, Cleanup;
    CleanupSegment(w, None, false, late);
    if w.ender.EnderBusy? {
      ResumeSegment(w, w.ender.frame, ok, late);
    }
  }

  lemma OriginateClaims(w: World, ok: bool)
    requires Inv(w) && Accountable(w)
    ensures Claims(w, OriginateStep(w, ok)) && OriginateStep(w, ok).starts == w.starts
  {
    hide Core, InOrder, LossExplained, Exclusive, Resume, FrameOk, Publish;
    PublishSegment(w, CallSignals.Dialing, ToReturn);
    if w.originate.PublishingDialing? {
      DialingResumes(w, ok);
      ResumeSegment(w, w.originate.frame, ok, false);
    }
  }

  lemma NextClaims(w: World, move: Move)
    requires Inv(w) && Accountable(w)
    ensures Claims(w, Next(w, move))
  {
    hide Inv, Arrive, ListenerStep, DrainStep, EnderStep, OriginateStep;
    match move {
      case EventArrives(ev, late) => ArrivalClaims(w, ev, late);
      case ListenerRuns(ok, late) => ListenerClaims(w, ok, late);
      case DrainRuns(ok, late) => DrainClaims(w, ok, late);
      case EnderRuns(ok, late) => EnderClaims(w, ok, late);
      case OriginateRuns(ok) => OriginateClaims(w, ok);
      case PartnerLeaves =>
      case PartnerAsksEnd(_) =>
    }
  }

  lemma {:induction false} RunAccountable(moves: seq<Move>)
    ensures Accountable(Run(moves))
  {
    hide Next;
    if moves != [] {
      var before := moves[..|moves| - 1];
      hide Accountable;
      RunAccountable(before);
      RunKeeps(before);
      NextClaims(Run(before), moves[|moves| - 1]);
    }
  }

  /**
    An activation starts on a call that is still registered exactly when the deferred
    cleanup has not begun: nothing else can end the call between the check and the claim.
   */
  lemma ActivationFindsTheCallIff(moves: seq<Move>, move: Move)
    requires |Run(moves + [move]).starts| > |Run(moves).starts|
    ensures var w, u := Run(moves), Run(moves + [move]);
            && |u.starts| == 1 && w.starts == []
            && (u.starts[0].registered <==> w.inRegistry)
            && (w.inRegistry <==> w.ender.NoEnder? || w.ender.EnderSleeping?)
  {
    RunKeeps(moves);
    RunSnoc(moves, move);
    RunAccountable(moves);
    NextClaims(Run(moves), move);
    ActivatesAtMostOnce(moves + [move]);
    hide Run;
    StartedByAHandler(Run(moves), move);
  }

  /** Only a handler that works on the call starts an activation. */
  lemma StartedByAHandler(w: World, move: Move)
    requires Inv(w) && Accountable(w) && Next(w, move).starts != w.starts
    ensures w.inRegistry || EnderBegan(w)
  {
    hide Core, Gated, InOrder, LossExplained, FrameOk, Resume, Handle, Cleanup;
    match move {
      case EventArrives(ev, late) =>
        UnmatchedStartsNothing(w, ev, late);
      case ListenerRuns(ok, late) =>
        if w.listener.ListenerBusy? {
          ResumeSegment(w, w.listener.frame, ok, late);
        }
      case DrainRuns(ok, late) =>
        DrainStartsOnlyWorking(w, ok, late);
      case OriginateRuns(ok) =>
        OriginateClaims(w, ok);
      case _ =>
    }
  }

  lemma UnmatchedStartsNothing(w: World, ev: Event, late: bool)
    requires Arrive(w, ev, late).starts != w.starts
    ensures w.inRegistry
  {
    var matched := Matched(w, ev.leg);
    var w0 := if matched then w.(fates := w.fates + [Handled], handled := w.handled + [|w.fates|])
              else if Own(w, ev.leg) then w.(fates := w.fates + [Lost(true, |w.fates|)])
              else w;
    HandleSegment(w0, ev, late);
    hide Handle;
  }

  lemma DrainStartsOnlyWorking(w: World, ok: bool, late: bool)
    requires Inv(w) && Accountable(w) && DrainStep(w, ok, late).starts != w.starts
    ensures w.inRegistry || EnderBegan(w)
  {
    hide Core, Gated, InOrder, LossExplained, FrameOk, Resume, Handle, Cleanup;
    if w.drain.DrainBusy? || w.drain.DrainCleaning? {
      ResumeSegment(w, w.drain.frame, ok, late);
      CleanupSegment(Resume(w, w.drain.frame, ok, late).0, Some(EventFailed), false, late);
    }
  }

  // ------------------------------------------------------------- and it does happen

  /** Asterisk has taken the originate. */
  lemma PostedQuietly() returns (moves: seq<Move>, w: World)
    ensures w == Run(moves) == RESERVED_WORLD.(originate := Acknowledging)
  {
    moves, w := [], RESERVED_WORLD;
    assert Run(moves) == w;
    hide Run, DrainStep, ListenerStep, EnderStep, Arrive, Cleanup, Termination, Resume;
    moves, w := Took(moves, w, OriginateRuns(true));
    moves, w := Took(moves, w, OriginateRuns(true));
  }

  /** Accepted, nothing queued, no handler at work. */
  lemma AcceptedQuietly() returns (moves: seq<Move>, w: World)
    ensures w == Run(moves) && w.inRegistry && w.partner && w.accepted && w.drain.NoDrain? && w.ender.NoEnder?
    ensures w.listener.ListenerIdle? && w.originate.OriginateDone? && w.starts == []
    ensures w.call == Moved(RESERVED, CallSignals.Dialing)
  {
    moves, w := PostedQuietly();
    hide Run, DrainStep, ListenerStep, EnderStep, Arrive, Cleanup, Termination;
    moves, w := Took(moves, w, OriginateRuns(true));
    moves, w := Took(moves, w, OriginateRuns(true));
    moves, w := Took(moves, w, OriginateRuns(true));
  }

  /** The channel entered Stasis unanswered and left it: the deferred cleanup sleeps. */
  lemma LeftStasis() returns (moves: seq<Move>, w: World)
    ensures w == Run(moves) && w.inRegistry && w.partner && w.accepted && w.drain.NoDrain? && w.ender.EnderSleeping?
    ensures w.listener.ListenerIdle? && w.originate.OriginateDone? && w.starts == []
    ensures w.call == Moved(RESERVED, CallSignals.Dialing)
  {
    moves, w := AcceptedQuietly();
    hide Run, DrainStep, ListenerStep, EnderStep, OriginateStep, Cleanup, Termination, Publish;
    moves, w := Took(moves, w, EventArrives(StasisStart(Main, false), false));
    moves, w := Took(moves, w, EventArrives(StasisEnd(Main), false));
  }

  /** It entered again and is up: the deferred cleanup sleeps while the answer is being recorded. */
  lemma BackInStasis() returns (moves: seq<Move>, w: World)
    ensures w == Run(moves) && w.inRegistry && w.partner && w.starts == [] && w.ender.EnderSleeping?
    ensures w.call.answered && w.call.inStasis && !w.call.activating && !w.call.bridged
    ensures w.listener.ListenerBusy? && w.listener.frame.Recording? && w.listener.frame.after.ToClaim?
    ensures !w.listener.frame.snap.Terminal()
  {
    moves, w := LeftStasis();
    hide Run, DrainStep, ListenerStep, EnderStep, OriginateStep, Cleanup, Termination;
    moves, w := Took(moves, w, EventArrives(StasisStart(Main, true), false));
  }

  /**
    A claim that resumes after the deferred cleanup starts to activate a call that has
    ended: the channel entered Stasis, left it, and was up when it entered again.
   */
  lemma ClaimCanOutliveTheCall() returns (moves: seq<Move>)
    ensures Run(moves).starts == [Start(true, true, false)]
    ensures !Run(moves).inRegistry && Run(moves).call.status.Ended?
  {
    var w;
    moves, w := BackInStasis();
    hide Run, DrainStep, OriginateStep, Arrive, Handle;
    moves, w := Took(moves, w, EnderRuns(true, false));
    moves, w := Took(moves, w, ListenerRuns(true, false));
    moves, w := Took(moves, w, ListenerRuns(true, false));
  }
}
