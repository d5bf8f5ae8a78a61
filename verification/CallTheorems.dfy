/** What a partner may rely on, for every run of one outbound call. */
module CallTheorems {
  import opened Basics
  import opened CallSignals
  import opened CallMachine
  import opened CallSafety

  /** However listener, drain, deferred cleanup and partner interleave, media is set up at most once. */
  lemma ActivatesAtMostOnce(moves: seq<Move>)
    ensures |Run(moves).starts| <= 1
    ensures forall s | s in Run(moves).starts :: s.answered && s.inStasis
  {
    RunKeeps(moves);
  }

  /** Sequences 1, 2, ..., n with n at most 4; statuses strictly rise; only the last may be terminal. */
  lemma StatusLogRises(moves: seq<Move>)
    ensures var log := Run(moves).log;
            && (forall i | 0 <= i < |log| :: log[i].sequence == i + 1)
            && (forall i, j | 0 <= i < j < |log| :: Rank(log[i].status) < Rank(log[j].status))
            && (forall i, j | 0 <= i < j < |log| && log[i].answered :: log[j].answered)
            && |log| <= 4
            && (forall i | 0 <= i < |log| && log[i].Terminal() :: i == |log| - 1)
  {
    RunKeeps(moves);
    var log := Run(moves).log;
    hide Run;
    RisingIsShort(log);
  }

  lemma {:induction false} RankAtLeast(log: seq<Snapshot>, i: nat)
    requires Rising(log) && i < |log|
    ensures i <= Rank(log[i].status)
  {
    if i > 0 {
      RankAtLeast(log, i - 1);
    }
  }

  lemma RisingIsShort(log: seq<Snapshot>)
    requires Rising(log)
    ensures |log| <= 4
    ensures forall i | 0 <= i < |log| && log[i].Terminal() :: i == |log| - 1
  {
    if log != [] {
      RankAtLeast(log, |log| - 1);
    }
    assert forall i | 0 <= i < |log| - 1 :: Rank(log[i].status) < Rank(log[|log| - 1].status);
  }

  /** Later moves only add snapshots. */
  lemma LogOnlyGrows(moves: seq<Move>, move: Move)
    ensures Run(moves).log <= Run(moves + [move]).log
    ensures Run(moves).call.answered ==> Run(moves + [move]).call.answered
  {
    RunKeeps(moves);
    RunSnoc(moves, move);
    RunKeeps(moves + [move]);
    NextGrows(Run(moves), move);
  }

  lemma RunSnoc(moves: seq<Move>, move: Move)
    ensures Run(moves + [move]) == Next(Run(moves), move)
  {
    hide Next;
    assert (moves + [move])[..|moves|] == moves;
  }

  ghost predicate GrownLog(w: World, u: World) {
    && w.log <= u.log && (w.call.answered ==> u.call.answered) && w.handled <= u.handled
    && (!w.inRegistry ==> !u.inRegistry && u.cleanups == w.cleanups)
  }

  lemma NextGrows(w: World, move: Move)
    requires Inv(w)
    ensures GrownLog(w, Next(w, move))
  {
    hide Arrive, ListenerStep, DrainStep, EnderStep, OriginateStep;
    match move {
      case EventArrives(ev, late) => ArrivalGrows(w, ev, late);
      case ListenerRuns(ok, late) => ListenerGrows(w, ok, late);
      case DrainRuns(ok, late) => DrainGrows(w, ok, late);
      case EnderRuns(ok, late) => EnderGrows(w, ok, late);
      case OriginateRuns(ok) => OriginateGrows(w, ok);
      case PartnerLeaves =>
      case PartnerAsksEnd(_) =>
    }
    hide Inv;
  }

  lemma ListenerGrows(w: World, ok: bool, late: bool)
    requires Inv(w)
    ensures GrownLog(w, ListenerStep(w, ok, late))
  {
    hide Core, Gated, InOrder, LossExplained, Resume, FrameOk, Grown;
    if w.listener.ListenerBusy? {
      if w.listener.frame.Deleting? {
        DeletingEnds(w, ok, late);
      } else {
        ResumeKeeps(w, w.listener.frame, ok, late);
      }
      GrownIsGrownLog(w, Resume(w, w.listener.frame, ok, late).0);
    }
  }

  lemma EnderGrows(w: World, ok: bool, late: bool)
    requires Inv(w)
    ensures GrownLog(w, EnderStep(w, ok, late))
  {
    hide Core, Gated, InOrder, LossExplained, Resume, Cleanup, FrameOk, Grown;
    CleanupKeeps(w, None, false, late);
    GrownIsGrownLog(w, Cleanup(w, None, false, late).0);
    if w.ender.EnderBusy? {
      ResumeKeeps(w, w.ender.frame, ok, late);
      GrownIsGrownLog(w, Resume(w, w.ender.frame, ok, late).0);
    }
  }

  lemma ArrivalGrows(w: World, ev: Event, late: bool)
    requires Core(w)
    ensures GrownLog(w, Arrive(w, ev, late))
  {
    hide Core, Handle;
    var matched := Matched(w, ev.leg);
    var w0 := if matched then w.(fates := w.fates + [Handled], handled := w.handled + [|w.fates|])
              else if Own(w, ev.leg) then w.(fates := w.fates + [Lost(true, |w.fates|)])
              else w;
    CoreOnlyReads(w, w0);
    HandleKeeps(w0, ev, late);
  }

  lemma DrainGrows(w: World, ok: bool, late: bool)
    requires Inv(w)
    ensures GrownLog(w, DrainStep(w, ok, late))
    ensures w.drain.DrainLooping? && w.pending != [] && w.inRegistry ==> DrainStep(w, ok, late).handled != []
  {
    hide Core, Gated, InOrder, LossExplained, Resume, Cleanup, Handle, FrameOk, Grown, DrainTo;
    match w.drain {
      case DrainLooping =>
        if w.pending != [] {
          var w0 := Popped(w);
          CoreOnlyReads(w, w0);
          HandleKeeps(w0, w.pending[0].event, late);
          var (u, out) := Handle(w0, w.pending[0].event, late);
          DrainToGrows(w0, u, out, late);
        }
      case DrainBusy(frame) =>
        ResumeKeeps(w, frame, ok, late);
        var (u, out) := Resume(w, frame, ok, late);
        DrainToGrows(w, u, out, late);
      case DrainCleaning(frame) =>
        ResumeKeeps(w, frame, ok, late);
        GrownIsGrownLog(w, Resume(w, frame, ok, late).0);
      case _ =>
    }
  }

  lemma GrownIsGrownLog(w: World, u: World)
    requires Grown(w, u)
    ensures GrownLog(w, u) && u.handled == w.handled
  {}

  lemma DrainToGrows(w: World, u: World, out: Outcome, late: bool)
    requires Core(u) && Grown(w, u)
    ensures GrownLog(w, DrainTo(u, out, late)) && DrainTo(u, out, late).handled == w.handled
  {
    hide Core, Cleanup;
    CleanupKeeps(u, Some(EventFailed), false, late);
  }

  lemma OriginateGrows(w: World, ok: bool)
    requires Inv(w)
    ensures GrownLog(w, OriginateStep(w, ok))
  {
    hide Core, InOrder, LossExplained, Resume, FrameOk;
    if w.originate.PublishingDialing? {
      DialingResumes(w, ok);
    }
  }

  /** `originate` has taken, or is taking, its failure path: only it removes a call without cleaning up. */
  predicate FailedToOriginate(w: World) {
    || w.originate.RecordingFailure? || w.originate.DeletingChannels?
    || (!w.inRegistry && w.cleanups == 0)
  }

  /**
    Nothing is done on the call's events until acceptance and dialing are published,
    and nothing ever is once originate has failed, even while dialing was being sent.
   */
  lemma EventsWaitForAcceptance(moves: seq<Move>)
    ensures var w := Run(moves);
            w.handled != [] || Acted(w) ==>
              w.originate.OriginateDone? && w.accepted && w.log != [] && w.log[0].status == CallSignals.Dialing
    ensures var w := Run(moves);
            FailedToOriginate(w) ==> !w.inRegistry && w.handled == [] && !Acted(w)
  {
    RunKeeps(moves);
    CleanupNeedsEvents(moves);
    hide Run, Core, Exclusive, InOrder, LossExplained;
  }

  /** A failed originate stays failed, so this is true of every later moment too. */
  lemma FailureIsForGood(moves: seq<Move>, move: Move)
    requires FailedToOriginate(Run(moves))
    ensures FailedToOriginate(Run(moves + [move])) && Run(moves + [move]).handled == []
  {
    RunKeeps(moves);
    RunSnoc(moves, move);
    EventsWaitForAcceptance(moves);
    NextGrows(Run(moves), move);
    EventsWaitForAcceptance(moves + [move]);
    hide Run;
  }

  /** Activation and cleanup happen only after some event of the call was handled. */
  lemma {:induction false} CleanupNeedsEvents(moves: seq<Move>)
    ensures Acted(Run(moves)) ==> Run(moves).handled != []
  {
    hide Next;
    if moves != [] {
      var before, move := moves[..|moves| - 1], moves[|moves| - 1];
      CleanupNeedsEvents(before);
      RunKeeps(before);
      ActsNeedEvents(Run(before), move);
    }
  }

  /** Something has been done for the call by one of its event handlers. */
  ghost predicate Acted(w: World) {
    w.cleanups > 0 || w.starts != [] || !w.ender.NoEnder? || Touches(w.listener)
      || w.drain.DrainBusy? || w.drain.DrainCleaning?
  }

  lemma ActsNeedEvents(w: World, move: Move)
    requires Inv(w) && (Acted(w) ==> w.handled != [])
    ensures Acted(Next(w, move)) ==> Next(w, move).handled != []
  {
    hide Core, InOrder, LossExplained, Exclusive, Arrive, DrainStep, OriginateStep, ListenerStep, EnderStep;
    NextGrows(w, move);
    match move {
      case EventArrives(ev, late) => ArrivalActs(w, ev, late);
      case DrainRuns(ok, late) => DrainActs(w, ok, late);
      case OriginateRuns(ok) => OriginateActs(w, ok);
      case ListenerRuns(ok, late) => ListenerActs(w, ok, late);
      case EnderRuns(ok, late) => EnderActs(w, ok, late);
      case _ =>
    }
  }

  lemma DrainActs(w: World, ok: bool, late: bool)
    requires Inv(w) && (Acted(w) ==> w.handled != [])
    ensures Acted(DrainStep(w, ok, late)) ==> w.handled != [] || DrainStep(w, ok, late).handled != []
  {
    hide Core, InOrder, LossExplained, Exclusive, Gated, Resume, Cleanup, Handle;
    DrainGrows(w, ok, late);
  }

  lemma OriginateActs(w: World, ok: bool)
    requires Inv(w) && (Acted(w) ==> w.handled != [])
    ensures Acted(OriginateStep(w, ok)) ==> w.handled != []
  {
    hide Core, InOrder, LossExplained, Exclusive, FrameOk, Resume;
    if w.originate.PublishingDialing? {
      DialingResumes(w, ok);
    }
  }

  lemma ListenerActs(w: World, ok: bool, late: bool)
    requires Inv(w) && (Acted(w) ==> w.handled != [])
    ensures Acted(ListenerStep(w, ok, late)) ==> w.handled != []
  {
    hide Core, InOrder, LossExplained, Exclusive, Gated, Resume;
    if w.listener.ListenerBusy? && w.listener.frame.Deleting? {
      DeletingEnds(w, ok, late);
    }
  }

  lemma EnderActs(w: World, ok: bool, late: bool)
    requires Acted(w) ==> w.handled != []
    ensures Acted(EnderStep(w, ok, late)) ==> w.handled != []
  {
    hide Resume, Cleanup;
  }

  lemma ArrivalActs(w: World, ev: Event, late: bool)
    requires Inv(w) && (Acted(w) ==> w.handled != [])
    ensures Acted(Arrive(w, ev, late)) ==> Arrive(w, ev, late).handled != []
  {
    hide Core, InOrder, LossExplained, Exclusive, FrameOk, Handle;
    var matched := Matched(w, ev.leg);
    var w0 := if matched then w.(fates := w.fates + [Handled], handled := w.handled + [|w.fates|])
              else if Own(w, ev.leg) then w.(fates := w.fates + [Lost(true, |w.fates|)])
              else w;
    CoreOnlyReads(w, w0);
    HandleKeeps(w0, ev, late);
  }

  /** The end of the drain's task drops what was queued while it was ending, even for a live call. */
  lemma {:induction false} DrainEndDropsArrival(moves: seq<Move>, event: Event, late: bool, ok: bool)
    requires var w := Run(moves); w.drain.DrainExiting? && w.listener.ListenerIdle? && Matched(w, event.leg)
    ensures var w := Run(moves);
            var u := Next(Next(w, EventArrives(event, late)), DrainRuns(ok, late));
            && u.inRegistry && u.drain.NoDrain? && u.pending == []
            && |u.fates| == |w.fates| + 1 && u.fates[|w.fates|] == Lost(false, w.drain.since)
            && u.handled == w.handled && u.call == w.call
  {
    hide Run;
  }

  /** A run after which the call is accepted, its first event handled, and the drain is ending. */
  lemma DrainCanBeEnding() returns (moves: seq<Move>, w: World)
    ensures w == Run(moves) && w.inRegistry && w.cleanups == 0 && w.ender.NoEnder? && w.listener.ListenerIdle?
    ensures w.drain == DrainExiting(1) && w.pending == [] && w.fates == [Handled]
  {
    hide Run, OriginateStep, ListenerStep, EnderStep, Arrive, Cleanup, Termination, Resume, Handle;
    moves, w := RingingTold();
    moves, w := Took(moves, w, DrainRuns(true, false));
  }

  /** The queued event is taken up, and its snapshot is on its way to the store. */
  lemma RingingTaken() returns (moves: seq<Move>, w: World)
    ensures w == Run(moves) && w.inRegistry && w.cleanups == 0 && w.ender.NoEnder? && w.listener.ListenerIdle?
    ensures w.partner && w.drain.DrainBusy? && w.pending == [] && w.fates == [Handled]
    ensures w.drain.frame.Recording? && w.drain.frame.after.ToReturn? && !w.drain.frame.snap.Terminal()
  {
    hide Run, OriginateStep, ListenerStep, EnderStep, Arrive, Cleanup, Termination, Resume;
    moves, w := AcceptedWithOneQueued();
    moves, w := Took(moves, w, DrainRuns(true, false));
    moves, w := Took(moves, w, DrainRuns(true, false));
  }

  lemma RingingTold() returns (moves: seq<Move>, w: World)
    ensures w == Run(moves) && w.inRegistry && w.cleanups == 0 && w.ender.NoEnder? && w.listener.ListenerIdle?
    ensures w.drain.DrainLooping? && w.pending == [] && w.fates == [Handled]
  {
    hide Run, OriginateStep, ListenerStep, EnderStep, Arrive, Cleanup, Termination, Handle;
    moves, w := RingingTaken();
    moves, w := Took(moves, w, DrainRuns(true, false));
    moves, w := Took(moves, w, DrainRuns(true, false));
  }

  lemma PostedWithOneQueued() returns (moves: seq<Move>, w: World)
    ensures w == Run(moves)
    ensures w == RESERVED_WORLD.(originate := Acknowledging, drain := DrainWaiting, fates := [Waiting],
                                 pending := [Arrival(0, StateChange(Main, StateRinging))])
  {
    moves, w := [], RESERVED_WORLD;
    assert Run(moves) == w;
    hide Run;
    moves, w := Took(moves, w, OriginateRuns(true));
    moves, w := Took(moves, w, EventArrives(StateChange(Main, StateRinging), false));
    moves, w := Took(moves, w, OriginateRuns(true));
  }

  lemma AcceptedWithOneQueued() returns (moves: seq<Move>, w: World)
    ensures w == Run(moves) && w.inRegistry && w.cleanups == 0 && w.ender.NoEnder? && w.listener.ListenerIdle?
    ensures w.partner && w.accepted && w.call == Moved(RESERVED, CallSignals.Dialing)
    ensures w.drain == DrainWaiting && w.fates == [Waiting] && w.handled == []
    ensures w.pending == [Arrival(0, StateChange(Main, StateRinging))]
  {
    hide Run, DrainStep, ListenerStep, EnderStep, Cleanup, Handle, Termination, Arrive;
    moves, w := PostedWithOneQueued();
    moves, w := Took(moves, w, OriginateRuns(true));
    moves, w := Took(moves, w, OriginateRuns(true));
    moves, w := Took(moves, w, OriginateRuns(true));
  }

  /** A live call can miss its ChannelDestroyed: the run below loses it in the exit window. */
  lemma DestroyedCanBeLost() returns (moves: seq<Move>)
    ensures var w := Run(moves + [EventArrives(Destroyed(Main, Some(17)), false)] + [DrainRuns(true, false)]);
            && w.inRegistry && w.cleanups == 0 && w.drain.NoDrain? && w.ender.NoEnder? && w.pending == []
            && w.fates == [Handled, Lost(false, 1)]
  {
    var w;
    var destroyed := EventArrives(Destroyed(Main, Some(17)), false);
    moves, w := DrainCanBeEnding();
    DrainEndDropsArrival(moves, destroyed.event, false, true);
    RunSnoc(moves, destroyed);
    RunSnoc(moves + [destroyed], DrainRuns(true, false));
    hide Run;
  }

  lemma Took(moves: seq<Move>, w: World, move: Move) returns (moves1: seq<Move>, w1: World)
    requires Run(moves) == w
    ensures moves1 == moves + [move] && w1 == Next(w, move) && Run(moves1) == w1
  {
    moves1, w1 := moves + [move], Next(w, move);
    RunSnoc(moves, move);
  }

  /**
    A call in the registry is never terminal.  Out of it, exactly the last
    snapshot is terminal, whoever ended the call, unless the durable start failed
    and nothing was ever published.  Cleanup takes effect at most once.
   */
  lemma EndsExactlyOnce(moves: seq<Move>)
    ensures var w := Run(moves);
            && w.cleanups <= 1
            && (w.inRegistry ==> w.cleanups == 0 && forall s | s in w.log :: !s.Terminal())
            && (!w.inRegistry && w.log != [] ==>
                  Last(w.log).Terminal() && forall i | 0 <= i < |w.log| - 1 :: !w.log[i].Terminal())
            && (!w.inRegistry && w.log == [] ==> w.starts == [] && w.cleanups == 0)
  {
    RunKeeps(moves);
    var w := Run(moves);
    hide Run;
    RisingIsShort(w.log);
    if w.inRegistry && w.log != [] {
      assert !Last(w.log).Terminal();
    }
  }

  /** The partner can query the terminal snapshot before it is sent, and sees that same snapshot from then on. */
  lemma TerminalIsQueryableOnceSent(moves: seq<Move>)
    ensures var w := Run(moves);
            forall s | s in w.sent && s.Terminal() ::
              w.log != [] && w.completed == Some(Last(w.log)) && s == Last(w.log)
  {
    RunKeeps(moves);
  }
}
