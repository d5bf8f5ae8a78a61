/** A call is never reported ringing or answered without word of it from Asterisk, nor completed without an answer. */
module CallEvidence {
  import opened Basics
  import opened CallSignals
  import opened CallMachine
  import opened CallSafety

  predicate Rings(ev: Event) {
    ev == CallMachine.Dial(Main, Known(DialRinging)) || ev == StateChange(Main, StateRinging)
  }

  /** Entering Stasis counts only for a channel that is up. */
  predicate Answers(ev: Event) {
    || ev == CallMachine.Dial(Main, Known(DialAnswer))
    || ev == StateChange(Main, StateUp)
    || ev == StasisStart(Main, true)
  }

  /** What has been heard of the call. */
  datatype Heard = Heard(ringing: bool, answer: bool)

  function Hears(h: Heard, move: Move): Heard {
    match move
    case EventArrives(ev, _) => Heard(h.ringing || Rings(ev), h.answer || Answers(ev))
    case _ => h
  }

  function HeardIn(moves: seq<Move>): Heard {
    if moves == [] then Heard(false, false)
    else Hears(HeardIn(moves[..|moves| - 1]), moves[|moves| - 1])
  }

  predicate SnapshotCaused(s: Snapshot, h: Heard) {
    && (s.status.Ringing? ==> h.ringing)
    && (s.answered || s.status.Answered? ==> h.answer)
    && (s.status == Ended(Completed) ==> s.answered)
  }

  ghost predicate LogCaused(log: seq<Snapshot>, h: Heard) {
    forall s | s in log :: SnapshotCaused(s, h)
  }

  predicate EventHeard(ev: Event, h: Heard) { (Rings(ev) ==> h.ringing) && (Answers(ev) ==> h.answer) }

  ghost predicate QueueHeard(pending: seq<Arrival>, h: Heard) {
    forall a | a in pending :: EventHeard(a.event, h)
  }

  predicate CallCaused(c: Call, h: Heard) {
    (c.answered ==> h.answer) && (c.requestedEnd == Some(Completed) ==> c.answered)
  }

  ghost predicate Caused(w: World, h: Heard) {
    LogCaused(w.log, h) && CallCaused(w.call, h) && QueueHeard(w.pending, h)
  }

  // ---------------------------------------------------------------- the segments

  lemma PublishCaused(w: World, s: Status, after: After, h: Heard)
    requires Caused(w, h) && !s.Ended? && (s.Ringing? ==> h.ringing) && (s.Answered? ==> h.answer)
    ensures Caused(Publish(w, s, after).0, h)
  {
    hide QueueHeard, Continue;
    ContinueCaused(w, after, h);
  }

  lemma ContinueCaused(w: World, after: After, h: Heard)
    requires Caused(w, h)
    ensures Caused(Continue(w, after).0, h)
  {}

  lemma TerminatedCaused(c: Call, override: Option<Reason>, late: bool, h: Heard)
    requires CallCaused(c, h)
    ensures var d := Terminated(c, override, late);
            CallCaused(d, h) && SnapshotCaused(SnapshotOf(d), h)
  {}

  lemma CleanupCaused(w: World, override: Option<Reason>, raises: bool, late: bool, h: Heard)
    requires Caused(w, h)
    ensures Caused(Cleanup(w, override, raises, late).0, h)
  {
    if w.inRegistry {
      TerminatedCaused(w.call, override, late, h);
      hide QueueHeard, Terminated, SnapshotCaused, CallCaused;
    }
  }

  lemma ResumeCaused(w: World, frame: Frame, ok: bool, late: bool, h: Heard)
    requires Core(w) && FrameOk(w, frame) && Caused(w, h)
    ensures Caused(Resume(w, frame, ok, late).0, h)
  {
    CleanupCaused(w, Some(MediaFailed), true, late, h);
    match frame {
      case Recording(snap, after) =>
        ContinueCaused(w, after, h);
      case Sending(snap, after) =>
        ContinueCaused(w, after, h);
      case Answering =>
        PublishCaused(w, Answered, ToBridge, h);
      case _ =>
    }
    hide Cleanup, Continue, Publish, QueueHeard, LogCaused, Core;
  }

  lemma DialCaused(w: World, leg: Leg, report: DialReport, h: Heard)
    requires Caused(w, h) && EventHeard(CallMachine.Dial(leg, report), h)
    ensures Caused(HandleDial(w, leg, report).0, h)
  {
    hide LogCaused, QueueHeard, Publish;
    var w1 := w.(call := WithDial(w.call, if report.Known? then Some(report.dial) else None));
    if report == Known(DialRinging) && leg == Main {
      PublishCaused(w1, Ringing, ToReturn, h);
    }
    if report == Known(DialAnswer) && leg == Main {
      PublishCaused(w1, Answered, ToReturn, h);
    }
  }

  lemma DestroyedCaused(w: World, leg: Leg, cause: Option<int>, late: bool, h: Heard)
    requires Caused(w, h)
    ensures Caused(HandleDestroyed(w, leg, cause, late).0, h)
  {
    hide LogCaused, QueueHeard, Cleanup;
    var w1 := if leg == Media then w else w.(call := WithDestroyCause(w.call, cause));
    CleanupCaused(w1, None, false, late, h);
    CleanupCaused(w1, Some(MediaFailed), false, late, h);
  }

  lemma HandleCaused(w: World, ev: Event, late: bool, h: Heard)
    requires Core(w) && Caused(w, h) && EventHeard(ev, h)
    ensures Caused(Handle(w, ev, late).0, h)
  {
    hide Core, LogCaused, QueueHeard, Publish, Cleanup, HandleDial, HandleDestroyed;
    match ev {
      case Dial(leg, report) =>
        DialCaused(w, leg, report, h);
      case Destroyed(leg, cause) =>
        DestroyedCaused(w, leg, cause, late, h);
      case StateChange(leg, state) =>
        if leg == Main && state == StateRinging {
          PublishCaused(w, Ringing, ToReturn, h);
        }
        if leg == Main && state == StateUp {
          PublishCaused(w, Answered, ToAnsweredUp, h);
        }
      case StasisStart(leg, up) =>
        if leg == Main && (up || w.call.answered) {
          PublishCaused(w.(call := w.call.(inStasis := true)), Answered, ToClaim, h);
        }
      case _ =>
    }
  }

  // ------------------------------------------------------------------- the moves

  lemma ArriveCaused(w: World, ev: Event, late: bool, h: Heard)
    requires Inv(w) && Caused(w, h) && EventHeard(ev, h)
    ensures Caused(Arrive(w, ev, late), h)
  {
    hide Core, LogCaused, Handle, EventHeard;
    var matched := Matched(w, ev.leg);
    var w0 := if matched then w.(fates := w.fates + [Handled], handled := w.handled + [|w.fates|])
              else if Own(w, ev.leg) then w.(fates := w.fates + [Lost(true, |w.fates|)])
              else w;
    CoreOnlyReads(w, w0);
    HandleCaused(w0, ev, late, h);
  }

  lemma DrainCaused(w: World, ok: bool, late: bool, h: Heard)
    requires Inv(w) && Caused(w, h)
    ensures Caused(DrainStep(w, ok, late), h)
  {
    hide Core, Gated, InOrder, LossExplained, LogCaused, Handle, Resume, Cleanup, FrameOk, EventHeard;
    match w.drain {
      case DrainLooping =>
        if w.pending != [] {
          var w0 := Popped(w);
          assert w.pending[0] in w.pending && QueueHeard(w0.pending, h);
          CoreOnlyReads(w, w0);
          HandleCaused(w0, w.pending[0].event, late, h);
          DrainToCaused(Handle(w0, w.pending[0].event, late).0, Handle(w0, w.pending[0].event, late).1, late, h);
        }
      case DrainBusy(frame) =>
        ResumeCaused(w, frame, ok, late, h);
        DrainToCaused(Resume(w, frame, ok, late).0, Resume(w, frame, ok, late).1, late, h);
      case DrainCleaning(frame) =>
        ResumeCaused(w, frame, ok, late, h);
      case _ =>
    }
  }

  lemma DrainToCaused(w: World, out: Outcome, late: bool, h: Heard)
    requires Caused(w, h)
    ensures Caused(DrainTo(w, out, late), h)
  {
    hide Cleanup, LogCaused, QueueHeard, CallCaused;
    CleanupCaused(w, Some(EventFailed), false, late, h);
  }

  lemma OriginateCaused(w: World, ok: bool, h: Heard)
    requires Inv(w) && Caused(w, h)
    ensures Caused(OriginateStep(w, ok), h)
  {
    PublishCaused(w, CallSignals.Dialing, ToReturn, h);
    OriginateFailureCaused(w, h);
    hide Core, InOrder, LossExplained, Publish, FrameOk, QueueHeard, LogCaused, CallCaused, FailOriginate;
    match w.originate {
      case Acknowledging =>
        OriginateToCaused(Publish(w, CallSignals.Dialing, ToReturn).0, Publish(w, CallSignals.Dialing, ToReturn).1, h);
      case PublishingDialing(frame) =>
        DialingResumes(w, ok);
        OriginateToCaused(Resume(w, frame, ok, false).0, Resume(w, frame, ok, false).1, h);
      case _ =>
    }
  }

  lemma OriginateToCaused(w: World, out: Outcome, h: Heard)
    requires Caused(w, h)
    ensures Caused(OriginateTo(w, out), h)
  {
    OriginateFailureCaused(w, h);
    hide FailOriginate, LogCaused, QueueHeard, CallCaused;
  }

  lemma OriginateFailureCaused(w: World, h: Heard)
    requires Caused(w, h)
    ensures Caused(FailOriginate(w), h)
  {
    hide QueueHeard;
  }

  lemma NextCaused(w: World, move: Move, h: Heard)
    requires Inv(w) && Caused(w, h)
    ensures Caused(Next(w, move), Hears(h, move))
  {
    var g := Hears(h, move);
    HearingMore(w, h, move);
    hide Core, Gated, InOrder, LossExplained, Resume, Cleanup, Handle, FrameOk, LogCaused, QueueHeard, EventHeard;
    match move {
      case EventArrives(ev, late) => ArriveCaused(w, ev, late, g);
      case ListenerRuns(ok, late) =>
        if w.listener.ListenerBusy? {
          if w.listener.frame.Deleting? {
            DeletingEnds(w, ok, late);
          } else {
            ResumeCaused(w, w.listener.frame, ok, late, g);
          }
        }
      case DrainRuns(ok, late) => DrainCaused(w, ok, late, g);
      case EnderRuns(ok, late) =>
        CleanupCaused(w, None, false, late, g);
        if w.ender.EnderBusy? {
          ResumeCaused(w, w.ender.frame, ok, late, g);
        }
      case OriginateRuns(ok) => OriginateCaused(w, ok, g);
      case PartnerLeaves =>
      case PartnerAsksEnd(_) =>
    }
  }

  lemma HearingMore(w: World, h: Heard, move: Move)
    requires Caused(w, h)
    ensures Caused(w, Hears(h, move))
    ensures move.EventArrives? ==> EventHeard(move.event, Hears(h, move))
  {}

  /**
    In every run a ringing snapshot follows a ringing event, an answered one an answer
    event, and a completed one is of a call that was answered, whoever asked for the end.
   */
  lemma {:induction false} StatusesHaveCauses(moves: seq<Move>)
    ensures Caused(Run(moves), HeardIn(moves))
    ensures forall s | s in Run(moves).log :: SnapshotCaused(s, HeardIn(moves))
    ensures forall s | s in Run(moves).log && s.status == Ended(Completed) :: s.answered && HeardIn(moves).answer
  {
    hide Next, Inv;
    if moves != [] {
      var before := moves[..|moves| - 1];
      StatusesHaveCauses(before);
      RunKeeps(before);
      NextCaused(Run(before), moves[|moves| - 1], HeardIn(before));
    }
  }

  predicate Said(moves: seq<Move>, ev: Event) { exists m :: m in moves && m.EventArrives? && m.event == ev }

  /** What was heard was said: each flag stands for an event among the moves. */
  lemma {:induction false} HeardWasSaid(moves: seq<Move>)
    ensures var h := HeardIn(moves);
            && (h.ringing ==> || Said(moves, CallMachine.Dial(Main, Known(DialRinging)))
                              || Said(moves, StateChange(Main, StateRinging)))
            && (h.answer ==> || Said(moves, CallMachine.Dial(Main, Known(DialAnswer)))
                             || Said(moves, StateChange(Main, StateUp)) || Said(moves, StasisStart(Main, true)))
  {
    if moves != [] {
      var before, last := moves[..|moves| - 1], moves[|moves| - 1];
      HeardWasSaid(before);
      assert forall m :: m in moves <==> m in before || m == last by {
        assert moves == before + [last];
      }
    }
  }
}
