/** What a step publishes is what the call then shows; what it gives to the store goes to the partner too. */
module CallPublishing {
  import opened Basics
  import opened CallSignals
  import opened CallMachine
  import opened CallSafety
  import opened CallTheorems
  import opened CallExits

  /** At most one new snapshot, which carries what the call shows. */
  ghost predicate AddsOne(w: World, u: World) {
    || u.log == w.log
    || (|u.log| == |w.log| + 1 && w.log <= u.log && Carries(u.log[|w.log|], u.call))
  }

  /** The handler's own record of a snapshot, if it was awaiting one. */
  function Awaited(frame: Frame): seq<Snapshot> { if frame.Recording? then [frame.snap] else [] }

  /** `stored` has been given to the store, and sent if the partner is there. */
  ghost predicate HandsOn(w: World, u: World, stored: seq<Snapshot>) {
    && u.recorded == w.recorded + stored && u.sent == w.sent + (if w.partner then stored else [])
    && u.partner == w.partner
  }

  lemma PublishAdds(w: World, s: Status, after: After)
    ensures var u := Publish(w, s, after).0;
            AddsOne(w, u) && HandsOn(w, u, [])
  {
    ContinueAdds(w, after);
    hide Continue;
  }

  lemma ContinueAdds(w: World, after: After)
    ensures var u := Continue(w, after).0;
            u.log == w.log && u.call.(activating := w.call.activating) == w.call && HandsOn(w, u, [])
  {}

  lemma CleanupAdds(w: World, override: Option<Reason>, raises: bool, late: bool)
    ensures var u := Cleanup(w, override, raises, late).0;
            AddsOne(w, u) && HandsOn(w, u, [])
  {
    hide Termination;
  }

  lemma RecordingAdds(w: World, snap: Snapshot, after: After, ok: bool, late: bool)
    ensures var u := Resume(w, Recording(snap, after), ok, late).0;
            AddsOne(w, u) && HandsOn(w, u, [snap])
  {
    var w0 := w.(recorded := w.recorded + [snap]);
    ContinueAdds(w0, after);
    assert w0.recorded + [] == w0.recorded && w.sent + [] == w.sent;
    hide Continue;
  }

  lemma SendingAdds(w: World, snap: Snapshot, after: After, ok: bool, late: bool)
    ensures var u := Resume(w, Sending(snap, after), ok, late).0;
            AddsOne(w, u) && HandsOn(w, u, [])
  {
    CleanupAdds(w, Some(MediaFailed), true, late);
    ContinueAdds(w, after);
    hide Cleanup, Continue;
  }

  lemma SetupAdds(w: World, frame: Frame, ok: bool, late: bool)
    requires !frame.Recording? && !frame.Sending?
    ensures var u := Resume(w, frame, ok, late).0;
            AddsOne(w, u) && HandsOn(w, u, [])
  {
    CleanupAdds(w, Some(MediaFailed), true, late);
    PublishAdds(w, Answered, ToBridge);
    hide Cleanup, Publish;
  }

  lemma ResumeAdds(w: World, frame: Frame, ok: bool, late: bool)
    ensures var u := Resume(w, frame, ok, late).0;
            AddsOne(w, u) && HandsOn(w, u, Awaited(frame))
  {
    hide Resume, AddsOne, HandsOn;
    match frame {
      case Recording(snap, after) => RecordingAdds(w, snap, after, ok, late);
      case Sending(snap, after) => SendingAdds(w, snap, after, ok, late);
      case _ => SetupAdds(w, frame, ok, late);
    }
  }

  lemma DialAdds(w: World, leg: Leg, report: DialReport)
    ensures var u := HandleDial(w, leg, report).0;
            AddsOne(w, u) && HandsOn(w, u, [])
  {
    hide Publish;
    var w1 := w.(call := WithDial(w.call, if report.Known? then Some(report.dial) else None));
    PublishAdds(w1, Ringing, ToReturn);
    PublishAdds(w1, Answered, ToReturn);
  }

  lemma DestroyedAdds(w: World, leg: Leg, cause: Option<int>, late: bool)
    ensures var u := HandleDestroyed(w, leg, cause, late).0;
            AddsOne(w, u) && HandsOn(w, u, [])
  {
    hide Cleanup;
    var w1 := if leg == Media then w else w.(call := WithDestroyCause(w.call, cause));
    CleanupAdds(w1, None, false, late);
    CleanupAdds(w1, Some(MediaFailed), false, late);
  }

  lemma HandleAdds(w: World, ev: Event, late: bool)
    ensures var u := Handle(w, ev, late).0;
            AddsOne(w, u) && HandsOn(w, u, [])
  {
    hide Publish, HandleDial, HandleDestroyed;
    match ev {
      case Dial(leg, report) => DialAdds(w, leg, report);
      case Destroyed(leg, cause) => DestroyedAdds(w, leg, cause, late);
      case StateChange(leg, state) =>
        PublishAdds(w, Ringing, ToReturn);
        PublishAdds(w, Answered, ToAnsweredUp);
      case StasisStart(leg, up) =>
        PublishAdds(w.(call := w.call.(inStasis := true)), Answered, ToClaim);
      case _ =>
    }
  }

  lemma DrainToAdds(w: World, out: Outcome, late: bool)
    ensures var u := DrainTo(w, out, late);
            AddsOne(w, u) && HandsOn(w, u, []) && (out != Finished(true) ==> u.log == w.log)
  {
    CleanupAdds(w, Some(EventFailed), false, late);
    hide Cleanup;
  }

  /** The snapshot whose storing the move completes. */
  function StoredBy(w: World, move: Move): seq<Snapshot> {
    match move
    case ListenerRuns(_, _) => if w.listener.ListenerBusy? then Awaited(w.listener.frame) else []
    case DrainRuns(_, _) =>
      if w.drain.DrainBusy? || w.drain.DrainCleaning? then Awaited(w.drain.frame) else []
    case EnderRuns(_, _) => if w.ender.EnderBusy? then Awaited(w.ender.frame) else []
    case OriginateRuns(_) => if w.originate.PublishingDialing? then Awaited(w.originate.frame) else []
    case _ => []
  }

  /** Originate's failure snapshot is stored and not sent. */
  predicate StoresFailure(w: World, move: Move) { move.OriginateRuns? && w.originate.RecordingFailure? }

  lemma StepPublishes(w: World, move: Move)
    requires Inv(w)
    ensures var u := Next(w, move);
            && AddsOne(w, u)
            && (u.partner <==> w.partner && !move.PartnerLeaves?)
            && if StoresFailure(w, move) then u.recorded == w.recorded + [w.originate.snap] && u.sent == w.sent
               else if move.PartnerLeaves? then u.recorded == w.recorded && u.sent == w.sent
               else HandsOn(w, u, StoredBy(w, move))
  {
    hide Inv, Arrive, DrainStep, ListenerStep, EnderStep, OriginateStep;
    match move {
      case EventArrives(ev, late) => ArrivalPublishes(w, ev, late);
      case ListenerRuns(ok, late) => ListenerPublishes(w, ok, late);
      case DrainRuns(ok, late) => DrainPublishes(w, ok, late);
      case EnderRuns(ok, late) => EnderPublishes(w, ok, late);
      case OriginateRuns(ok) => OriginatePublishes(w, ok);
      case _ =>
    }
  }

  lemma SamePublishes(w: World, w0: World, u: World, v: World)
    requires w.log == w0.log && w.recorded == w0.recorded && w.sent == w0.sent && w.partner == w0.partner
    requires u.log == v.log && u.call == v.call && u.recorded == v.recorded && u.sent == v.sent
    requires u.partner == v.partner
    requires AddsOne(w0, u) && HandsOn(w0, u, [])
    ensures AddsOne(w, v) && HandsOn(w, v, [])
  {}

  lemma ArrivalPublishes(w: World, ev: Event, late: bool)
    ensures AddsOne(w, Arrive(w, ev, late)) && HandsOn(w, Arrive(w, ev, late), [])
  {
    var w0 := if Matched(w, ev.leg) then w.(fates := w.fates + [Handled], handled := w.handled + [|w.fates|])
              else if Own(w, ev.leg) then w.(fates := w.fates + [Lost(true, |w.fates|)])
              else w;
    HandleAdds(w0, ev, late);
    assert w.recorded + [] == w.recorded && w.sent + [] == w.sent;
    assert AddsOne(w, w) && HandsOn(w, w, []);
    hide Handle, AddsOne, HandsOn;
    var (u, out) := Handle(w0, ev, late);
    SamePublishes(w, w0, u, ListenerTo(u, out));
    SamePublishes(w, w, w, w.(pending := Arrive(w, ev, late).pending, fates := Arrive(w, ev, late).fates,
                              drain := Arrive(w, ev, late).drain));
  }

  lemma ListenerPublishes(w: World, ok: bool, late: bool)
    ensures var u := ListenerStep(w, ok, late);
            AddsOne(w, u) && HandsOn(w, u, StoredBy(w, ListenerRuns(ok, late)))
  {
    hide Resume;
    if w.listener.ListenerBusy? {
      ResumeAdds(w, w.listener.frame, ok, late);
    }
  }

  lemma DrainPublishes(w: World, ok: bool, late: bool)
    ensures var u := DrainStep(w, ok, late);
            AddsOne(w, u) && HandsOn(w, u, StoredBy(w, DrainRuns(ok, late)))
  {
    hide Resume, Handle, DrainTo;
    match w.drain {
      case DrainLooping =>
        if w.pending != [] && w.inRegistry {
          HandleAdds(Popped(w), w.pending[0].event, late);
          NeverRaises(Popped(w), w.pending[0].event, late);
          var (u, out) := Handle(Popped(w), w.pending[0].event, late);
          DrainToAdds(u, out, late);
          LogOfDrainTo(u, out, late);
        }
      case DrainBusy(frame) =>
        ResumeAdds(w, frame, ok, late);
        RaisedEarlier(w, frame, ok, late);
        var (u, out) := Resume(w, frame, ok, late);
        DrainToAdds(u, out, late);
        LogOfDrainTo(u, out, late);
      case DrainCleaning(frame) =>
        ResumeAdds(w, frame, ok, late);
      case _ =>
    }
  }

  lemma NeverRaises(w: World, ev: Event, late: bool)
    ensures Handle(w, ev, late).1 != Finished(true)
  {
    hide Termination;
  }

  /** A handler that fails has published nothing in the same step, or has ended the call. */
  lemma RaisedEarlier(w: World, frame: Frame, ok: bool, late: bool)
    ensures var (u, out) := Resume(w, frame, ok, late);
            out == Finished(true) ==> u.log == w.log
  {
    hide Termination;
  }

  lemma LogOfDrainTo(w: World, out: Outcome, late: bool)
    ensures out != Finished(true) ==> DrainTo(w, out, late).log == w.log && DrainTo(w, out, late).call == w.call
  {}

  lemma EnderPublishes(w: World, ok: bool, late: bool)
    ensures var u := EnderStep(w, ok, late);
            AddsOne(w, u) && HandsOn(w, u, StoredBy(w, EnderRuns(ok, late)))
  {
    hide Resume, Cleanup;
    CleanupAdds(w, None, false, late);
    if w.ender.EnderBusy? {
      ResumeAdds(w, w.ender.frame, ok, late);
    }
  }

  lemma FailurePublishes(w: World)
    ensures AddsOne(w, FailOriginate(w)) && HandsOn(w, FailOriginate(w), [])
  {}

  lemma DialingPublishes(w: World, ok: bool)
    requires Inv(w) && w.originate.PublishingDialing?
    ensures AddsOne(w, OriginateStep(w, ok)) && HandsOn(w, OriginateStep(w, ok), Awaited(w.originate.frame))
  {
    DialingResumes(w, ok);
    ResumeAdds(w, w.originate.frame, ok, false);
    hide Inv, Resume;
    FailurePublishes(Resume(w, w.originate.frame, ok, false).0);
    hide FailOriginate;
  }

  lemma FirstPublishes(w: World)
    requires Inv(w) && w.originate.Acknowledging?
    ensures AddsOne(w, OriginateStep(w, true)) && HandsOn(w, OriginateStep(w, true), [])
  {
    PublishAdds(w, CallSignals.Dialing, ToReturn);
    hide Inv;
  }

  lemma OriginatePublishes(w: World, ok: bool)
    requires Inv(w)
    ensures var u, move := OriginateStep(w, ok), OriginateRuns(ok);
            && AddsOne(w, u)
            && u.partner == w.partner
            && if StoresFailure(w, move) then u.recorded == w.recorded + [w.originate.snap] && u.sent == w.sent
               else HandsOn(w, u, StoredBy(w, move))
  {
    if w.originate.PublishingDialing? {
      DialingPublishes(w, ok);
      hide OriginateStep;
    } else if w.originate.Acknowledging? && ok {
      FirstPublishes(w);
      hide OriginateStep;
    } else {
      FailurePublishes(w);
      hide FailOriginate;
    }
    hide Inv;
  }

  /**
    Every step publishes at most one snapshot, with all that the call then shows; and every
    snapshot given to the store goes to the partner if there is one, in the same order,
    except originate's failure.
   */
  lemma PublishedAsShown(moves: seq<Move>, move: Move)
    ensures var w, u := Run(moves), Run(moves + [move]);
            && (|| u.log == w.log
                || (|u.log| == |w.log| + 1 && w.log <= u.log && Carries(u.log[|w.log|], u.call)
                    && u.log[|w.log|].sequence == |u.log|))
            && (if StoresFailure(w, move) then u.recorded == w.recorded + [w.originate.snap] && u.sent == w.sent
                else if move.PartnerLeaves? then u.recorded == w.recorded && u.sent == w.sent
                else HandsOn(w, u, StoredBy(w, move)))
  {
    RunKeeps(moves);
    RunSnoc(moves, move);
    StepPublishes(Run(moves), move);
    StatusLogRises(moves + [move]);
    hide Run, Inv, Next;
  }

  // ------------------------------------------------------------------ what is remembered

  /** A handler in `frame` remembers the result: a stored terminal snapshot, and again at the end of a cleanup. */
  predicate Remembers(w: World, frame: Frame) {
    w.partner && ((frame.Recording? && frame.snap.Terminal()) || (frame.Sending? && frame.after.ToClose?))
  }

  /** The handler that moves remembers the result. */
  predicate RemembersNow(w: World, move: Move) {
    match move
    case ListenerRuns(_, _) => w.listener.ListenerBusy? && Remembers(w, w.listener.frame)
    case DrainRuns(_, _) => (w.drain.DrainBusy? || w.drain.DrainCleaning?) && Remembers(w, w.drain.frame)
    case EnderRuns(_, _) => w.ender.EnderBusy? && Remembers(w, w.ender.frame)
    case _ => false
  }

  lemma ContinueRemembers(w: World, after: After)
    ensures var u := Continue(w, after).0;
            && u.kept == w.kept + (if w.partner && after.ToClose? then 1 else 0)
            && u.call.requestedEnd == w.call.requestedEnd
  {}

  lemma TellingRemembers(w: World, frame: Frame, ok: bool, late: bool)
    requires frame.Recording? || frame.Sending?
    requires frame.Recording? && frame.after.ToClose? ==> frame.snap.Terminal()
    ensures var u := Resume(w, frame, ok, late).0;
            && u.kept == w.kept + (if Remembers(w, frame) then 1 else 0)
            && u.call.requestedEnd == w.call.requestedEnd
  {
    CleanupRemembersNothing(w, Some(MediaFailed), true, late);
    if frame.Recording? {
      ContinueRemembers(w.(recorded := w.recorded + [frame.snap]), frame.after);
    } else {
      ContinueRemembers(w, frame.after);
    }
    hide Continue, Cleanup;
  }

  lemma SetupRemembersNothing(w: World, frame: Frame, ok: bool, late: bool)
    requires !frame.Recording? && !frame.Sending?
    ensures var u := Resume(w, frame, ok, late).0;
            u.kept == w.kept && u.call.requestedEnd == w.call.requestedEnd
  {
    hide Publish, Cleanup;
    if !ok && !frame.Deleting? && !frame.Closing? {
      CleanupRemembersNothing(w, Some(MediaFailed), true, late);
    } else if frame.Answering? {
      PublishRemembersNothing(w, Answered, ToBridge);
    }
  }

  lemma ResumeRemembers(w: World, frame: Frame, ok: bool, late: bool)
    requires frame.Recording? && frame.after.ToClose? ==> frame.snap.Terminal()
    ensures var u := Resume(w, frame, ok, late).0;
            && u.kept == w.kept + (if Remembers(w, frame) then 1 else 0)
            && u.call.requestedEnd == w.call.requestedEnd
  {
    if frame.Recording? || frame.Sending? {
      TellingRemembers(w, frame, ok, late);
    } else {
      SetupRemembersNothing(w, frame, ok, late);
    }
    hide Resume;
  }

  /** Every step of a handler remembers the result just then; nothing else does. */
  lemma RemembersIff(moves: seq<Move>, move: Move)
    ensures var w, u := Run(moves), Run(moves + [move]);
            u.kept == w.kept + if RemembersNow(w, move) then 1 else 0
  {
    RunKeeps(moves);
    RunSnoc(moves, move);
    hide Run;
    StepRemembers(Run(moves), move);
  }

  lemma CleaningIsTerminal(w: World, frame: Frame)
    requires FrameOk(w, frame)
    ensures frame.Recording? && frame.after.ToClose? ==> frame.snap.Terminal()
  {}

  lemma StepRemembers(w: World, move: Move)
    requires Inv(w)
    ensures var u := Next(w, move);
            && (!move.PartnerAsksEnd? ==> u.call.requestedEnd == w.call.requestedEnd)
            && u.kept == w.kept + if RemembersNow(w, move) then 1 else 0
  {
    hide Core, Gated, InOrder, LossExplained, Resume, Handle, DrainTo, Cleanup, FrameOk, Remembers;
    match move {
      case EventArrives(ev, late) =>
        HandleRemembersNothing(w.(fates := w.fates + [Handled], handled := w.handled + [|w.fates|]), ev, late);
        HandleRemembersNothing(w.(fates := w.fates + [Lost(true, |w.fates|)]), ev, late);
        HandleRemembersNothing(w, ev, late);
      case ListenerRuns(ok, late) =>
        if w.listener.ListenerBusy? {
          if !w.listener.frame.Deleting? {
            CleaningIsTerminal(w, w.listener.frame);
          }
          ResumeRemembers(w, w.listener.frame, ok, late);
        }
      case DrainRuns(ok, late) => DrainRemembers(w, ok, late);
      case EnderRuns(ok, late) =>
        CleanupRemembersNothing(w, None, false, late);
        if w.ender.EnderBusy? {
          CleaningIsTerminal(w, w.ender.frame);
          ResumeRemembers(w, w.ender.frame, ok, late);
        }
      case OriginateRuns(ok) => OriginateRemembersNothing(w, ok);
      case _ =>
    }
  }

  lemma HandleRemembersNothing(w: World, ev: Event, late: bool)
    ensures var u := Handle(w, ev, late).0;
            u.kept == w.kept && u.call.requestedEnd == w.call.requestedEnd
  {
    hide Cleanup, Publish;
    match ev {
      case Dial(leg, report) =>
        var w1 := w.(call := WithDial(w.call, if report.Known? then Some(report.dial) else None));
        PublishRemembersNothing(w1, Ringing, ToReturn);
        PublishRemembersNothing(w1, Answered, ToReturn);
      case Destroyed(leg, cause) =>
        var w1 := if leg == Media then w else w.(call := WithDestroyCause(w.call, cause));
        CleanupRemembersNothing(w1, None, false, late);
        CleanupRemembersNothing(w1, Some(MediaFailed), false, late);
      case StateChange(leg, state) =>
        PublishRemembersNothing(w, Ringing, ToReturn);
        PublishRemembersNothing(w, Answered, ToAnsweredUp);
      case StasisStart(leg, up) =>
        PublishRemembersNothing(w.(call := w.call.(inStasis := true)), Answered, ToClaim);
      case _ =>
    }
  }

  lemma PublishRemembersNothing(w: World, s: Status, after: After)
    requires !after.ToClose?
    ensures var u := Publish(w, s, after).0;
            u.kept == w.kept && u.call.requestedEnd == w.call.requestedEnd
  {}

  lemma CleanupRemembersNothing(w: World, override: Option<Reason>, raises: bool, late: bool)
    ensures var u := Cleanup(w, override, raises, late).0;
            u.kept == w.kept && u.call.requestedEnd == w.call.requestedEnd
  {
    hide Termination;
  }

  lemma DrainToRemembersNothing(w: World, out: Outcome, late: bool)
    ensures var u := DrainTo(w, out, late);
            u.kept == w.kept && u.call.requestedEnd == w.call.requestedEnd
  {
    CleanupRemembersNothing(w, Some(EventFailed), false, late);
    hide Cleanup;
  }

  lemma DrainRemembers(w: World, ok: bool, late: bool)
    requires Inv(w)
    ensures var u := DrainStep(w, ok, late);
            && u.call.requestedEnd == w.call.requestedEnd
            && u.kept == w.kept + if RemembersNow(w, DrainRuns(ok, late)) then 1 else 0
  {
    hide Core, Gated, InOrder, LossExplained, Resume, Handle, DrainTo, FrameOk, Remembers;
    match w.drain {
      case DrainLooping =>
        if w.pending != [] && w.inRegistry {
          HandleRemembersNothing(Popped(w), w.pending[0].event, late);
          var (u, out) := Handle(Popped(w), w.pending[0].event, late);
          DrainToRemembersNothing(u, out, late);
        }
      case DrainBusy(frame) =>
        CleaningIsTerminal(w, frame);
        ResumeRemembers(w, frame, ok, late);
        var (u, out) := Resume(w, frame, ok, late);
        DrainToRemembersNothing(u, out, late);
      case DrainCleaning(frame) =>
        CleaningIsTerminal(w, frame);
        ResumeRemembers(w, frame, ok, late);
      case _ =>
    }
  }

  lemma OriginateRemembersNothing(w: World, ok: bool)
    requires Inv(w)
    ensures var u := OriginateStep(w, ok);
            u.kept == w.kept && u.call.requestedEnd == w.call.requestedEnd
  {
    FailureRemembersNothing(w);
    PublishRemembersNothing(w, CallSignals.Dialing, ToReturn);
    if w.originate.PublishingDialing? {
      DialingResumes(w, ok);
      DialingRemembersNothing(w, ok);
      FailureRemembersNothing(Resume(w, w.originate.frame, ok, false).0);
    }
    hide Inv, Publish, Resume, FailOriginate;
  }

  lemma FailureRemembersNothing(w: World)
    ensures var u := FailOriginate(w);
            u.kept == w.kept && u.call.requestedEnd == w.call.requestedEnd
  {}

  lemma DialingRemembersNothing(w: World, ok: bool)
    requires Inv(w) && w.originate.PublishingDialing?
    ensures var u := Resume(w, w.originate.frame, ok, false).0;
            u.kept == w.kept && u.call.requestedEnd == w.call.requestedEnd
  {
    hide Core, InOrder, LossExplained, Exclusive;
  }

  // --------------------------------------------------------------- once the partner has left

  lemma LeavingStays(w: World, move: Move)
    requires Inv(w) && !w.partner
    ensures !Next(w, move).partner && Next(w, move).sent == w.sent && Next(w, move).kept == w.kept
  {
    StepPublishes(w, move);
    StepRemembers(w, move);
    hide Inv, Next;
  }

  /** Once the partner has left, nothing is sent to it and no result is remembered for it any more. */
  lemma {:induction false} NothingAfterLeaving(before: seq<Move>, later: seq<Move>)
    ensures var w, u := Run(before), Run(before + [PartnerLeaves] + later);
            !u.partner && u.sent == w.sent && u.kept == w.kept
  {
    var left := before + [PartnerLeaves];
    if later == [] {
      RunSnoc(before, PartnerLeaves);
      assert left + later == left;
    } else {
      var front, last := later[..|later| - 1], later[|later| - 1];
      NothingAfterLeaving(before, front);
      assert left + later == (left + front) + [last];
      RunSnoc(left + front, last);
      RunKeeps(left + front);
      hide Run;
      LeavingStays(Run(left + front), last);
    }
  }

  // ------------------------------------------------------------------ what the partner asked

  /** The last end that was asked for and could be asked then; `completed` takes an answered call. */
  function AskedEnd(moves: seq<Move>): Option<Ending> {
    if moves == [] then None
    else
      var before, last := moves[..|moves| - 1], moves[|moves| - 1];
      match last
      case PartnerAsksEnd(None) => None
      case PartnerAsksEnd(Some(Cancelled)) => Some(Cancelled)
      case PartnerAsksEnd(Some(Completed)) => if Run(before).call.answered then Some(Completed) else AskedEnd(before)
      case _ => AskedEnd(before)
  }

  lemma AskIsRecorded(w: World, requested: Option<Ending>)
    ensures Next(w, PartnerAsksEnd(requested)).call.requestedEnd
            == match requested
               case None => None
               case Some(Cancelled) => Some(Cancelled)
               case Some(Completed) => if w.call.answered then Some(Completed) else w.call.requestedEnd
               case Some(_) => w.call.requestedEnd
  {}

  /** A call remembers the end its partner asked for last, whatever else happens to it. */
  lemma {:induction false} RequestIsTheLastAsked(moves: seq<Move>)
    ensures Run(moves).call.requestedEnd == AskedEnd(moves)
  {
    if moves == [] {
      assert Run(moves) == RESERVED_WORLD;
    } else {
      var before, last := moves[..|moves| - 1], moves[|moves| - 1];
      RequestIsTheLastAsked(before);
      RunKeeps(before);
      StepRemembers(Run(before), last);
      if last.PartnerAsksEnd? {
        AskIsRecorded(Run(before), last.requested);
      }
      hide Inv, Next;
    }
  }
}
