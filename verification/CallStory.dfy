/**
  A call is what was heard of it: its fields and its status log are a function of the
  events that were handled, in their order, however the coroutines interleave.
 */
module CallStory {
  import opened Basics
  import opened CallSignals
  import opened CallMachine
  import opened CallSafety
  import opened CallLosses
  import opened CallTheorems
  import opened CallEndings
  import opened CallActivation

  /** An event that was handled, and whether the partner was connected then. */
  datatype Occurrence = Occurrence(event: Event, partner: bool)

  /** The handled events in order. */
  function History(moves: seq<Move>): seq<Occurrence> {
    if moves == [] then []
    else
      var before := moves[..|moves| - 1];
      History(before) + Occurred(Run(before), Run(moves), Arrived(moves))
  }

  function Occurred(w: World, u: World, now: seq<Event>): seq<Occurrence> {
    if u.handled == w.handled || LastHandled(u, now).None? then []
    else [Occurrence(LastHandled(u, now).value, w.partner)]
  }

  // -------------------------------------------------------------- what was heard

  predicate IsAnswer(o: Occurrence) {
    || o.event == CallMachine.Dial(Main, Known(DialAnswer))
    || o.event == StateChange(Main, StateUp)
    || (o.event == StasisStart(Main, true) && o.partner)
  }

  predicate IsRinging(o: Occurrence) {
    o.event == CallMachine.Dial(Main, Known(DialRinging)) || o.event == StateChange(Main, StateRinging)
  }

  predicate AnsweredIn(h: seq<Occurrence>) { h != [] && (AnsweredIn(h[..|h| - 1]) || IsAnswer(h[|h| - 1])) }

  /** It rang before it was answered. */
  predicate RangIn(h: seq<Occurrence>) {
    h != [] && (RangIn(h[..|h| - 1]) || (!AnsweredIn(h[..|h| - 1]) && IsRinging(h[|h| - 1])))
  }

  /** The last cause given; word of a destroyed leg with cause zero does not override an earlier one. */
  function CauseHeard(h: seq<Occurrence>): Option<int> {
    if h == [] then None
    else
      var before := CauseHeard(h[..|h| - 1]);
      match h[|h| - 1].event
      case HangupRequest(leg, cause) => if leg == Main && cause.Some? then cause else before
      case Destroyed(leg, cause) =>
        if (leg == Main || leg == Other) && cause.Some? && (cause.value != 0 || before.None?) then cause else before
      case _ => before
  }

  /** The last dial status that was recognised; once answered, only another answer. */
  function DialHeard(h: seq<Occurrence>): Option<DialStatus> {
    if h == [] then None
    else
      var before := h[..|h| - 1];
      match h[|h| - 1].event
      case Dial(leg, report) =>
        if leg == Main && report.Known? && (report.dial == DialAnswer || !AnsweredIn(before)) then Some(report.dial)
        else DialHeard(before)
      case _ => DialHeard(before)
  }

  /** The channel has left Stasis before; only the first time counts. */
  predicate LeftStasis(h: seq<Occurrence>) {
    h != [] && (LeftStasis(h[..|h| - 1]) || h[|h| - 1].event == StasisEnd(Main))
  }

  predicate StasisIn(h: seq<Occurrence>) {
    h != [] &&
    var before, last := h[..|h| - 1], h[|h| - 1];
    if last.event.StasisStart? && last.event.leg == Main && last.partner then true
    else if last.event == StasisEnd(Main) && !LeftStasis(before) then false
    else StasisIn(before)
  }

  function Statuses(log: seq<Snapshot>): (s: seq<Status>)
    ensures |s| == |log|
  {
    seq(|log|, i requires 0 <= i < |log| => log[i].status)
  }

  /** The statuses of a live call. */
  function StatusesOf(dialed: bool, h: seq<Occurrence>): seq<Status> {
    (if dialed then [CallSignals.Dialing] else [])
    + (if RangIn(h) then [Ringing] else [])
    + (if AnsweredIn(h) then [Answered] else [])
  }

  /** The call as `h` tells it. */
  ghost predicate TellsCall(w: World, h: seq<Occurrence>) {
    && w.call.hangupCause == CauseHeard(h) && w.call.dialStatus == DialHeard(h)
    && w.call.answered == AnsweredIn(h) && w.call.inStasis == StasisIn(h)
    && (w.ender.NoEnder? <==> !LeftStasis(h))
  }

  /** The log as `h` tells it, with one terminal snapshot behind it when the call has ended. */
  ghost predicate TellsLog(w: World, h: seq<Occurrence>) {
    && (w.inRegistry ==> Statuses(w.log) == StatusesOf(w.log != [], h))
    && (!w.inRegistry && w.log != [] ==>
        && Last(w.log).Terminal()
        && Statuses(w.log[..|w.log| - 1]) == StatusesOf(|w.log| > 1, h))
  }

  ghost predicate Tells(w: World, h: seq<Occurrence>) { TellsCall(w, h) && TellsLog(w, h) }

  // ----------------------------------------------------------------------- segments

  /** Nothing was heard; the call may have ended. */
  ghost predicate NothingHeard(w: World, u: World) {
    && u.call.hangupCause == w.call.hangupCause && u.call.dialStatus == w.call.dialStatus
    && u.call.answered == w.call.answered && u.call.inStasis == w.call.inStasis
    && (u.ender.NoEnder? <==> w.ender.NoEnder?)
    && (|| (u.log == w.log && u.inRegistry == w.inRegistry)
        || (w.inRegistry && !u.inRegistry && u.log != [] && u.log[..|u.log| - 1] == w.log && Last(u.log).Terminal()))
  }

  lemma NothingHeardTells(w: World, u: World, h: seq<Occurrence>)
    requires Tells(w, h) && NothingHeard(w, u)
    ensures Tells(u, h)
  {
    hide StatusesOf, CauseHeard, DialHeard, AnsweredIn, StasisIn, LeftStasis;
    if u.log != w.log {
      assert w.log == u.log[..|u.log| - 1];
    }
  }

  lemma CleanupHearsNothing(w: World, override: Option<Reason>, raises: bool, late: bool)
    ensures NothingHeard(w, Cleanup(w, override, raises, late).0)
  {}

  lemma ContinueHearsNothing(w: World, after: After)
    ensures var u := Continue(w, after).0;
            NothingHeard(w, u) && u.log == w.log && u.inRegistry == w.inRegistry
  {}

  lemma SetupHearsNothing(w: World, frame: Frame, ok: bool, late: bool)
    requires Core(w) && FrameOk(w, frame) && !frame.Recording? && !frame.Sending?
    ensures NothingHeard(w, Resume(w, frame, ok, late).0)
  {
    if w.call.activating {
      ActivatingIsAnswered(w);
    }
    CleanupHearsNothing(w, Some(MediaFailed), true, late);
    ContinueHearsNothing(w, ToBridge);
    hide Core, Cleanup, Continue;
  }

  lemma RecordingHearsNothing(w: World, snap: Snapshot, after: After, ok: bool, late: bool)
    ensures NothingHeard(w, Resume(w, Recording(snap, after), ok, late).0)
  {
    ContinueHearsNothing(w.(recorded := w.recorded + [snap]), after);
    hide Continue;
  }

  lemma SendingHearsNothing(w: World, snap: Snapshot, after: After, ok: bool, late: bool)
    ensures NothingHeard(w, Resume(w, Sending(snap, after), ok, late).0)
  {
    ContinueHearsNothing(w, after);
    CleanupHearsNothing(w, Some(MediaFailed), true, late);
    hide Cleanup, Continue;
  }

  lemma ResumeHearsNothing(w: World, frame: Frame, ok: bool, late: bool)
    requires Core(w) && FrameOk(w, frame)
    ensures NothingHeard(w, Resume(w, frame, ok, late).0)
  {
    hide Resume, NothingHeard, Core;
    match frame {
      case Recording(snap, after) => RecordingHearsNothing(w, snap, after, ok, late);
      case Sending(snap, after) => SendingHearsNothing(w, snap, after, ok, late);
      case _ => SetupHearsNothing(w, frame, ok, late);
    }
  }

  lemma OneMore(h: seq<Occurrence>, o: Occurrence)
    ensures (h + [o])[..|h|] == h && (h + [o])[|h|] == o
  {}

  lemma LiveStatus(w: World, h: seq<Occurrence>)
    requires Core(w) && Tells(w, h) && w.inRegistry && w.log != []
    ensures w.call.status == if AnsweredIn(h) then Answered else if RangIn(h) then Ringing else CallSignals.Dialing
    ensures w.call.sequence > 0
  {
    var n := |w.log| - 1;
    assert Statuses(w.log)[n] == w.call.status;
    hide AnsweredIn, RangIn, TellsCall;
  }

  /** Telling `s` adds it to the log unless the log shows it, or more, already. */
  lemma PublishTells(w: World, s: Status, after: After, h: seq<Occurrence>, o: Occurrence)
    requires w.inRegistry && w.log != [] && !w.call.status.Ended? && w.call.sequence > 0
    requires Statuses(w.log) == StatusesOf(true, h)
    requires w.call.status == if AnsweredIn(h) then Answered else if RangIn(h) then Ringing else CallSignals.Dialing
    requires w.call.answered == AnsweredIn(h)
    requires || (s == Ringing && IsRinging(o) && !IsAnswer(o))
             || (s == Answered && (IsAnswer(o) || AnsweredIn(h)) && !IsRinging(o))
    ensures var u := Publish(w, s, after).0;
            && u.inRegistry && u.log != []
            && Statuses(u.log) == StatusesOf(true, h + [o])
            && u.call.answered == AnsweredIn(h + [o])
            && u.call.hangupCause == w.call.hangupCause && u.call.dialStatus == w.call.dialStatus
            && u.call.inStasis == w.call.inStasis && u.ender == w.ender
  {
    OneMore(h, o);
    ContinueHearsNothing(w, after);
    var u := Publish(w, s, after).0;
    if !Suppressed(w.call, s) {
      assert Statuses(u.log) == Statuses(w.log) + [s];
    }
    hide Continue, IsAnswer, IsRinging;
  }

  lemma DialTells(w: World, leg: Leg, report: DialReport, h: seq<Occurrence>)
    requires Core(w) && Tells(w, h) && Matched(w, leg) && w.log != []
    ensures Tells(HandleDial(w, leg, report).0, h + [Occurrence(CallMachine.Dial(leg, report), w.partner)])
  {
    var o := Occurrence(CallMachine.Dial(leg, report), w.partner);
    OneMore(h, o);
    LiveStatus(w, h);
    var w1 := w.(call := WithDial(w.call, if report.Known? then Some(report.dial) else None));
    if leg == Main && report == Known(DialRinging) && !w.call.answered {
      PublishTells(w1, Ringing, ToReturn, h, o);
    }
    if leg == Main && report == Known(DialAnswer) {
      PublishTells(w1, Answered, ToReturn, h, o);
    }
    hide Core, Publish;
  }

  lemma StateChangeTells(w: World, leg: Leg, state: ChannelState, late: bool, h: seq<Occurrence>)
    requires Core(w) && Tells(w, h) && Matched(w, leg) && w.log != []
    ensures Tells(Handle(w, StateChange(leg, state), late).0, h + [Occurrence(StateChange(leg, state), w.partner)])
  {
    var o := Occurrence(StateChange(leg, state), w.partner);
    OneMore(h, o);
    LiveStatus(w, h);
    if leg == Main && state == StateRinging {
      PublishTells(w, Ringing, ToReturn, h, o);
    }
    if leg == Main && state == StateUp {
      PublishTells(w, Answered, ToAnsweredUp, h, o);
    }
    hide Core, Publish;
  }

  lemma StasisStartTells(w: World, leg: Leg, up: bool, late: bool, h: seq<Occurrence>)
    requires Core(w) && Tells(w, h) && Matched(w, leg) && w.log != []
    ensures Tells(Handle(w, StasisStart(leg, up), late).0, h + [Occurrence(StasisStart(leg, up), w.partner)])
  {
    var o := Occurrence(StasisStart(leg, up), w.partner);
    OneMore(h, o);
    LiveStatus(w, h);
    assert w.call.activating || w.call.bridged ==> w.call.answered;
    if leg == Main && w.partner && (up || w.call.answered) {
      PublishTells(w.(call := w.call.(inStasis := true)), Answered, ToClaim, h, o);
    }
    hide Core, Publish;
  }

  lemma StasisEndTells(w: World, leg: Leg, late: bool, h: seq<Occurrence>)
    requires Core(w) && Tells(w, h) && Matched(w, leg) && w.log != []
    ensures Tells(Handle(w, StasisEnd(leg), late).0, h + [Occurrence(StasisEnd(leg), w.partner)])
  {
    OneMore(h, Occurrence(StasisEnd(leg), w.partner));
    hide Core;
  }

  lemma HangupTells(w: World, leg: Leg, cause: Option<int>, late: bool, h: seq<Occurrence>)
    requires Core(w) && Tells(w, h) && Matched(w, leg) && w.log != []
    ensures Tells(Handle(w, HangupRequest(leg, cause), late).0, h + [Occurrence(HangupRequest(leg, cause), w.partner)])
  {
    OneMore(h, Occurrence(HangupRequest(leg, cause), w.partner));
    hide Core;
  }

  lemma DestroyedTells(w: World, leg: Leg, cause: Option<int>, late: bool, h: seq<Occurrence>)
    requires Core(w) && Tells(w, h) && Matched(w, leg) && w.log != []
    ensures Tells(HandleDestroyed(w, leg, cause, late).0, h + [Occurrence(Destroyed(leg, cause), w.partner)])
  {
    var h1 := h + [Occurrence(Destroyed(leg, cause), w.partner)];
    OneMore(h, Occurrence(Destroyed(leg, cause), w.partner));
    var w1 := if leg == Media then w else w.(call := WithDestroyCause(w.call, cause));
    assert Tells(w1, h1);
    hide Core, Cleanup, Tells;
    CleanupHearsNothing(w1, None, false, late);
    CleanupHearsNothing(w1, Some(MediaFailed), false, late);
    if leg == Main {
      NothingHeardTells(w1, Cleanup(w1, None, false, late).0, h1);
    } else if leg == Media {
      NothingHeardTells(w1, Cleanup(w1, Some(MediaFailed), false, late).0, h1);
    }
  }

  lemma HandleTells(w: World, ev: Event, late: bool, h: seq<Occurrence>)
    requires Core(w) && Tells(w, h) && Matched(w, ev.leg) && w.log != []
    ensures Tells(Handle(w, ev, late).0, h + [Occurrence(ev, w.partner)])
  {
    match ev {
      case Dial(leg, report) => DialTells(w, leg, report, h);
      case HangupRequest(leg, cause) => HangupTells(w, leg, cause, late, h);
      case Destroyed(leg, cause) => DestroyedTells(w, leg, cause, late, h);
      case StasisEnd(leg) => StasisEndTells(w, leg, late, h);
      case StateChange(leg, state) => StateChangeTells(w, leg, state, late, h);
      case StasisStart(leg, up) => StasisStartTells(w, leg, up, late, h);
      case Irrelevant(leg) => OneMore(h, Occurrence(ev, w.partner));
    }
  }

  // -------------------------------------------------------------------------- moves

  lemma ListenerTells(w: World, ok: bool, late: bool, h: seq<Occurrence>)
    requires Inv(w) && Tells(w, h)
    ensures Tells(ListenerStep(w, ok, late), h) && ListenerStep(w, ok, late).handled == w.handled
  {
    hide Core, Gated, InOrder, LossExplained, Resume, FrameOk, Grown, Tells;
    if w.listener.ListenerBusy? {
      if w.listener.frame.Deleting? {
        DeletingEnds(w, ok, late);
        NothingHeardTells(w, ListenerStep(w, ok, late), h);
      } else {
        ResumeKeeps(w, w.listener.frame, ok, late);
        ResumeHearsNothing(w, w.listener.frame, ok, late);
        GrownIsQuiet(w, Resume(w, w.listener.frame, ok, late).0);
        NothingHeardTells(w, ListenerStep(w, ok, late), h);
      }
    }
  }

  lemma ArrivalTells(w: World, ev: Event, late: bool, arrived: seq<Event>, h: seq<Occurrence>)
    requires Inv(w) && Linked(w, arrived) && Tells(w, h)
    ensures var u := Arrive(w, ev, late);
            Tells(u, h + Occurred(w, u, arrived + Newly(w, EventArrives(ev, late))))
  {
    hide Core, InOrder, LossExplained, Exclusive, Handle, FrameOk, Tells;
    var now := arrived + Newly(w, EventArrives(ev, late));
    if w.listener.ListenerIdle? && Matched(w, ev.leg) && !(!w.accepted || !w.drain.NoDrain?) {
      var w0 := Begun(w, ev);
      CoreOnlyReads(w, w0);
      SameTells(w, w0, h);
      HandleKeeps(w0, ev, late);
      HandleTells(w0, ev, late, h);
      var (u, out) := Handle(w0, ev, late);
      GrownIsQuiet(w0, u);
      hide Grown;
      assert now[|w.fates|] == ev;
      SameTells(u, ListenerTo(u, out), h + [Occurrence(ev, w.partner)]);
    } else {
      var w0 := Begun(w, ev);
      CoreOnlyReads(w, w0);
      HandleKeeps(w0, ev, late);
      hide Grown;
      SameTells(w, Arrive(w, ev, late), h);
      assert h + [] == h;
    }
  }

  lemma SameTells(w: World, u: World, h: seq<Occurrence>)
    requires Tells(w, h) && u.call == w.call && u.log == w.log && u.inRegistry == w.inRegistry && u.ender == w.ender
    ensures Tells(u, h)
  {}

  lemma DrainToTells(w: World, out: Outcome, late: bool, h: seq<Occurrence>)
    requires Tells(w, h)
    ensures Tells(DrainTo(w, out, late), h) && DrainTo(w, out, late).handled == w.handled
  {
    CleanupHearsNothing(w, Some(EventFailed), false, late);
    hide Tells, Termination;
    NothingHeardTells(w, DrainTo(w, out, late), h);
  }

  lemma DrainTells(w: World, ok: bool, late: bool, arrived: seq<Event>, h: seq<Occurrence>)
    requires Inv(w) && Linked(w, arrived) && Tells(w, h)
    ensures var u := DrainStep(w, ok, late);
            Tells(u, h + Occurred(w, u, arrived))
  {
    hide Core, InOrder, LossExplained, Resume, Cleanup, Handle, FrameOk, Grown, DrainTo, Tells;
    assert h + [] == h;
    match w.drain {
      case DrainLooping =>
        if w.pending != [] && w.inRegistry {
          var ev := w.pending[0].event;
          CoreOnlyReads(w, Popped(w));
          SameTells(w, Popped(w), h);
          HandleKeeps(Popped(w), ev, late);
          assert w.pending[0] in w.pending;
          NumberWaits(w);
          HandleTells(Popped(w), ev, late, h);
          var (u, out) := Handle(Popped(w), ev, late);
          GrownIsQuiet(Popped(w), u);
          DrainToTells(u, out, late, h + [Occurrence(ev, w.partner)]);
        } else {
          SameTells(w, DrainStep(w, ok, late), h);
        }
      case DrainBusy(frame) =>
        ResumeKeeps(w, frame, ok, late);
        ResumeHearsNothing(w, frame, ok, late);
        var (u, out) := Resume(w, frame, ok, late);
        GrownIsQuiet(w, u);
        NothingHeardTells(w, u, h);
        DrainToTells(u, out, late, h);
      case DrainCleaning(frame) =>
        ResumeKeeps(w, frame, ok, late);
        ResumeHearsNothing(w, frame, ok, late);
        GrownIsQuiet(w, Resume(w, frame, ok, late).0);
        NothingHeardTells(w, DrainStep(w, ok, late), h);
      case _ => SameTells(w, DrainStep(w, ok, late), h);
    }
  }

  lemma EnderTells(w: World, ok: bool, late: bool, h: seq<Occurrence>)
    requires Inv(w) && Tells(w, h)
    ensures Tells(EnderStep(w, ok, late), h)
  {
    hide Core, Gated, InOrder, LossExplained, Resume, Cleanup, FrameOk, Tells;
    CleanupHearsNothing(w, None, false, late);
    if w.ender.EnderBusy? {
      ResumeHearsNothing(w, w.ender.frame, ok, late);
    }
    NothingHeardTells(w, EnderStep(w, ok, late), h);
  }

  lemma FirstPublishTells(w: World, h: seq<Occurrence>)
    requires Tells(w, h) && h == [] && w.log == [] && w.inRegistry && !w.call.answered && !w.call.status.Ended?
    requires w.call.sequence == 0
    ensures var (u, out) := Publish(w, CallSignals.Dialing, ToReturn);
            Tells(OriginateTo(u, out), h)
  {}

  lemma DialingTells(w: World, ok: bool, h: seq<Occurrence>)
    requires Inv(w) && Tells(w, h) && w.originate.PublishingDialing?
    ensures Tells(OriginateStep(w, ok), h)
  {
    DialingResumes(w, ok);
    DialingHearsNothing(w, ok);
    hide Inv, Resume, Tells, NothingHeard;
    var (u, out) := Resume(w, w.originate.frame, ok, false);
    NothingHeardTells(w, u, h);
    FailedTells(u, h);
    hide FailOriginate;
    if out.Suspended? || !out.raised {
      SameTells(u, OriginateStep(w, ok), h);
    }
  }

  lemma OriginateTells(w: World, ok: bool, h: seq<Occurrence>)
    requires Inv(w) && Tells(w, h) && |h| == |w.handled|
    ensures Tells(OriginateStep(w, ok), h)
  {
    if w.originate.PublishingDialing? {
      DialingTells(w, ok, h);
    } else if w.originate.Acknowledging? {
      assert h == [] && w.log == [];
      FirstPublishTells(w, h);
      FailedTells(w, h);
    } else if w.originate.Posting? {
      FailedTells(w, h);
      SameTells(w, w.(originate := Acknowledging), h);
    } else {
      OthersTell(w, ok, h);
    }
    hide Tells, Core, InOrder, LossExplained, Exclusive, Publish, FailOriginate, OriginateTo;
  }

  lemma OthersTell(w: World, ok: bool, h: seq<Occurrence>)
    requires Inv(w) && Tells(w, h)
    requires !w.originate.PublishingDialing? && !w.originate.Acknowledging? && !w.originate.Posting?
    ensures Tells(OriginateStep(w, ok), h)
  {
    hide Core, InOrder, LossExplained, Exclusive;
  }

  lemma DialingHearsNothing(w: World, ok: bool)
    requires Inv(w) && w.originate.PublishingDialing?
    ensures NothingHeard(w, Resume(w, w.originate.frame, ok, false).0)
  {
  }

  lemma FailedTells(w: World, h: seq<Occurrence>)
    requires Tells(w, h) && w.inRegistry
    ensures Tells(FailOriginate(w), h)
  {
    var u := FailOriginate(w);
    assert u.log[..|u.log| - 1] == w.log;
    hide StatusesOf, CauseHeard, DialHeard, AnsweredIn, StasisIn, LeftStasis;
  }

  lemma StepTells(w: World, move: Move, arrived: seq<Event>, h: seq<Occurrence>)
    requires Inv(w) && Linked(w, arrived) && Tells(w, h) && |h| == |w.handled|
    ensures var u := Next(w, move);
            Tells(u, h + Occurred(w, u, arrived + Newly(w, move)))
  {
    hide Inv, Linked, Tells, Arrive, DrainStep, ListenerStep, EnderStep, OriginateStep;
    assert h + [] == h;
    if !move.EventArrives? {
      assert arrived + Newly(w, move) == arrived;
    }
    match move {
      case EventArrives(ev, late) => ArrivalTells(w, ev, late, arrived, h);
      case ListenerRuns(ok, late) => ListenerTells(w, ok, late, h);
      case DrainRuns(ok, late) => DrainTells(w, ok, late, arrived, h);
      case EnderRuns(ok, late) => OthersAreQuiet(w, move); EnderTells(w, ok, late, h);
      case OriginateRuns(ok) => OthersAreQuiet(w, move); OriginateTells(w, ok, h);
      case PartnerLeaves => SameTells(w, Next(w, move), h);
      case PartnerAsksEnd(_) => AskTells(w, move, h);
    }
  }

  lemma AskTells(w: World, move: Move, h: seq<Occurrence>)
    requires Tells(w, h) && move.PartnerAsksEnd?
    ensures Tells(Next(w, move), h)
  {}

  lemma OneHandledAtMost(w: World, move: Move)
    requires Inv(w)
    ensures var u := Next(w, move);
            u.handled == w.handled || |u.handled| == |w.handled| + 1
  {
    hide Inv, Arrive, DrainStep, ListenerStep, EnderStep, OriginateStep;
    match move {
      case EventArrives(ev, late) => ArrivalHandlesOne(w, ev, late);
      case DrainRuns(ok, late) => DrainHandlesOne(w, ok, late);
      case _ => OthersAreQuiet(w, move);
    }
  }

  lemma ArrivalHandlesOne(w: World, ev: Event, late: bool)
    requires Inv(w)
    ensures var u := Arrive(w, ev, late);
            u.handled == w.handled || |u.handled| == |w.handled| + 1
  {
    hide Core, Handle;
    CoreOnlyReads(w, Begun(w, ev));
    HandleKeeps(Begun(w, ev), ev, late);
  }

  lemma DrainHandlesOne(w: World, ok: bool, late: bool)
    requires Inv(w)
    ensures var u := DrainStep(w, ok, late);
            u.handled == w.handled || |u.handled| == |w.handled| + 1
  {
    hide Core, Gated, InOrder, LossExplained, Resume, Cleanup, Handle, FrameOk, Grown, DrainTo;
    match w.drain {
      case DrainLooping =>
        if w.pending != [] {
          CoreOnlyReads(w, Popped(w));
          HandleKeeps(Popped(w), w.pending[0].event, late);
          var (u, out) := Handle(Popped(w), w.pending[0].event, late);
          GrownIsQuiet(Popped(w), u);
          DrainToStartsNothing(u, out, late);
        }
      case DrainBusy(frame) =>
        ResumeKeeps(w, frame, ok, late);
        var (u, out) := Resume(w, frame, ok, late);
        GrownIsQuiet(w, u);
        DrainToStartsNothing(u, out, late);
      case DrainCleaning(frame) =>
        ResumeKeeps(w, frame, ok, late);
        GrownIsQuiet(w, Resume(w, frame, ok, late).0);
      case _ =>
    }
  }

  lemma OccurredCounts(w: World, u: World, now: seq<Event>)
    requires Linked(u, now) && (u.handled == w.handled || |u.handled| == |w.handled| + 1)
    ensures |w.handled| + |Occurred(w, u, now)| == |u.handled|
  {
    if u.handled != w.handled {
      assert u.handled[|u.handled| - 1] in u.handled;
    }
  }

  lemma {:induction false} RunTells(moves: seq<Move>)
    ensures Tells(Run(moves), History(moves)) && |History(moves)| == |Run(moves).handled|
  {
    if moves == [] {
      assert Run(moves) == RESERVED_WORLD;
    } else {
      var before, last := moves[..|moves| - 1], moves[|moves| - 1];
      hide Inv, Tells, Next, Newly, Linked, Occurred;
      RunTells(before);
      RunKeeps(before);
      RunLinks(before);
      RunLinks(moves);
      OneHandledAtMost(Run(before), last);
      OccurredCounts(Run(before), Run(moves), Arrived(moves));
      StepTells(Run(before), last, Arrived(before), History(before));
    }
  }

  /**
    However the coroutines interleave, a call is what was heard of it: whether it is answered
    and in Stasis, its hangup cause and dial status, and which statuses were published, are
    those the handled events call for in their order; behind them comes at most its end.
   */
  lemma CallIsWhatWasHeard(moves: seq<Move>)
    ensures var w, h := Run(moves), History(moves);
            && |h| == |w.handled|
            && w.call.answered == AnsweredIn(h) && w.call.inStasis == StasisIn(h)
            && w.call.hangupCause == CauseHeard(h) && w.call.dialStatus == DialHeard(h)
            && (w.inRegistry ==> Statuses(w.log) == StatusesOf(w.log != [], h))
            && (!w.inRegistry && w.log != [] ==>
                Last(w.log).Terminal() && Statuses(w.log[..|w.log| - 1]) == StatusesOf(|w.log| > 1, h))
  {
    RunTells(moves);
    hide Run, History, StatusesOf, Statuses;
  }
}
