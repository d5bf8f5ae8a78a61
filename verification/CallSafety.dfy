/**
  Safety of the call machine over every run: one activation, one termination, a
  gap-free rising status log, and events handled in order once the call is accepted.
 */
module CallSafety {
  import opened Basics
  import opened CallSignals
  import opened CallMachine

  function Last(log: seq<Snapshot>): Snapshot
    requires log != []
  {
    log[|log| - 1]
  }

  // --------------------------------------------------------------- the invariant

  /** Sequences 1, 2, 3, ... without a gap. */
  ghost predicate Numbered(log: seq<Snapshot>) {
    forall i | 0 <= i < |log| :: log[i].sequence == i + 1
  }

  /** Statuses strictly rise, and the answered flag never goes back. */
  ghost predicate Rising(log: seq<Snapshot>) {
    && (forall i, j | 0 <= i < j < |log| :: Rank(log[i].status) < Rank(log[j].status))
    && (forall i, j | 0 <= i < j < |log| :: log[i].answered ==> log[j].answered)
  }

  /** The call's fields are what its last snapshot says. */
  ghost predicate Tied(c: Call, log: seq<Snapshot>) {
    && c.sequence == |log|
    && (log == [] ==> c.status == CallSignals.Dialing && !c.answered)
    && (log != [] ==> Last(log).status == c.status && Last(log).answered == c.answered)
    && (c.status.Ended? ==> log != [] && Last(log) == SnapshotOf(c))
    && (c.answered ==> c.status == Answered || c.status.Ended?)
    && (c.status == Answered ==> c.answered)
  }

  /** One activation at most, begun only when answered and in Stasis. */
  ghost predicate StartsOnce(w: World) {
    && |w.starts| <= 1
    && (w.starts != [] <==> w.call.activating)
    && (forall s | s in w.starts :: s.answered && s.inStasis)
    && (w.call.bridged ==> w.call.activating)
    && (w.call.activating ==> w.call.answered)
  }

  /** A call in the registry is never terminal; it leaves at most once. */
  ghost predicate EndsOnce(w: World) {
    && (w.inRegistry ==> !w.call.status.Ended? && w.cleanups == 0)
    && (!w.inRegistry ==> w.call.status.Ended? || (w.log == [] && w.starts == []))
    && w.cleanups <= 1
    && (w.cleanups == 1 ==> w.call.status.Ended?)
  }

  /** What the partner can query is the terminal snapshot, from before it is sent. */
  ghost predicate RemembersEnd(w: World) {
    && (w.completed.Some? <==> w.kept > 0)
    && (w.completed.Some? ==> w.call.status.Ended? && w.log != [] && w.completed.value == Last(w.log))
    && (forall s | s in w.sent && s.Terminal() :: w.completed.Some? && s == w.completed.value)
  }

  ghost predicate Core(w: World) {
    && Numbered(w.log) && Rising(w.log) && Tied(w.call, w.log)
    && StartsOnce(w) && EndsOnce(w) && RemembersEnd(w)
  }

  ghost predicate Alive(w: World) { w.inRegistry || w.call.status.Ended? }

  ghost predicate AfterOk(w: World, after: After) {
    match after
    case ToReturn => true
    case ToAnsweredUp => w.call.answered
    case ToClaim => w.call.answered && w.call.inStasis && !w.call.activating && !w.call.bridged
    case ToBridge => w.call.activating
    case ToClose(_) => !w.inRegistry && w.call.status.Ended?
  }

  ghost predicate SnapOk(w: World, s: Snapshot) {
    s.Terminal() ==> w.call.status.Ended? && w.log != [] && s == Last(w.log)
  }

  /** What holds while a handler is suspended in `frame`. */
  ghost predicate FrameOk(w: World, frame: Frame) {
    match frame
    case Deleting => true
    case Recording(s, after) => Alive(w) && SnapOk(w, s) && AfterOk(w, after) && (after.ToClose? ==> s.Terminal())
    case Sending(s, after) =>
      Alive(w) && SnapOk(w, s) && AfterOk(w, after) && (s.Terminal() ==> w.completed == Some(s))
    case Closing(s, _) => !w.inRegistry && w.call.status.Ended? && w.log != [] && s == Last(w.log)
    case _ => Alive(w) && w.call.activating
  }

  ghost predicate OutcomeOk(w: World, out: Outcome) { out.Suspended? ==> FrameOk(w, out.frame) }

  /** Frames of a cleanup; the deferred cleanup is in no other. */
  predicate CleaningUp(frame: Frame) {
    match frame
    case Recording(_, after) => after.ToClose?
    case Sending(_, after) => after.ToClose?
    case Closing(_, _) => true
    case _ => false
  }

  /** What no step of any coroutine takes back. */
  ghost predicate Grown(w: World, u: World) {
    && w.log <= u.log
    && (w.call.status.Ended? ==> u.call.status.Ended? && u.log == w.log)
    && (!w.inRegistry ==> !u.inRegistry && u.cleanups == w.cleanups)
    && (w.call.answered ==> u.call.answered)
    && (w.call.activating ==> u.call.activating) && (w.call.mediaKnown ==> u.call.mediaKnown)
    && (Alive(w) ==> Alive(u))
    && (w.completed.Some? ==> u.completed == w.completed)
    && w.cleanups <= u.cleanups && (w.inRegistry && !u.inRegistry ==> u.cleanups > 0)
    && u.accepted == w.accepted && u.pending == w.pending && u.fates == w.fates && u.handled == w.handled
    && u.originate == w.originate && u.listener == w.listener && u.drain == w.drain
    && u.partner == w.partner && (u.ender.EnderBusy? ==> u.ender == w.ender)
  }

  /** Nothing an activation claim depends on has moved. */
  ghost predicate ClaimUntouched(w: World, u: World) {
    u.call.inStasis == w.call.inStasis && u.call.activating == w.call.activating && u.call.bridged == w.call.bridged
  }

  // ---------------------------------------------------------- handlers keep it

  lemma MovedKeeps(w: World, c: Call, s: Status)
    requires Numbered(w.log) && Rising(w.log) && Tied(w.call, w.log)
    requires c.status == w.call.status && c.sequence == w.call.sequence && c.answered == w.call.answered
    requires !Suppressed(c, s) && (s == CallSignals.Dialing ==> w.log == [])
    ensures var log := w.log + [SnapshotOf(Moved(c, s))];
            Numbered(log) && Rising(log) && Tied(Moved(c, s), log)
  {
    var log := w.log + [SnapshotOf(Moved(c, s))];
    if w.log != [] {
      assert Rank(Last(w.log).status) < Rank(s);
      assert forall i | 0 <= i < |w.log| - 1 :: Rank(w.log[i].status) < Rank(Last(w.log).status)
                                               && (w.log[i].answered ==> Last(w.log).answered);
    }
    forall i, j | 0 <= i < j < |log|
      ensures Rank(log[i].status) < Rank(log[j].status) && (log[i].answered ==> log[j].answered)
    {
      if j == |w.log| && i < |w.log| - 1 {
        assert log[i] == w.log[i];
      }
    }
  }

  lemma PublishMovedKeeps(w: World, c: Call, s: Status, after: After)
    requires Core(w) && w.inRegistry && !Suppressed(c, s) && (s == CallSignals.Dialing ==> w.log == [])
    requires c.status == w.call.status && c.sequence == w.call.sequence && c.answered == w.call.answered
    requires c.activating == w.call.activating && c.bridged == w.call.bridged && c.mediaKnown == w.call.mediaKnown
    requires !s.Ended? && AfterOk(w.(call := Moved(c, s)), after)
    ensures var (u, out) := PublishMoved(w, Moved(c, s), after);
            Core(u) && OutcomeOk(u, out) && Grown(w, u)
  {
    MovedKeeps(w, c, s);
    hide Numbered, Rising, Suppressed;
  }

  lemma TerminatedKeeps(w: World, override: Option<Reason>, late: bool)
    requires Core(w) && w.inRegistry
    ensures var c := Terminated(w.call, override, late);
            && c.status.Ended? && c.inStasis == w.call.inStasis && c.answered == w.call.answered
            && c.activating == w.call.activating && c.bridged == w.call.bridged && c.mediaKnown == w.call.mediaKnown
            && Numbered(w.log + [SnapshotOf(c)]) && Rising(w.log + [SnapshotOf(c)]) && Tied(c, w.log + [SnapshotOf(c)])
  {
    var (how, why) := Termination(w.call, late);
    var c := w.call.(reason := if override.Some? then override else Some(why));
    MovedKeeps(w, c, Ended(if override.Some? then Failed else how));
    hide Numbered, Rising, Termination;
  }

  lemma CleanupKeeps(w: World, override: Option<Reason>, raises: bool, late: bool)
    requires Core(w)
    ensures var (u, out) := Cleanup(w, override, raises, late);
            && Core(u) && OutcomeOk(u, out) && Grown(w, u) && ClaimUntouched(w, u) && !u.inRegistry
            && (out.Suspended? ==> CleaningUp(out.frame) && u.cleanups == 1)
  {
    if w.inRegistry {
      TerminatedKeeps(w, override, late);
      hide Numbered, Rising, Tied, Terminated;
    }
  }

  lemma ContinueKeeps(w: World, after: After)
    requires Core(w) && Alive(w) && AfterOk(w, after)
    ensures var (u, out) := Continue(w, after);
            && Core(u) && OutcomeOk(u, out) && Grown(w, u)
            && (after.ToClose? ==> ClaimUntouched(w, u) && out.Suspended? && CleaningUp(out.frame))
  {
    hide Numbered, Rising;
  }

  lemma PublishKeeps(w: World, s: Status, after: After)
    requires Core(w) && Alive(w) && !s.Ended? && (s == CallSignals.Dialing ==> w.log == [])
    requires after.ToReturn? || (s == Answered && !after.ToClose?)
    requires after.ToAnsweredUp? ==> w.inRegistry
    requires after.ToClaim? ==> w.inRegistry && w.call.inStasis && !w.call.activating && !w.call.bridged
    requires after.ToBridge? ==> w.call.activating
    ensures var (u, out) := Publish(w, s, after);
            Core(u) && OutcomeOk(u, out) && Grown(w, u)
  {
    hide Numbered, Rising;
    if Suppressed(w.call, s) {
      ContinueKeeps(w, after);
    } else {
      PublishMovedKeeps(w, w.call, s, after);
    }
  }

  lemma RecordedKeeps(w: World, snap: Snapshot, after: After)
    requires Core(w) && FrameOk(w, Recording(snap, after))
    ensures var (u, out) := Resume(w, Recording(snap, after), true, true);
            && Core(u) && OutcomeOk(u, out) && Grown(w, u)
            && (after.ToClose? ==> ClaimUntouched(w, u) && out.Suspended? && CleaningUp(out.frame))
  {
    if w.partner {
      HandedOnKeeps(w, snap, after);
      hide Core, Grown, FrameOk;
    } else {
      var w0 := w.(recorded := w.recorded + [snap]);
      RecordingKeeps(w, snap);
      ContinueKeeps(w0, after);
      GrownTrans(w, w0, Continue(w0, after).0);
      hide Core, Grown, Continue;
    }
  }

  lemma RecordingKeeps(w: World, snap: Snapshot)
    requires Core(w)
    ensures var u := w.(recorded := w.recorded + [snap]);
            Core(u) && Grown(w, u) && ClaimUntouched(w, u)
  {
    hide Numbered, Rising;
  }

  /** The stored snapshot goes to the partner, a terminal one after it was remembered. */
  lemma HandedOnKeeps(w: World, snap: Snapshot, after: After)
    requires Core(w) && FrameOk(w, Recording(snap, after)) && w.partner
    ensures var (u, out) := Resume(w, Recording(snap, after), true, true);
            Core(u) && OutcomeOk(u, out) && Grown(w, u) && ClaimUntouched(w, u)
  {
    hide Numbered, Rising, Continue;
  }

  lemma SentKeeps(w: World, snap: Snapshot, after: After, ok: bool, late: bool)
    requires Core(w) && FrameOk(w, Sending(snap, after))
    ensures var (u, out) := Resume(w, Sending(snap, after), ok, late);
            && Core(u) && OutcomeOk(u, out) && Grown(w, u)
            && (after.ToClose? ==> ClaimUntouched(w, u) && out.Suspended? && CleaningUp(out.frame))
  {
    ContinueKeeps(w, after);
    CleanupKeeps(w, Some(MediaFailed), true, late);
    ItselfGrown(w);
    hide Core, Continue, Cleanup, Grown;
  }

  lemma ActivationKeeps(w: World, frame: Frame, ok: bool, late: bool)
    requires Core(w) && FrameOk(w, frame) && !frame.Recording? && !frame.Sending?
    ensures var (u, out) := Resume(w, frame, ok, late);
            && Core(u) && OutcomeOk(u, out) && Grown(w, u)
            && (frame.Closing? ==> ClaimUntouched(w, u) && !out.Suspended?)
  {
    hide Numbered, Rising, Publish, Cleanup;
    CleanupKeeps(w, Some(MediaFailed), true, late);
    if frame.Answering? {
      PublishKeeps(w, Answered, ToBridge);
    }
  }

  lemma ResumeKeeps(w: World, frame: Frame, ok: bool, late: bool)
    requires Core(w) && FrameOk(w, frame)
    ensures var (u, out) := Resume(w, frame, ok, late);
            && Core(u) && OutcomeOk(u, out) && Grown(w, u)
            && (CleaningUp(frame) ==> ClaimUntouched(w, u) && (out.Suspended? ==> CleaningUp(out.frame)))
  {
    hide Core, FrameOk, Grown, Continue, Cleanup, Publish;
    match frame {
      case Recording(snap, after) => RecordedKeeps(w, snap, after);
      case Sending(snap, after) => SentKeeps(w, snap, after, ok, late);
      case _ => ActivationKeeps(w, frame, ok, late);
    }
  }

  lemma FieldsKeep(w: World, c: Call)
    requires Core(w) && w.inRegistry
    requires c.status == w.call.status && c.sequence == w.call.sequence && c.answered == w.call.answered
    requires c.activating == w.call.activating && c.bridged == w.call.bridged && c.mediaKnown == w.call.mediaKnown
    ensures Core(w.(call := c)) && Grown(w, w.(call := c))
  {
    hide Numbered, Rising;
  }

  lemma HandleKeeps(w: World, ev: Event, late: bool)
    requires Core(w)
    ensures var (u, out) := Handle(w, ev, late);
            && Core(u) && OutcomeOk(u, out) && Grown(w, u)
            && (!Matched(w, ev.leg) ==> u == w && (out.Suspended? ==> out.frame.Deleting?))
  {
    hide Core, Publish, Cleanup, Grown;
    if Matched(w, ev.leg) {
      match ev {
        case Dial(leg, report) => DialKeeps(w, leg, report);
        case HangupRequest(leg, cause) => FieldsKeep(w, w.call.(hangupCause := cause)); ItselfGrown(w);
        case Destroyed(leg, cause) => DestroyedKeeps(w, leg, cause, late);
        case StasisEnd(leg) => StasisEndKeeps(w, leg);
        case StateChange(leg, state) => StateChangeKeeps(w, leg, state, late);
        case StasisStart(leg, up) => StasisStartKeeps(w, leg, up);
        case Irrelevant(leg) => ItselfGrown(w);
      }
    } else {
      ItselfGrown(w);
    }
  }

  lemma ItselfGrown(w: World)
    ensures Grown(w, w)
  {}

  lemma GrownTrans(w: World, x: World, u: World)
    requires Grown(w, x) && Grown(x, u)
    ensures Grown(w, u)
  {}

  lemma DialKeeps(w: World, leg: Leg, report: DialReport)
    requires Core(w) && Matched(w, leg)
    ensures var (u, out) := HandleDial(w, leg, report);
            Core(u) && OutcomeOk(u, out) && Grown(w, u)
  {
    hide Core, Publish;
    ItselfGrown(w);
    var w1 := w.(call := WithDial(w.call, if report.Known? then Some(report.dial) else None));
    FieldsKeep(w, w1.call);
    PublishKeeps(w1, Ringing, ToReturn);
    PublishKeeps(w1, Answered, ToReturn);
    GrownTrans(w, w1, Publish(w1, Ringing, ToReturn).0);
    GrownTrans(w, w1, Publish(w1, Answered, ToReturn).0);
    hide Grown;
  }

  lemma DestroyedKeeps(w: World, leg: Leg, cause: Option<int>, late: bool)
    requires Core(w) && Matched(w, leg)
    ensures var (u, out) := HandleDestroyed(w, leg, cause, late);
            Core(u) && OutcomeOk(u, out) && Grown(w, u)
  {
    hide Core, Cleanup, Grown, OutcomeOk, Termination;
    var w1 := if leg == Media then w else w.(call := WithDestroyCause(w.call, cause));
    FieldsKeep(w, w1.call);
    if leg == Other {
      NothingOutstanding(w1);
    } else {
      var reason := if leg == Main then None else Some(MediaFailed);
      CleanupKeeps(w1, reason, false, late);
      GrownTrans(w, w1, Cleanup(w1, reason, false, late).0);
    }
  }

  lemma NothingOutstanding(w: World)
    ensures OutcomeOk(w, Finished(false))
  {}

  lemma StasisEndKeeps(w: World, leg: Leg)
    requires Core(w) && Matched(w, leg)
    ensures var u := Handle(w, StasisEnd(leg), false).0;
            Core(u) && Grown(w, u)
  {
    hide Numbered, Rising;
  }

  lemma StateChangeKeeps(w: World, leg: Leg, state: ChannelState, late: bool)
    requires Core(w) && Matched(w, leg)
    ensures var (u, out) := Handle(w, StateChange(leg, state), late);
            Core(u) && OutcomeOk(u, out) && Grown(w, u)
  {
    hide Core, Publish;
    ItselfGrown(w);
    PublishKeeps(w, Ringing, ToReturn);
    PublishKeeps(w, Answered, ToAnsweredUp);
    hide Grown;
  }

  lemma StasisStartKeeps(w: World, leg: Leg, up: bool)
    requires Core(w) && Matched(w, leg)
    ensures var (u, out) := HandleStasisStart(w, leg, up);
            Core(u) && OutcomeOk(u, out) && Grown(w, u)
  {
    hide Core, Publish;
    ItselfGrown(w);
    var w1 := w.(call := w.call.(inStasis := true));
    FieldsKeep(w, w1.call);
    if !w.call.activating && !w.call.bridged {
      PublishKeeps(w1, Answered, ToClaim);
      GrownTrans(w, w1, Publish(w1, Answered, ToClaim).0);
    }
    hide Grown;
  }

  // ----------------------------------------------------- who may run, and when

  /** Frames other than a lone channel delete touch the call. */
  predicate Touches(l: Listener) { l.ListenerBusy? && !l.frame.Deleting? }

  /** Nothing was acted on before acceptance; afterwards `originate` no longer acts. */
  ghost predicate Gated(w: World) {
    && (!w.accepted ==>
          && w.inRegistry && !Touches(w.listener) && (w.drain.NoDrain? || w.drain.DrainWaiting?)
          && w.ender.NoEnder? && w.handled == [] && w.starts == [])
    && (w.accepted <==> w.originate.RecordingFailure? || w.originate.DeletingChannels? || w.originate.OriginateDone?)
    && (w.originate.RecordingFailure? || w.originate.DeletingChannels? ==> !w.inRegistry && w.cleanups == 0)
    && (w.originate.Starting? || w.originate.Posting? || w.originate.Acknowledging? ==> w.log == [])
    && (w.originate.PublishingDialing? ==> |w.log| == 1 && PublishesDialing(w.originate.frame, w.log[0]))
    && (w.accepted && (w.inRegistry || w.handled != []) ==>
          w.originate.OriginateDone? && w.log != [] && w.log[0].status == CallSignals.Dialing)
    && (!w.inRegistry && w.cleanups == 0 ==> w.handled == [])
  }

  ghost predicate PublishesDialing(frame: Frame, s: Snapshot) {
    s.status == CallSignals.Dialing && (frame == Recording(s, ToReturn) || frame == Sending(s, ToReturn))
  }

  /** The listener and the drain never both work on the call; the deferred task only cleans up. */
  ghost predicate Exclusive(w: World) {
    && (Touches(w.listener) ==> w.drain.NoDrain? && FrameOk(w, w.listener.frame))
    && (w.drain.DrainBusy? ==> FrameOk(w, w.drain.frame))
    && (w.drain.DrainCleaning? ==> FrameOk(w, w.drain.frame) && CleaningUp(w.drain.frame))
    && (w.ender.EnderBusy? ==> FrameOk(w, w.ender.frame) && CleaningUp(w.ender.frame))
  }

  ghost predicate Ascending(ns: seq<nat>) {
    forall i, j | 0 <= i < j < |ns| :: ns[i] < ns[j]
  }

  function Numbers(pending: seq<Arrival>): seq<nat> {
    seq(|pending|, i requires 0 <= i < |pending| => pending[i].number)
  }

  ghost predicate Filed(fates: seq<Fate>, handled: seq<nat>, waiting: seq<nat>) {
    && (forall n | n in handled || n in waiting :: n < |fates|)
    && (forall i | 0 <= i < |fates| :: fates[i] == Handled <==> i in handled)
    && (forall i | 0 <= i < |fates| :: fates[i] == Waiting <==> i in waiting)
  }

  /** The events handled, followed by those still queued, are in arrival order, and nothing else is either. */
  ghost predicate InOrder(w: World) {
    && Ascending(w.handled + Numbers(w.pending))
    && Filed(w.fates, w.handled, Numbers(w.pending))
    && (w.drain.NoDrain? ==> w.pending == [])
  }

  /** An event is lost only once the call is gone, or when it arrived after the drain's last test. */
  ghost predicate LossExplained(w: World) {
    && (forall i | 0 <= i < |w.fates| && w.fates[i].Lost? ::
          if w.fates[i].callGone then !w.inRegistry else w.fates[i].since <= i)
    && (w.drain.DrainExiting? ==> w.drain.since <= |w.fates|)
    && (w.drain.DrainExiting? && w.inRegistry ==> forall n | n in Numbers(w.pending) :: w.drain.since <= n)
  }

  ghost predicate Inv(w: World) {
    Core(w) && Gated(w) && Exclusive(w) && InOrder(w) && LossExplained(w)
  }

  // -------------------------------------------------------- every move keeps it

  lemma FrameStays(w: World, u: World, frame: Frame)
    requires FrameOk(w, frame) && Grown(w, u) && (ClaimUntouched(w, u) || CleaningUp(frame))
    ensures FrameOk(u, frame)
  {}

  lemma GateStays(w: World, u: World)
    requires Gated(w) && w.accepted && Grown(w, u)
    ensures Gated(u)
  {}

  lemma OrderStays(w: World, u: World)
    requires InOrder(w) && LossExplained(w) && (u.inRegistry ==> w.inRegistry)
    requires u.pending == w.pending && u.fates == w.fates && u.handled == w.handled && u.drain == w.drain
    ensures InOrder(u) && LossExplained(u)
  {}

  lemma EnderKeeps(w: World, ok: bool, late: bool)
    requires Inv(w)
    ensures Inv(EnderStep(w, ok, late))
  {
    hide Core, Cleanup, Resume, InOrder, LossExplained;
    match w.ender {
      case NoEnder =>
      case EnderDone =>
      case EnderSleeping =>
        var (u, out) := Cleanup(w, None, false, late);
        CleanupKeeps(w, None, false, late);
        EnderSettles(w, u, out);
      case EnderBusy(frame) =>
        var (u, out) := Resume(w, frame, ok, late);
        ResumeKeeps(w, frame, ok, late);
        EnderSettles(w, u, out);
    }
  }

  lemma EnderSettles(w: World, u: World, out: Outcome)
    requires Inv(w) && w.accepted && Core(u) && Grown(w, u) && ClaimUntouched(w, u) && OutcomeOk(u, out)
    requires out.Suspended? ==> CleaningUp(out.frame)
    ensures Inv(EnderTo(u, out))
  {
    var v := EnderTo(u, out);
    GateStays(w, u);
    GateIgnoresPositions(u, v);
    OrderStays(w, u);
    OrderStays(u, v);
    CoreOnlyReads(u, v);
    EnderLeavesFrames(w, u, out);
    hide Core, Gated, Exclusive, InOrder, LossExplained, Grown;
  }

  lemma EnderLeavesFrames(w: World, u: World, out: Outcome)
    requires Exclusive(w) && Grown(w, u) && ClaimUntouched(w, u) && OutcomeOk(u, out)
    requires out.Suspended? ==> CleaningUp(out.frame)
    ensures Exclusive(EnderTo(u, out))
  {
    hide FrameOk, CleaningUp;
    if Touches(w.listener) {
      FrameStays(w, u, w.listener.frame);
    }
    if w.drain.DrainBusy? || w.drain.DrainCleaning? {
      FrameStays(w, u, w.drain.frame);
    }
    SameFrames(u, EnderTo(u, out));
  }

  /** After acceptance the gate does not look at where the handlers are. */
  lemma GateIgnoresPositions(u: World, v: World)
    requires Gated(u) && u.accepted && v == u.(listener := v.listener, drain := v.drain, ender := v.ender)
    ensures Gated(v)
  {}

  /** Neither `Core` nor a frame's condition looks at the coroutines' positions. */
  ghost predicate SameSubstance(u: World, v: World) {
    && u.call == v.call && u.inRegistry == v.inRegistry && u.completed == v.completed && u.kept == v.kept
    && u.log == v.log && u.sent == v.sent && u.starts == v.starts && u.cleanups == v.cleanups
  }

  lemma CoreOnlyReads(u: World, v: World)
    requires Core(u) && SameSubstance(u, v)
    ensures Core(v)
  {
    hide Numbered, Rising;
  }

  lemma SameFrames(u: World, v: World)
    requires SameSubstance(u, v)
    ensures forall f :: FrameOk(u, f) <==> FrameOk(v, f)
  {
    forall f
      ensures FrameOk(u, f) <==> FrameOk(v, f)
    {
      SameFrame(u, v, f);
    }
  }

  lemma SameFrame(u: World, v: World, f: Frame)
    requires SameSubstance(u, v)
    ensures FrameOk(u, f) <==> FrameOk(v, f)
  {}

  /** The listener ends a segment of a handler that was run directly. */
  lemma ListenerSettles(w: World, u: World, out: Outcome)
    requires Inv(w) && Core(u) && Grown(w, u) && OutcomeOk(u, out)
    requires (w.accepted && w.drain.NoDrain?) || (u == w && (out.Suspended? ==> out.frame.Deleting?))
    ensures Inv(ListenerTo(u, out))
  {
    var v := ListenerTo(u, out);
    if w.accepted {
      GateStays(w, u);
      GateIgnoresPositions(u, v);
    }
    OrderStays(w, u);
    OrderStays(u, v);
    CoreOnlyReads(u, v);
    ListenerLeavesFrames(w, u, out);
    hide Core, Exclusive, InOrder, LossExplained, Grown;
  }

  lemma ListenerLeavesFrames(w: World, u: World, out: Outcome)
    requires Exclusive(w) && Grown(w, u) && OutcomeOk(u, out)
    requires w.drain.NoDrain? || (u == w && (out.Suspended? ==> out.frame.Deleting?))
    ensures Exclusive(ListenerTo(u, out))
  {
    hide FrameOk;
    SameFrames(u, ListenerTo(u, out));
    if u.ender.EnderBusy? && u != w {
      EnderFrameStays(w, u);
    }
  }

  lemma EnderFrameStays(w: World, u: World)
    requires Exclusive(w) && Grown(w, u) && u.ender.EnderBusy?
    ensures FrameOk(u, u.ender.frame) && CleaningUp(u.ender.frame)
  {}

  lemma ListenerKeeps(w: World, ok: bool, late: bool)
    requires Inv(w)
    ensures Inv(ListenerStep(w, ok, late))
  {
    hide Core, Resume, InOrder, LossExplained;
    if w.listener.ListenerBusy? {
      var (u, out) := Resume(w, w.listener.frame, ok, late);
      if w.listener.frame.Deleting? {
        DeletingEnds(w, ok, late);
      } else {
        ResumeKeeps(w, w.listener.frame, ok, late);
      }
      ListenerSettles(w, u, out);
    }
  }

  lemma DeletingEnds(w: World, ok: bool, late: bool)
    ensures Resume(w, Deleting, ok, late) == (w, Finished(!ok))
    ensures Grown(w, w)
  {}

  /** The drain ends a segment anywhere but at its very end. */
  lemma DrainSettles(w: World, u: World, d: Drain)
    requires Inv(w) && w.accepted && !w.drain.NoDrain? && Core(u) && Grown(w, u)
    requires !d.NoDrain?
    requires d.DrainBusy? || d.DrainCleaning? ==> FrameOk(u, d.frame)
    requires d.DrainCleaning? ==> CleaningUp(d.frame)
    requires d.DrainExiting? ==> d.since == |u.fates| && (u.pending == [] || !u.inRegistry)
    ensures Inv(u.(drain := d))
  {
    hide FrameOk, Filed;
    GateStays(w, u);
    OrderStays(w, u);
    var v := u.(drain := d);
    CoreOnlyReads(u, v);
    SameFrames(u, v);
    if u.ender.EnderBusy? {
      EnderFrameStays(w, u);
    }
    hide Grown, Core;
  }

  lemma DrainToKeeps(w: World, u: World, out: Outcome, late: bool)
    requires Inv(w) && w.accepted && !w.drain.NoDrain? && Core(u) && Grown(w, u) && OutcomeOk(u, out)
    ensures Inv(DrainTo(u, out, late))
  {
    hide Core, Grown, FrameOk, Gated, Exclusive, InOrder, LossExplained, Cleanup;
    match out {
      case Suspended(frame) => DrainSettles(w, u, DrainBusy(frame));
      case Finished(raised) =>
        if raised {
          var (x, out1) := Cleanup(u, Some(EventFailed), false, late);
          CleanupKeeps(u, Some(EventFailed), false, late);
          GrownTrans(w, u, x);
          DrainSettles(w, x, if out1.Suspended? then DrainCleaning(out1.frame) else DrainExiting(|x.fates|));
        } else {
          DrainSettles(w, u, DrainLooping);
        }
    }
  }

  lemma CleaningIsGone(w: World, frame: Frame)
    requires FrameOk(w, frame) && CleaningUp(frame)
    ensures !w.inRegistry
  {}

  function Popped(w: World): World
    requires w.pending != []
  {
    var next := w.pending[0];
    w.(pending := w.pending[1..], handled := w.handled + [next.number],
       fates := if next.number < |w.fates| then w.fates[next.number := Handled] else w.fates)
  }

  lemma PopKeepsOrder(w: World)
    requires InOrder(w) && LossExplained(w) && w.drain.DrainLooping? && w.pending != []
    ensures InOrder(Popped(w)) && LossExplained(Popped(w))
  {
    var u, waiting, n := Popped(w), Numbers(w.pending), w.pending[0].number;
    assert waiting == [n] + Numbers(u.pending);
    assert u.handled + Numbers(u.pending) == w.handled + waiting;
    assert n in waiting;
    HeadIsLeast(w.handled, n, Numbers(u.pending));
    FiledMoves(w.fates, w.handled, n, Numbers(u.pending));
    hide Ascending, Numbers, Filed;
  }

  lemma FiledMoves(fates: seq<Fate>, handled: seq<nat>, n: nat, rest: seq<nat>)
    requires Filed(fates, handled, [n] + rest) && n !in handled && n !in rest
    ensures n < |fates| && Filed(fates[n := Handled], handled + [n], rest)
  {
    assert n in [n] + rest;
    assert forall m :: m in [n] + rest <==> m == n || m in rest;
    assert forall m :: m in handled + [n] <==> m == n || m in handled;
  }

  lemma HeadIsLeast(handled: seq<nat>, n: nat, rest: seq<nat>)
    requires Ascending(handled + ([n] + rest))
    ensures n !in handled && n !in rest
  {
    var all := handled + ([n] + rest);
    assert all[|handled|] == n;
    assert forall i | 0 <= i < |handled| :: all[i] == handled[i];
    assert forall i | 0 <= i < |rest| :: all[|handled| + 1 + i] == rest[i];
  }

  lemma AscendingPrefix(ns: seq<nat>, ms: seq<nat>)
    requires Ascending(ns + ms)
    ensures Ascending(ns)
  {
    assert forall i | 0 <= i < |ns| :: (ns + ms)[i] == ns[i];
  }

  lemma LoseKeeps(w: World, since: nat)
    requires Inv(w) && w.accepted && since <= |w.fates|
    requires w.inRegistry ==> forall n | n in Numbers(w.pending) :: since <= n
    requires !Touches(w.listener) && !w.drain.NoDrain?
    ensures Inv(LoseWaiting(w, since))
  {
    hide FrameOk;
    var v := LoseWaiting(w, since);
    CoreOnlyReads(w, v);
    SameFrames(w, v);
    assert v.handled + Numbers(v.pending) == w.handled;
    AscendingPrefix(w.handled, Numbers(w.pending));
    forall i | 0 <= i < |v.fates| && v.fates[i].Lost?
      ensures if v.fates[i].callGone then !v.inRegistry else v.fates[i].since <= i
    {
      assert w.fates[i] != Waiting ==> v.fates[i] == w.fates[i];
    }
    hide Core;
  }

  lemma DrainKeeps(w: World, ok: bool, late: bool)
    requires Inv(w)
    ensures Inv(DrainStep(w, ok, late))
  {
    hide Core, FrameOk, Grown, InOrder, Resume, Handle, DrainTo, DrainCleanupTo, LoseWaiting, CleaningUp;
    match w.drain {
      case NoDrain =>
      case DrainWaiting =>
        if w.accepted {
          ItselfGrown(w);
          if w.inRegistry {
            DrainSettles(w, w, DrainLooping);
          } else {
            LoseKeeps(w, |w.fates|);
          }
        }
      case DrainLooping =>
        ItselfGrown(w);
        if w.pending == [] || !w.inRegistry {
          DrainSettles(w, w, DrainExiting(|w.fates|));
        } else {
          PoppedEventKeeps(w, late);
        }
      case DrainBusy(frame) =>
        var (u, out) := Resume(w, frame, ok, late);
        ResumeKeeps(w, frame, ok, late);
        DrainToKeeps(w, u, out, late);
      case DrainCleaning(frame) =>
        var (u, out) := Resume(w, frame, ok, late);
        CleaningStays(w, frame, ok, late);
        DrainSettles(w, u, if out.Suspended? then DrainCleaning(out.frame) else DrainExiting(|u.fates|));
        DrainCleanupIs(u, out);
      case DrainExiting(since) =>
        LoseKeeps(w, since);
    }
  }

  lemma DrainCleanupIs(u: World, out: Outcome)
    ensures DrainCleanupTo(u, out)
            == u.(drain := if out.Suspended? then DrainCleaning(out.frame) else DrainExiting(|u.fates|))
  {}

  lemma CleaningStays(w: World, frame: Frame, ok: bool, late: bool)
    requires Core(w) && FrameOk(w, frame) && CleaningUp(frame)
    ensures var (u, out) := Resume(w, frame, ok, late);
            && Core(u) && OutcomeOk(u, out) && Grown(w, u) && !u.inRegistry
            && (out.Suspended? ==> CleaningUp(out.frame))
  {
    hide Core, FrameOk, Resume, CleaningUp;
    CleaningIsGone(w, frame);
    ResumeKeeps(w, frame, ok, late);
  }

  lemma PoppedEventKeeps(w: World, late: bool)
    requires Inv(w) && w.drain.DrainLooping? && w.pending != [] && w.inRegistry
    ensures Inv(DrainStep(w, true, late)) && DrainStep(w, true, late) == DrainStep(w, false, late)
  {
    hide FrameOk, Handle, DrainTo;
    var w0 := Popped(w);
    PopKeepsOrder(w);
    CoreOnlyReads(w, w0);
    SameFrames(w, w0);
    assert Inv(w0);
    hide InOrder, LossExplained, Core, Gated, Exclusive;
    var (u, out) := Handle(w0, w.pending[0].event, late);
    HandleKeeps(w0, w.pending[0].event, late);
    DrainToKeeps(w0, u, out, late);
  }

  // ------------------------------------------------------- originate and arrivals

  lemma FailOriginateKeeps(w: World)
    requires Inv(w) && !w.accepted
    ensures Inv(FailOriginate(w))
  {
    var c := w.call.(reason := Some(OriginateFailed));
    MovedKeeps(w, c, Ended(Failed));
    var v := FailOriginate(w);
    hide Numbered, Rising, Filed, Ascending, FrameOk;
    OrderStays(w, v);
  }

  lemma DialingKeeps(w: World)
    requires Inv(w) && w.originate.Acknowledging?
    ensures Inv(OriginateStep(w, true))
  {
    hide InOrder, LossExplained, FrameOk;
    PublishKeeps(w, CallSignals.Dialing, ToReturn);
    var (u, out) := Publish(w, CallSignals.Dialing, ToReturn);
    assert !Suppressed(w.call, CallSignals.Dialing);
    var v := OriginateTo(u, out);
    OrderStays(w, v);
    CoreOnlyReads(u, v);
    hide Core;
  }

  lemma OriginateSettles(w: World, u: World, out: Outcome)
    requires Inv(w) && w.originate.PublishingDialing? && Core(u) && Grown(w, u) && u.log == w.log && u.ender == w.ender
    requires u.inRegistry && u.starts == w.starts
    requires out.Suspended? ==> PublishesDialing(out.frame, w.log[0])
    ensures Inv(OriginateTo(u, out))
  {
    hide FrameOk, InOrder, LossExplained, Core;
    OrderStays(w, u);
    assert Inv(u);
    if out == Finished(true) {
      FailOriginateKeeps(u);
    } else {
      var v := OriginateTo(u, out);
      OrderStays(u, v);
      CoreOnlyReads(u, v);
    }
  }

  lemma OriginateKeeps(w: World, ok: bool)
    requires Inv(w)
    ensures Inv(OriginateStep(w, ok))
  {
    hide InOrder, LossExplained, Core, FailOriginate, OriginateTo, Publish, Grown, FrameOk;
    match w.originate {
      case Starting =>
        if ok {
          MoveOriginate(w, Posting);
        } else {
          StartFails(w);
        }
      case Posting =>
        if ok {
          MoveOriginate(w, Acknowledging);
        } else {
          FailOriginateKeeps(w);
        }
      case Acknowledging =>
        if ok {
          DialingKeeps(w);
        } else {
          FailOriginateKeeps(w);
        }
      case PublishingDialing(frame) =>
        var (u, out) := Resume(w, frame, ok, false);
        DialingResumes(w, ok);
        OriginateSettles(w, u, out);
      case RecordingFailure(snap) =>
        MoveOriginate(w, DeletingChannels);
        RecordsOnly(w.(originate := DeletingChannels), OriginateStep(w, ok));
      case DeletingChannels => MoveOriginate(w, OriginateDone);
      case OriginateDone =>
    }
  }

  lemma DialingResumes(w: World, ok: bool)
    requires Inv(w) && w.originate.PublishingDialing?
    ensures var (u, out) := Resume(w, w.originate.frame, ok, false);
            && Core(u) && Grown(w, u) && u.log == w.log && u.ender == w.ender && u.inRegistry && u.starts == w.starts
            && u.cleanups == w.cleanups
            && (out.Suspended? ==> PublishesDialing(out.frame, w.log[0]))
  {
    ResumeKeeps(w, w.originate.frame, ok, false);
    hide Core, Grown;
  }

  lemma MoveOriginate(w: World, o: Originate)
    requires Inv(w)
    requires (w.originate.Starting? && o.Posting?) || (w.originate.Posting? && o.Acknowledging?)
          || (w.originate.RecordingFailure? && o.DeletingChannels?)
          || (w.originate.DeletingChannels? && o.OriginateDone?)
    ensures Inv(w.(originate := o))
  {
    hide InOrder, LossExplained, FrameOk;
    var v := w.(originate := o);
    OrderStays(w, v);
    CoreOnlyReads(w, v);
    SameFrames(w, v);
    hide Core;
  }

  lemma RecordsOnly(w: World, u: World)
    requires Inv(w) && u == w.(recorded := u.recorded)
    ensures Inv(u)
  {
    hide InOrder, LossExplained, FrameOk;
    OrderStays(w, u);
    CoreOnlyReads(w, u);
    SameFrames(w, u);
    hide Core;
  }

  lemma StartFails(w: World)
    requires Inv(w) && w.originate.Starting?
    ensures Inv(OriginateStep(w, false))
  {
    hide InOrder, LossExplained, FrameOk, Numbered, Rising;
    OrderStays(w, OriginateStep(w, false));
  }

  lemma QueueKeeps(w: World, ev: Event)
    requires Inv(w) && w.inRegistry && w.listener.ListenerIdle? && (!w.accepted || !w.drain.NoDrain?)
    ensures Inv(w.(pending := w.pending + [Arrival(|w.fates|, ev)], fates := w.fates + [Waiting],
                   drain := if w.drain.NoDrain? then DrainWaiting else w.drain))
  {
    hide FrameOk;
    var u := w.(pending := w.pending + [Arrival(|w.fates|, ev)], fates := w.fates + [Waiting],
                drain := if w.drain.NoDrain? then DrainWaiting else w.drain);
    CoreOnlyReads(w, u);
    SameFrames(w, u);
    QueueKeepsOrder(w, u, ev);
    hide Core, InOrder, LossExplained;
  }

  lemma QueueKeepsOrder(w: World, u: World, ev: Event)
    requires InOrder(w) && LossExplained(w) && u.inRegistry == w.inRegistry
    requires u.pending == w.pending + [Arrival(|w.fates|, ev)] && u.fates == w.fates + [Waiting]
    requires u.handled == w.handled && u.drain == if w.drain.NoDrain? then DrainWaiting else w.drain
    ensures InOrder(u) && LossExplained(u)
  {
    var n, waiting := |w.fates|, Numbers(w.pending);
    assert Numbers(u.pending) == waiting + [n];
    assert u.handled + Numbers(u.pending) == (w.handled + waiting) + [n];
    AscendingAppend(w.handled + waiting, n);
    assert forall m :: m in waiting + [n] <==> m in waiting || m == n;
    hide Ascending, Numbers;
  }

  lemma AscendingAppend(ns: seq<nat>, n: nat)
    requires Ascending(ns) && forall m | m in ns :: m < n
    ensures Ascending(ns + [n])
  {
    assert forall i | 0 <= i < |ns| :: ns[i] in ns;
  }

  /** An event that is not queued gets its fate at once. */
  function Filing(w: World, fate: Fate): World {
    w.(fates := w.fates + [fate], handled := if fate == Handled then w.handled + [|w.fates|] else w.handled)
  }

  lemma DirectKeepsOrder(w: World, fate: Fate)
    requires InOrder(w) && LossExplained(w)
    requires if fate == Handled then w.drain.NoDrain? else fate == Lost(true, |w.fates|) && !w.inRegistry
    ensures InOrder(Filing(w, fate)) && LossExplained(Filing(w, fate))
  {
    var n := |w.fates|;
    if fate == Handled {
      assert w.handled + Numbers(w.pending) == w.handled;
      AscendingAppend(w.handled, n);
      assert (w.handled + [n]) + Numbers(w.pending) == w.handled + [n];
      assert forall m :: m in w.handled + [n] <==> m in w.handled || m == n;
    }
    hide Ascending, Numbers;
  }

  lemma DirectKeeps(w: World, fate: Fate)
    requires Inv(w)
    requires if fate == Handled then w.drain.NoDrain? && w.accepted && w.inRegistry
             else fate == Lost(true, |w.fates|) && !w.inRegistry
    ensures Inv(Filing(w, fate))
  {
    hide FrameOk;
    var u := Filing(w, fate);
    CoreOnlyReads(w, u);
    SameFrames(w, u);
    DirectKeepsOrder(w, fate);
    hide Core, InOrder, LossExplained;
  }

  lemma ArriveKeeps(w: World, ev: Event, late: bool)
    requires Inv(w)
    ensures Inv(Arrive(w, ev, late))
  {
    hide Core, Gated, Exclusive, InOrder, LossExplained, Handle, ListenerTo, Grown;
    if w.listener.ListenerIdle? {
      var matched := Matched(w, ev.leg);
      if matched && (!w.accepted || !w.drain.NoDrain?) {
        QueueKeeps(w, ev);
      } else {
        var w0 := if matched then w.(fates := w.fates + [Handled], handled := w.handled + [|w.fates|])
                  else if Own(w, ev.leg) then w.(fates := w.fates + [Lost(true, |w.fates|)])
                  else w;
        if matched {
          DirectKeeps(w, Handled);
        } else if Own(w, ev.leg) {
          DirectKeeps(w, Lost(true, |w.fates|));
        }
        var (u, out) := Handle(w0, ev, late);
        HandleKeeps(w0, ev, late);
        ListenerSettles(w0, u, out);
      }
    }
  }

  lemma PartnerKeeps(w: World, u: World)
    requires Inv(w)
    requires u == w.(partner := false) || u == w.(call := w.call.(requestedEnd := u.call.requestedEnd))
    ensures Inv(u)
  {
    hide Numbered, Rising, Filed, Ascending;
    OrderStays(w, u);
    forall f | FrameOk(w, f)
      ensures FrameOk(u, f)
    {}
    hide FrameOk;
  }

  lemma NextKeeps(w: World, move: Move)
    requires Inv(w)
    ensures Inv(Next(w, move))
  {
    hide Inv, Arrive, ListenerStep, DrainStep, EnderStep, OriginateStep;
    match move {
      case EventArrives(ev, late) => ArriveKeeps(w, ev, late);
      case ListenerRuns(ok, late) => ListenerKeeps(w, ok, late);
      case DrainRuns(ok, late) => DrainKeeps(w, ok, late);
      case EnderRuns(ok, late) => EnderKeeps(w, ok, late);
      case OriginateRuns(ok) => OriginateKeeps(w, ok);
      case PartnerLeaves => PartnerKeeps(w, w.(partner := false));
      case PartnerAsksEnd(r) =>
        if MayAsk(w.call, r) {
          PartnerKeeps(w, w.(call := w.call.(requestedEnd := r)));
        }
    }
  }

  lemma {:induction false} RunKeeps(moves: seq<Move>)
    ensures Inv(Run(moves))
  {
    hide Next;
    if moves != [] {
      hide Inv;
      RunKeeps(moves[..|moves| - 1]);
      NextKeeps(Run(moves[..|moves| - 1]), moves[|moves| - 1]);
    }
  }
}
