/**
  One outbound call as a step machine.

  Four coroutines share the call: `originate`, the serial ARI listener, the task
  that drains queued events, and the deferred cleanup after StasisEnd.  Each is
  split at its awaits; the code between two awaits is one atomic step, and any
  enabled coroutine may take the next step.  The partner may leave or ask for an
  end at any moment.  Every awaited request may succeed or fail.
 */
module CallMachine {
  import opened Basics
  import opened CallSignals

  // ------------------------------------------------------------------- events

  /** Whose channel an event names; `Foreign` is any channel the call does not know. */
  datatype Leg = Main | Other | Media | Foreign

  datatype ChannelState = StateRinging | StateUp | StateOther

  datatype DialReport = Known(dial: DialStatus) | Unrecognised

  datatype Event =
    | Dial(leg: Leg, report: DialReport)
    | HangupRequest(leg: Leg, cause: Option<int>)
    | Destroyed(leg: Leg, cause: Option<int>)
    | StasisEnd(leg: Leg)
    | StateChange(leg: Leg, state: ChannelState)
    | StasisStart(leg: Leg, up: bool)     // tagged `outbound` with this call's id
    | Irrelevant(leg: Leg)

  // --------------------------------------------------------------- coroutines

  /** What follows a `publish_status` that was awaited. */
  datatype After =
    | ToReturn
    | ToAnsweredUp               // _on_channel_state_change, state Up
    | ToClaim                    // _start_outbound
    | ToBridge                   // _activate_call, after the channel was answered
    | ToClose(raises: bool)      // cleanup

  /** Where a suspended handler waits. */
  datatype Frame =
    | Recording(snap: Snapshot, after: After)      // await store.record
    | Sending(snap: Snapshot, after: After)        // await connection.send_json
    | Answering | Bridging | Joining | CreatingMedia | AttachingMedia | Announcing
    | Deleting                                     // await ari.delete, nothing follows
    | Closing(snap: Snapshot, raises: bool)        // cleanup after its last bookkeeping

  datatype Outcome = Suspended(frame: Frame) | Finished(raised: bool)

  datatype Listener = ListenerIdle | ListenerBusy(frame: Frame)

  datatype Drain =
    | NoDrain
    | DrainWaiting                 // await call.accepted.wait()
    | DrainLooping                 // about to test for another queued event
    | DrainBusy(frame: Frame)
    | DrainCleaning(frame: Frame)  // cleanup after a failed replay
    | DrainExiting(since: nat)     // await session exit; `since` events had arrived at the last test

  datatype Ender = NoEnder | EnderSleeping | EnderBusy(frame: Frame) | EnderDone

  datatype Originate =
    | Starting                     // await persist_start
    | Posting                      // await the HTTP originate
    | Acknowledging                // await send_json(outbound.accepted)
    | PublishingDialing(frame: Frame)
    | RecordingFailure(snap: Snapshot)
    | DeletingChannels
    | OriginateDone

  // -------------------------------------------------------------------- world

  datatype Fate = Waiting | Handled | Lost(callGone: bool, since: nat)

  datatype Arrival = Arrival(number: nat, event: Event)

  datatype Start = Start(answered: bool, inStasis: bool, registered: bool)

  datatype World = World(
    call: Call, inRegistry: bool, partner: bool, completed: Option<Snapshot>,
    accepted: bool, pending: seq<Arrival>,
    originate: Originate, listener: Listener, drain: Drain, ender: Ender,
    // what an observer records: snapshots made, given to the store and sent,
    // calls of remember_completed, activations begun, cleanups that took effect,
    // the fate of each of the call's own events
    log: seq<Snapshot>, recorded: seq<Snapshot>, sent: seq<Snapshot>, kept: nat, starts: seq<Start>, cleanups: nat,
    fates: seq<Fate>, handled: seq<nat>)

  const RESERVED_WORLD := World(RESERVED, true, true, None, false, [],
                                Starting, ListenerIdle, NoDrain, NoEnder,
                                [], [], [], 0, [], 0, [], [])

  // ------------------------------------------------------- handlers' segments

  function Remember(w: World): World {
    if w.partner then w.(completed := Some(SnapshotOf(w.call)), kept := w.kept + 1) else w
  }

  function Publish(w: World, s: Status, after: After): (World, Outcome) {
    if Suppressed(w.call, s) then Continue(w, after)
    else PublishMoved(w, Moved(w.call, s), after)
  }

  function PublishMoved(w: World, c: Call, after: After): (World, Outcome) {
    (w.(call := c, log := w.log + [SnapshotOf(c)]), Suspended(Recording(SnapshotOf(c), after)))
  }

  /** The claim and the start of `_activate_call` are one segment. */
  function Activate(w: World): (World, Outcome) {
    (w.(call := w.call.(activating := true),
        starts := w.starts + [Start(w.call.answered, w.call.inStasis, w.inRegistry)]),
     Suspended(Answering))
  }

  function Continue(w: World, after: After): (World, Outcome) {
    match after
    case ToReturn => (w, Finished(false))
    case ToAnsweredUp =>
      if !w.call.inStasis || w.call.bridged || w.call.activating then (w, Finished(false))
      else if !w.partner then (w, Suspended(Deleting))
      else Activate(w)
    case ToClaim => Activate(w)
    case ToBridge => (w, Suspended(Bridging))
    case ToClose(raises) => (Remember(w), Suspended(Closing(SnapshotOf(w.call), raises)))
  }

  function Cleanup(w: World, override: Option<Reason>, raises: bool, late: bool): (World, Outcome) {
    if !w.inRegistry then (w, Finished(raises))
    else
      var w1 := w.(inRegistry := false, cleanups := w.cleanups + 1,
                   ender := if w.ender.EnderSleeping? then EnderDone else w.ender);
      PublishMoved(w1, Terminated(w.call, override, late), ToClose(raises))
  }

  function Raise(w: World, after: After, late: bool): (World, Outcome) {
    match after
    case ToBridge => Cleanup(w, Some(MediaFailed), true, late)
    case ToClose(raises) => Continue(w, after)      // cleanup swallows it
    case _ => (w, Finished(true))
  }

  /** One segment of a suspended handler; `ok` is how the awaited request ended. */
  function Resume(w: World, frame: Frame, ok: bool, late: bool): (World, Outcome) {
    match frame
    case Recording(snap, after) =>
      var w0 := w.(recorded := w.recorded + [snap]);
      if !w.partner then Continue(w0, after)
      else
        var w1 := if snap.Terminal() then Remember(w0) else w0;
        (w1.(sent := w1.sent + [snap]), Suspended(Sending(snap, after)))
    case Sending(snap, after) => if ok then Continue(w, after) else Raise(w, after, late)
    case Deleting => (w, Finished(!ok))
    case Closing(snap, raises) => (w, Finished(raises || !ok))
    case Answering => if ok then Publish(w, Answered, ToBridge) else Cleanup(w, Some(MediaFailed), true, late)
    case Bridging =>
      if ok then (w.(call := w.call.(bridged := true)), Suspended(Joining))
      else Cleanup(w, Some(MediaFailed), true, late)
    case Joining => if ok then (w, Suspended(CreatingMedia)) else Cleanup(w, Some(MediaFailed), true, late)
    case CreatingMedia =>
      if ok then (w.(call := w.call.(mediaKnown := true)), Suspended(AttachingMedia))
      else Cleanup(w, Some(MediaFailed), true, late)
    case AttachingMedia => if ok then (w, Suspended(Announcing)) else Cleanup(w, Some(MediaFailed), true, late)
    case Announcing => if ok then (w, Finished(false)) else Cleanup(w, Some(MediaFailed), true, late)
  }

  /** A channel the call knows, whether or not the call is still in the registry. */
  predicate Own(w: World, leg: Leg) {
    leg == Main || leg == Other || (leg == Media && w.call.mediaKnown)
  }

  /** `registry.by_channel` finds this call. */
  predicate Matched(w: World, leg: Leg) { w.inRegistry && Own(w, leg) }

  function HandleDial(w: World, leg: Leg, report: DialReport): (World, Outcome) {
    if !(Matched(w, leg) && leg == Main) then (w, Finished(false))
    else if w.call.answered && report != Known(DialAnswer) then (w, Finished(false))
    else
      var w1 := w.(call := WithDial(w.call, if report.Known? then Some(report.dial) else None));
      if report == Known(DialRinging) then Publish(w1, Ringing, ToReturn)
      else if report == Known(DialAnswer) then Publish(w1, Answered, ToReturn)
      else (w1, Finished(false))
  }

  function HandleDestroyed(w: World, leg: Leg, cause: Option<int>, late: bool): (World, Outcome) {
    if !Matched(w, leg) then (w, Finished(false))
    else
      var w1 := if leg == Media then w else w.(call := WithDestroyCause(w.call, cause));
      if leg == Main then Cleanup(w1, None, false, late)
      else if leg == Media then Cleanup(w1, Some(MediaFailed), false, late)
      else (w1, Finished(false))
  }

  function HandleStasisStart(w: World, leg: Leg, up: bool): (World, Outcome) {
    if !w.inRegistry || !w.partner then (w, Suspended(Deleting))
    else if leg != Main then (w, Finished(false))
    else
      var w1 := w.(call := w.call.(inStasis := true));
      if w.call.activating || w.call.bridged then (w1, Finished(false))
      else if !up && !w.call.answered then (w1, Finished(false))
      else Publish(w1, Answered, ToClaim)
  }

  /** The first segment of dispatching an event directly. */
  function Handle(w: World, ev: Event, late: bool): (World, Outcome) {
    match ev
    case Dial(leg, report) => HandleDial(w, leg, report)
    case HangupRequest(leg, cause) =>
      (if Matched(w, leg) && leg == Main && cause.Some? then w.(call := w.call.(hangupCause := cause)) else w,
       Finished(false))
    case Destroyed(leg, cause) => HandleDestroyed(w, leg, cause, late)
    case StasisEnd(leg) =>
      (if Matched(w, leg) && leg == Main && w.ender.NoEnder?
       then w.(call := w.call.(inStasis := false), ender := EnderSleeping) else w,
       Finished(false))
    case StateChange(leg, state) =>
      if !(Matched(w, leg) && leg == Main) then (w, Finished(false))
      else if state == StateRinging then Publish(w, Ringing, ToReturn)
      else if state == StateUp then Publish(w, Answered, ToAnsweredUp)
      else (w, Finished(false))
    case StasisStart(leg, up) => HandleStasisStart(w, leg, up)
    case Irrelevant(_) => (w, Finished(false))
  }

  // -------------------------------------------------------------------- steps

  function Arrive(w: World, ev: Event, late: bool): World {
    if !w.listener.ListenerIdle? then w          // the listener awaits each event's handler
    else if Matched(w, ev.leg) && (!w.accepted || !w.drain.NoDrain?) then
      w.(pending := w.pending + [Arrival(|w.fates|, ev)], fates := w.fates + [Waiting],
         drain := if w.drain.NoDrain? then DrainWaiting else w.drain)
    else
      var w0 := if Matched(w, ev.leg) then w.(fates := w.fates + [Handled], handled := w.handled + [|w.fates|])
                else if Own(w, ev.leg) then w.(fates := w.fates + [Lost(true, |w.fates|)])
                else w;
      var (w1, out) := Handle(w0, ev, late);
      ListenerTo(w1, out)
  }

  function ListenerTo(w: World, out: Outcome): World {
    w.(listener := if out.Suspended? then ListenerBusy(out.frame) else ListenerIdle)
  }

  function ListenerStep(w: World, ok: bool, late: bool): World {
    match w.listener
    case ListenerIdle => w
    case ListenerBusy(frame) =>
      var (w1, out) := Resume(w, frame, ok, late);
      ListenerTo(w1, out)
  }

  function DrainTo(w: World, out: Outcome, late: bool): World {
    match out
    case Suspended(frame) => w.(drain := DrainBusy(frame))
    case Finished(raised) =>
      if !raised then w.(drain := DrainLooping)
      else
        var (w1, out1) := Cleanup(w, Some(EventFailed), false, late);
        DrainCleanupTo(w1, out1)
  }

  function DrainCleanupTo(w: World, out: Outcome): World {
    w.(drain := if out.Suspended? then DrainCleaning(out.frame) else DrainExiting(|w.fates|))
  }

  function LoseWaiting(w: World, since: nat): World {
    w.(fates := seq(|w.fates|, i requires 0 <= i < |w.fates| =>
                      if w.fates[i] == Waiting then Lost(!w.inRegistry, since) else w.fates[i]),
       pending := [], drain := NoDrain)
  }

  function DrainStep(w: World, ok: bool, late: bool): World {
    match w.drain
    case NoDrain => w
    case DrainWaiting =>
      if !w.accepted then w
      else if !w.inRegistry then LoseWaiting(w, |w.fates|)
      else w.(drain := DrainLooping)
    case DrainLooping =>
      if w.pending == [] || !w.inRegistry then w.(drain := DrainExiting(|w.fates|))
      else
        var next := w.pending[0];
        var w0 := w.(pending := w.pending[1..], handled := w.handled + [next.number],
                     fates := if next.number < |w.fates| then w.fates[next.number := Handled] else w.fates);
        var (w1, out) := Handle(w0, next.event, late);
        DrainTo(w1, out, late)
    case DrainBusy(frame) =>
      var (w1, out) := Resume(w, frame, ok, late);
      DrainTo(w1, out, late)
    case DrainCleaning(frame) =>
      var (w1, out) := Resume(w, frame, ok, late);
      DrainCleanupTo(w1, out)
    case DrainExiting(since) => LoseWaiting(w, since)
  }

  function EnderTo(w: World, out: Outcome): World {
    w.(ender := if out.Suspended? then EnderBusy(out.frame) else EnderDone)
  }

  function EnderStep(w: World, ok: bool, late: bool): World {
    match w.ender
    case NoEnder => w
    case EnderDone => w
    case EnderSleeping =>
      var (w1, out) := Cleanup(w, None, false, late);
      EnderTo(w1, out)
    case EnderBusy(frame) =>
      var (w1, out) := Resume(w, frame, ok, late);
      EnderTo(w1, out)
  }

  function FailOriginate(w: World): World {
    var c := OriginateFailure(w.call);
    w.(inRegistry := false, accepted := true, call := c, log := w.log + [SnapshotOf(c)],
       originate := RecordingFailure(SnapshotOf(c)))
  }

  function OriginateTo(w: World, out: Outcome): World {
    match out
    case Suspended(frame) => w.(originate := PublishingDialing(frame))
    case Finished(raised) => if raised then FailOriginate(w) else w.(accepted := true, originate := OriginateDone)
  }

  function OriginateStep(w: World, ok: bool): World {
    match w.originate
    case Starting =>
      if ok then w.(originate := Posting)
      else w.(inRegistry := false, accepted := true, originate := OriginateDone)
    case Posting => if ok then w.(originate := Acknowledging) else FailOriginate(w)
    case Acknowledging =>
      if !ok then FailOriginate(w)
      else
        var (w1, out) := Publish(w, CallSignals.Dialing, ToReturn);
        OriginateTo(w1, out)
    case PublishingDialing(frame) =>
      var (w1, out) := Resume(w, frame, ok, false);
      OriginateTo(w1, out)
    case RecordingFailure(snap) => w.(originate := DeletingChannels, recorded := w.recorded + [snap])
    case DeletingChannels => w.(originate := OriginateDone)
    case OriginateDone => w
  }

  datatype Move =
    | EventArrives(event: Event, late: bool)
    | ListenerRuns(ok: bool, late: bool)
    | DrainRuns(ok: bool, late: bool)
    | EnderRuns(ok: bool, late: bool)
    | OriginateRuns(ok: bool)
    | PartnerLeaves
    | PartnerAsksEnd(requested: Option<Ending>)

  /**
    A partner's hangup asks for completed on an answered call and for cancelled on
    another; when the request fails, the earlier value is put back.
   */
  predicate MayAsk(c: Call, requested: Option<Ending>) {
    requested == None || requested == Some(Cancelled) || (requested == Some(Completed) && c.answered)
  }

  function Next(w: World, move: Move): World {
    match move
    case EventArrives(ev, late) => Arrive(w, ev, late)
    case ListenerRuns(ok, late) => ListenerStep(w, ok, late)
    case DrainRuns(ok, late) => DrainStep(w, ok, late)
    case EnderRuns(ok, late) => EnderStep(w, ok, late)
    case OriginateRuns(ok) => OriginateStep(w, ok)
    case PartnerLeaves => w.(partner := false)
    case PartnerAsksEnd(requested) =>
      if MayAsk(w.call, requested) then w.(call := w.call.(requestedEnd := requested)) else w
  }

  function Run(moves: seq<Move>): World {
    if moves == [] then RESERVED_WORLD else Next(Run(moves[..|moves| - 1]), moves[|moves| - 1])
  }
}
