/**
  Status snapshots of one call: when a status is published, what a snapshot
  carries, and how the evidence at hangup is turned into a final status.
 */
module CallSignals {
  import opened Basics

  datatype Ending = Completed | Busy | NoAnswer | Refused | Unavailable | Failed | Cancelled

  datatype Status = Dialing | Ringing | Answered | Ended(how: Ending)

  datatype DialStatus =
    | DialRinging | DialProgress | DialProceeding | DialAnswer | DialBusy | DialNoAnswer | DialCancel
    | DialChanUnavail | DialCongestion | DialDontCall | DialTorture | DialInvalidArgs

  datatype Reason =
    | SameAs(how: Ending) | NormalHangup | CallFailed | Timeout | Unknown
    | MediaFailed | EventFailed | OriginateFailed

  datatype Snapshot = Snapshot(status: Status, sequence: nat, answered: bool, reason: Option<Reason>,
                               hangupCause: Option<int>, dialStatus: Option<DialStatus>)
  {
    predicate Terminal() { status.Ended? }
  }

  /** The fields of an active call that its events and snapshots depend on. */
  datatype Call = Call(status: Status, sequence: nat, answered: bool,
                       hangupCause: Option<int>, dialStatus: Option<DialStatus>,
                       requestedEnd: Option<Ending>, reason: Option<Reason>,
                       inStasis: bool, activating: bool, bridged: bool, mediaKnown: bool)

  const RESERVED := Call(Dialing, 0, false, None, None, None, None, false, false, false, false)

  function Rank(s: Status): nat {
    match s
    case Dialing => 0
    case Ringing => 1
    case Answered => 2
    case Ended(_) => 3
  }

  function SnapshotOf(c: Call): Snapshot {
    Snapshot(c.status, c.sequence, c.answered, c.reason, c.hangupCause, c.dialStatus)
  }

  /** `publish_status` drops repeats, anything after the end, and a fall-back from answered. */
  predicate Suppressed(c: Call, s: Status) {
    || c.status.Ended?
    || (c.status == s && c.sequence > 0)
    || (c.answered && (s.Dialing? || s.Ringing?))
  }

  function Moved(c: Call, s: Status): Call {
    c.(status := s, answered := c.answered || s.Answered?, sequence := c.sequence + 1)
  }

  /** `originate`'s failure path writes its snapshot without asking `publish_status`. */
  function OriginateFailure(c: Call): Call {
    c.(status := Ended(Failed), reason := Some(OriginateFailed), sequence := c.sequence + 1)
  }

  function CauseEnding(cause: Option<int>): Option<Ending> {
    match cause
    case None => None
    case Some(c) =>
      if c in {1, 2, 3, 20, 27} then Some(Unavailable)
      else if c == 17 then Some(Busy)
      else if c == 18 || c == 19 then Some(NoAnswer)
      else if c == 21 then Some(Refused)
      else None
  }

  function DialEnding(dial: Option<DialStatus>): Option<Ending> {
    match dial
    case Some(DialBusy) => Some(Busy)
    case Some(DialNoAnswer) => Some(NoAnswer)
    case Some(DialDontCall) => Some(Refused)
    case Some(DialTorture) => Some(Refused)
    case Some(DialChanUnavail) => Some(Unavailable)
    case _ => None
  }

  /** Explicit results first; a timeout is inferred only at the known originate deadline. */
  function Termination(c: Call, pastDeadline: bool): (Ending, Reason) {
    var quiet := c.hangupCause == None || c.hangupCause == Some(0);
    if c.requestedEnd.Some? then (c.requestedEnd.value, SameAs(c.requestedEnd.value))
    else if c.answered then (Completed, NormalHangup)
    else if CauseEnding(c.hangupCause).Some? then
      (CauseEnding(c.hangupCause).value, SameAs(CauseEnding(c.hangupCause).value))
    else if !quiet && c.hangupCause != Some(16) then (Failed, CallFailed)
    else if DialEnding(c.dialStatus).Some? then
      (DialEnding(c.dialStatus).value, SameAs(DialEnding(c.dialStatus).value))
    else if c.dialStatus == Some(DialCancel) then (Cancelled, SameAs(Cancelled))
    else if quiet && pastDeadline then (NoAnswer, Timeout)
    else (Failed, if quiet then Unknown else CallFailed)
  }

  /** A cause that says something: not absent, zero or normal clearing. */
  predicate PreciseCause(cause: Option<int>) { cause.Some? && cause.value != 0 && cause.value != 16 }

  /**
    A request outranks an answer, an answer outranks the hangup cause, a precise cause
    outranks the dial status, and the deadline only decides when nothing else does.
   */
  lemma EvidenceIsRanked(c: Call, pastDeadline: bool, dial: Option<DialStatus>, late: bool)
    ensures var (how, why) := Termination(c, pastDeadline);
            && (c.requestedEnd.Some? ==>
                Termination(c.(answered := !c.answered, hangupCause := None, dialStatus := dial), late) == (how, why))
            && (c.requestedEnd.None? ==> (how == Completed <==> c.answered))
            && (c.requestedEnd.Some? || c.answered || PreciseCause(c.hangupCause) ==>
                Termination(c.(dialStatus := dial), late) == (how, why))
            && (why == Timeout || why == Unknown <==>
                && c.requestedEnd.None? && !c.answered && !PreciseCause(c.hangupCause) && c.hangupCause != Some(16)
                && DialEnding(c.dialStatus).None? && c.dialStatus != Some(DialCancel))
            && (why == Timeout ==> pastDeadline) && (why == Unknown ==> !pastDeadline)
  {}

  /** No cause, zero, or normal clearing: the dial status may still speak. */
  predicate Vague(cause: Option<int>) { cause.None? || cause.value == 0 || cause.value == 16 }

  /** When exactly each final status is inferred for a call that was not answered and not asked to end. */
  lemma EndingInferredIff(c: Call, late: bool)
    requires c.requestedEnd.None? && !c.answered
    ensures var how, cause, vague, dial := Termination(c, late).0, c.hangupCause, Vague(c.hangupCause), c.dialStatus;
            var silent := vague && cause != Some(16) && dial != Some(DialBusy) && dial != Some(DialNoAnswer)
                          && dial != Some(DialDontCall) && dial != Some(DialTorture) && dial != Some(DialChanUnavail)
                          && dial != Some(DialCancel);
            && how != Completed
            && (how == Busy <==> cause == Some(17) || (vague && dial == Some(DialBusy)))
            && (how == NoAnswer <==>
                cause == Some(18) || cause == Some(19) || (vague && dial == Some(DialNoAnswer)) || (silent && late))
            && (how == Refused <==>
                cause == Some(21) || (vague && (dial == Some(DialDontCall) || dial == Some(DialTorture))))
            && (how == Unavailable <==>
                || cause == Some(1) || cause == Some(2) || cause == Some(3) || cause == Some(20) || cause == Some(27)
                || (vague && dial == Some(DialChanUnavail)))
            && (how == Cancelled <==> vague && dial == Some(DialCancel))
    ensures var (how, why) := Termination(c, late);
            if how == Failed then
              why == if c.hangupCause.None? || c.hangupCause.value == 0 then Unknown else CallFailed
            else why == SameAs(how) || (why == Timeout && how == NoAnswer && late)
  {}

  /** A request ends the call as asked, whatever else is known; otherwise an answered call is completed. */
  lemma EndingAskedOrAnswered(c: Call, late: bool)
    requires c.requestedEnd.Some? || c.answered
    ensures Termination(c, late) == if c.requestedEnd.Some? then (c.requestedEnd.value, SameAs(c.requestedEnd.value))
                                    else (Completed, NormalHangup)
  {}

  /** What `cleanup` makes of the call; the caller's reason, if any, overrides the evidence. */
  function Terminated(c: Call, override: Option<Reason>, pastDeadline: bool): Call {
    var (how, why) := Termination(c, pastDeadline);
    if override.Some? then Moved(c.(reason := override), Ended(Failed))
    else Moved(c.(reason := Some(why)), Ended(how))
  }

  function WithDial(c: Call, dial: Option<DialStatus>): Call {
    if dial.Some? then c.(dialStatus := dial) else c
  }

  function WithDestroyCause(c: Call, cause: Option<int>): Call {
    if cause.Some? && (cause.value != 0 || c.hangupCause == None) then c.(hangupCause := cause) else c
  }

  // ---------------------------------------------------------------- in place

  class ActiveCall {
    var status: Status
    var sequence: nat
    var answered: bool
    var hangupCause: Option<int>
    var dialStatus: Option<DialStatus>
    var requestedEnd: Option<Ending>
    var reason: Option<Reason>
    var inStasis: bool
    var activating: bool
    var bridged: bool
    var mediaKnown: bool

    constructor ()
      ensures View() == RESERVED
    {
      status, sequence, answered := Dialing, 0, false;
      hangupCause, dialStatus, requestedEnd, reason := None, None, None, None;
      inStasis, activating, bridged, mediaKnown := false, false, false, false;
    }

    function View(): Call
      reads this
    {
      Call(status, sequence, answered, hangupCause, dialStatus, requestedEnd, reason,
           inStasis, activating, bridged, mediaKnown)
    }

    /** The part of `publish_status` before its first await. */
    method PublishStatus(s: Status) returns (published: Option<Snapshot>)
      modifies this
      ensures Suppressed(old(View()), s) ==> published == None && View() == old(View())
      ensures !Suppressed(old(View()), s) ==>
                View() == Moved(old(View()), s) && published == Some(SnapshotOf(View()))
    {
      if status.Ended? || (status == s && sequence > 0) {
        return None;
      }
      if answered && (s.Dialing? || s.Ringing?) {
        return None;
      }
      status := s;
      answered := answered || s == Answered;
      sequence := sequence + 1;
      published := Some(SnapshotOf(View()));
    }

    /** `cleanup` up to its first await, for a call that was still in the registry. */
    method Terminate(override: Option<Reason>, pastDeadline: bool) returns (published: Option<Snapshot>)
      requires !status.Ended?
      modifies this
      ensures View() == Terminated(old(View()), override, pastDeadline)
      ensures View().status.Ended? && published == Some(SnapshotOf(View()))
    {
      var (how, why) := Termination(View(), pastDeadline);
      reason := Some(why);
      if override.Some? {
        how, reason := Failed, override;
      }
      published := PublishStatus(Ended(how));
    }

    /** `originate`'s failure path. */
    method FailOriginate() returns (published: Snapshot)
      modifies this
      ensures View() == OriginateFailure(old(View())) && published == SnapshotOf(View())
    {
      status, reason := Ended(Failed), Some(OriginateFailed);
      sequence := sequence + 1;
      published := SnapshotOf(View());
    }

    method NoteDial(dial: Option<DialStatus>)
      modifies this
      ensures View() == WithDial(old(View()), dial)
    {
      if dial.Some? {
        dialStatus := dial;
      }
    }

    method NoteDestroyed(cause: Option<int>)
      modifies this
      ensures View() == WithDestroyCause(old(View()), cause)
    {
      if cause.Some? && (cause.value != 0 || hangupCause == None) {
        hangupCause := cause;
      }
    }
  }
}
