/**
  From the call machine to the tables: what the durable history shows of one
  outbound call once its snapshots have been written.
 */
module CallRecords {
  import opened Basics
  import S = CallSignals
  import M = CallMachine
  import T = CallTheorems
  import W = CallWrites
  import H = CallHistory
  import R = CallHistoryRuns

  /** The columns that do not come from the snapshot, and the clock readings that go with each one. */
  datatype Identity = Identity(id: H.CallId, owner: H.Owner, origin: H.Origin)

  datatype Stamp = Stamp(updatedAt: int, times: H.Times)

  function EndingText(e: S.Ending): string {
    match e
    case Completed => "completed"
    case Busy => "busy"
    case NoAnswer => "no_answer"
    case Refused => "rejected"
    case Unavailable => "unavailable"
    case Failed => "failed"
    case Cancelled => "cancelled"
  }

  function StatusText(s: S.Status): string {
    match s
    case Dialing => "dialing"
    case Ringing => "ringing"
    case Answered => "answered"
    case Ended(how) => EndingText(how)
  }

  function ReasonText(r: S.Reason): string {
    match r
    case SameAs(how) => EndingText(how)
    case NormalHangup => "normal_hangup"
    case CallFailed => "call_failed"
    case Timeout => "timeout"
    case Unknown => "unknown"
    case MediaFailed => "media_failed"
    case EventFailed => "event_failed"
    case OriginateFailed => "originate_failed"
  }

  function DialText(d: S.DialStatus): string {
    match d
    case DialRinging => "RINGING"
    case DialProgress => "PROGRESS"
    case DialProceeding => "PROCEEDING"
    case DialAnswer => "ANSWER"
    case DialBusy => "BUSY"
    case DialNoAnswer => "NOANSWER"
    case DialCancel => "CANCEL"
    case DialChanUnavail => "CHANUNAVAIL"
    case DialCongestion => "CONGESTION"
    case DialDontCall => "DONTCALL"
    case DialTorture => "TORTURE"
    case DialInvalidArgs => "INVALIDARGS"
  }

  function Row(s: S.Snapshot, at: int): H.Snapshot {
    H.Snapshot(StatusText(s.status), s.Terminal(), s.answered,
               if s.reason.Some? then Some(ReasonText(s.reason.value)) else None,
               s.hangupCause,
               if s.dialStatus.Some? then Some(DialText(s.dialStatus.value)) else None,
               at)
  }

  /** What the store is handed for a snapshot. */
  function PayloadOf(who: Identity, s: S.Snapshot, stamp: Stamp): H.Payload {
    H.Payload(who.id, who.owner, who.origin, s.sequence, Row(s, stamp.updatedAt), stamp.times)
  }

  /** `all` holds this call's snapshots as payloads, and `ops` publish each of them and no other of this call. */
  ghost predicate Publishes(ops: seq<R.Op>, all: R.Log, who: Identity, log: seq<S.Snapshot>, stamps: seq<Stamp>) {
    && |stamps| == |log|
    && (forall n: nat :: H.Key(who.id, n) in R.Published(ops) <==> 1 <= n <= |log|)
    && (forall i | 0 <= i < |log| ::
          H.Key(who.id, i + 1) in all && all[H.Key(who.id, i + 1)] == PayloadOf(who, log[i], stamps[i]))
  }

  /** The rows of the call are its snapshots; its record is complete and shows the last one. */
  ghost predicate ShowsCall(t: H.Tables, who: Identity, log: seq<S.Snapshot>, stamps: seq<Stamp>) {
    && |stamps| == |log|
    && (forall n: nat :: H.Key(who.id, n) in t.signals <==> 1 <= n <= |log|)
    && (forall i | 0 <= i < |log| ::
          H.Key(who.id, i + 1) in t.signals && t.signals[H.Key(who.id, i + 1)] == Row(log[i], stamps[i].updatedAt))
    && (log != [] ==>
          && who.id in t.records
          && var r, last := t.records[who.id], |log| - 1;
             && r.sequence == |log| && r.snapshot == Row(log[last], stamps[last].updatedAt)
             && r.times == stamps[last].times && r.owner == who.owner
             && (who.origin.source == H.Gateway ==> r.historyComplete))
  }

  /** Operations that publish the call's snapshots leave a history that shows them, and a record of the final one. */
  lemma PublishedCallIsShown(moves: seq<M.Move>, who: Identity, stamps: seq<Stamp>,
                            ops: seq<R.Op>, all: R.Log, lim: H.Limits)
    requires lim.Valid() && R.Coherent(all) && forall op | op in ops :: R.Lawful(op, all)
    requires R.Run(ops, lim).pending == [] && R.Run(ops, lim).dropped == []
    requires Publishes(ops, all, who, M.Run(moves).log, stamps)
    ensures ShowsCall(R.Run(ops, lim).tables, who, M.Run(moves).log, stamps)
    ensures var w, t := M.Run(moves), R.Run(ops, lim).tables;
            w.log != [] ==> (t.records[who.id].snapshot.terminal <==> !w.inRegistry)
  {
    T.StatusLogRises(moves);
    T.EndsExactlyOnce(moves);
    R.HistoryConverges(ops, all, lim);
    var w, t := M.Run(moves), R.Run(ops, lim).tables;
    hide M.Run, R.Run;
    RowsShowTheLog(t, all, R.Published(ops), who, w.log, stamps);
    if w.log != [] {
      assert w.log[|w.log| - 1].Terminal() <==> !w.inRegistry;
    }
  }

  lemma RowsShowTheLog(t: H.Tables, all: R.Log, published: set<H.Key>, who: Identity, log: seq<S.Snapshot>,
                       stamps: seq<Stamp>)
    requires published <= all.Keys && R.Converged(t, published, all) && |stamps| == |log|
    requires forall n: nat :: H.Key(who.id, n) in published <==> 1 <= n <= |log|
    requires forall i | 0 <= i < |log| :: log[i].sequence == i + 1
    requires forall i | 0 <= i < |log| ::
               H.Key(who.id, i + 1) in all && all[H.Key(who.id, i + 1)] == PayloadOf(who, log[i], stamps[i])
    ensures ShowsCall(t, who, log, stamps)
  {
    hide Row;
    if log != [] {
      var n := |log|;
      var top := H.Key(who.id, n);
      assert top in published && R.ShowsLatest(t.records[who.id], top, published, all);
      assert R.GapFree(published, who.id, n);
    }
  }

  // ------------------------------------------------ the writes that a run itself makes

  /**
    The call and the store together: a move of the call, with the clock readings and the
    faults that a write in it would meet, or an operation for other calls, a start or a flush.
   */
  datatype Event = CallMoves(move: M.Move, stamp: Stamp, faults: seq<H.Fault>) | Elsewhere(op: R.Op)

  function MovesOf(events: seq<Event>): seq<M.Move> {
    if events == [] then []
    else
      var last := events[|events| - 1];
      MovesOf(events[..|events| - 1]) + if last.CallMoves? then [last.move] else []
  }

  /** The snapshots that have been handed to the store, in the order of handing over. */
  function Recorded(events: seq<Event>): seq<S.Snapshot> { M.Run(MovesOf(events)).recorded }

  /** The snapshot that the last event handed over. */
  function NewlyRecorded(events: seq<Event>): seq<S.Snapshot>
    requires events != []
  {
    var before, now := Recorded(events[..|events| - 1]), Recorded(events);
    if |now| > |before| then [now[|before|]] else []
  }

  /** The clock readings that went with each. */
  function StampsOf(events: seq<Event>): seq<Stamp> {
    if events == [] then []
    else
      var before, last := events[..|events| - 1], events[|events| - 1];
      StampsOf(before) + if last.CallMoves? && NewlyRecorded(events) != [] then [last.stamp] else []
  }

  /** The operations the store sees. */
  function OpsOf(events: seq<Event>, who: Identity): seq<R.Op> {
    if events == [] then [] else OpsOf(events[..|events| - 1], who) + LastOps(events, who)
  }

  /** The last event is an operation itself, or makes one of the snapshot it hands over. */
  function LastOps(events: seq<Event>, who: Identity): seq<R.Op>
    requires events != []
  {
    match events[|events| - 1]
    case Elsewhere(op) => [op]
    case CallMoves(_, stamp, faults) =>
      if NewlyRecorded(events) == [] then []
      else [R.Publish(PayloadOf(who, NewlyRecorded(events)[0], stamp), faults)]
  }

  /** What the others wrote says nothing of this call but its start. */
  ghost predicate Foreign(others: R.Log, who: Identity) {
    && R.Coherent(others)
    && forall k | k in others && k.call == who.id ::
         k.sequence == 0 && others[k].owner == who.owner && others[k].origin == who.origin
  }

  ghost predicate OthersLawful(events: seq<Event>, others: R.Log) {
    forall e | e in events && e.Elsewhere? :: R.Lawful(e.op, others)
  }

  lemma RecordedGrows(events: seq<Event>)
    requires events != []
    ensures Recorded(events) == Recorded(events[..|events| - 1]) + NewlyRecorded(events)
    ensures events[|events| - 1].Elsewhere? ==> NewlyRecorded(events) == []
  {
    var moves, last := MovesOf(events[..|events| - 1]), events[|events| - 1];
    hide M.Run;
    if last.CallMoves? {
      W.RunRecordsOnce(moves, last.move);
      hide MovesOf;
      PrefixAndOne(M.Run(moves).recorded, M.Run(moves + [last.move]).recorded);
    } else {
      assert moves + [] == moves;
    }
  }

  lemma PrefixAndOne(before: seq<S.Snapshot>, now: seq<S.Snapshot>)
    requires before <= now && |now| <= |before| + 1
    ensures now == before + if |now| > |before| then [now[|before|]] else []
  {}

  /** The i-th write of the call. */
  function WriteAt(events: seq<Event>, who: Identity, i: nat): H.Payload
    requires i < |Recorded(events)| && i < |StampsOf(events)|
  {
    PayloadOf(who, Recorded(events)[i], StampsOf(events)[i])
  }

  lemma {:induction false} StampsMatch(events: seq<Event>)
    ensures |StampsOf(events)| == |Recorded(events)|
  {
    if events == [] {
      assert M.Run([]) == M.RESERVED_WORLD;
    } else {
      hide M.Run, Recorded, NewlyRecorded;
      RecordedGrows(events);
      StampsMatch(events[..|events| - 1]);
      NewlyAtMostOne(events);
    }
  }

  lemma NewlyAtMostOne(events: seq<Event>)
    requires events != []
    ensures |NewlyRecorded(events)| <= 1
  {}

  /** Operation `op` is the i-th write. */
  predicate IsWrite(events: seq<Event>, who: Identity, op: R.Op, i: int)
    requires |StampsOf(events)| == |Recorded(events)|
  {
    0 <= i < |Recorded(events)| && op.Publish? && op.payload == WriteAt(events, who, i)
  }

  lemma WriteStays(events: seq<Event>, who: Identity, op: R.Op, i: int)
    requires events != [] && |StampsOf(events)| == |Recorded(events)|
    requires |StampsOf(events[..|events| - 1])| == |Recorded(events[..|events| - 1])|
    requires IsWrite(events[..|events| - 1], who, op, i)
    ensures IsWrite(events, who, op, i)
  {
    RecordedGrows(events);
    hide Recorded, NewlyRecorded;
  }

  /** The i-th write is among the operations the store sees. */
  ghost predicate Issued(events: seq<Event>, who: Identity, i: int)
    requires |StampsOf(events)| == |Recorded(events)|
  {
    exists op :: op in OpsOf(events, who) && IsWrite(events, who, op, i)
  }

  ghost predicate Explained(events: seq<Event>, who: Identity, op: R.Op)
    requires |StampsOf(events)| == |Recorded(events)|
  {
    Elsewhere(op) in events || exists i :: IsWrite(events, who, op, i)
  }

  /** The store sees the others' operations and each write of the call. */
  ghost predicate OpsAreWrites(events: seq<Event>, who: Identity)
    requires |StampsOf(events)| == |Recorded(events)|
  {
    && (forall op | op in OpsOf(events, who) :: Explained(events, who, op))
    && (forall i | 0 <= i < |Recorded(events)| :: Issued(events, who, i))
  }

  lemma {:induction false} OpsMatch(events: seq<Event>, who: Identity)
    ensures |StampsOf(events)| == |Recorded(events)| && OpsAreWrites(events, who)
  {
    StampsMatch(events);
    if events == [] {
      assert M.Run([]) == M.RESERVED_WORLD;
    } else {
      var before := events[..|events| - 1];
      StampsMatch(before);
      OpsMatch(before, who);
      RecordedGrows(events);
      hide Recorded, StampsOf, NewlyRecorded, LastOps, Explained, Issued;
      forall op | op in OpsOf(events, who)
        ensures Explained(events, who, op)
      {
        if op in OpsOf(before, who) {
          ExplainedStays(events, who, op);
        } else {
          assert op in LastOps(events, who);
          LastOpIsExplained(events, who, op);
        }
      }
      forall i | 0 <= i < |Recorded(events)|
        ensures Issued(events, who, i)
      {
        if i < |Recorded(before)| {
          IssuedStays(events, who, i);
        } else {
          NewlyIsIssued(events, who, i);
        }
      }
    }
  }

  lemma ExplainedStays(events: seq<Event>, who: Identity, op: R.Op)
    requires events != [] && |StampsOf(events)| == |Recorded(events)|
    requires |StampsOf(events[..|events| - 1])| == |Recorded(events[..|events| - 1])|
    requires Explained(events[..|events| - 1], who, op)
    ensures Explained(events, who, op)
  {
    hide Recorded, StampsOf, IsWrite;
    var before := events[..|events| - 1];
    if Elsewhere(op) !in before {
      var i :| IsWrite(before, who, op, i);
      WriteStays(events, who, op, i);
    }
  }

  lemma IssuedStays(events: seq<Event>, who: Identity, i: nat)
    requires events != [] && |StampsOf(events)| == |Recorded(events)|
    requires |StampsOf(events[..|events| - 1])| == |Recorded(events[..|events| - 1])|
    requires Issued(events[..|events| - 1], who, i)
    ensures Issued(events, who, i)
  {
    hide Recorded, StampsOf, IsWrite, LastOps;
    var before := events[..|events| - 1];
    var op :| op in OpsOf(before, who) && IsWrite(before, who, op, i);
    WriteStays(events, who, op, i);
  }

  /** The last event hands over the write at the end of the list. */
  lemma LastWrite(events: seq<Event>, who: Identity)
    requires events != [] && |StampsOf(events)| == |Recorded(events)|
    requires |StampsOf(events[..|events| - 1])| == |Recorded(events[..|events| - 1])|
    requires events[|events| - 1].CallMoves? && NewlyRecorded(events) != []
    ensures var before, last := events[..|events| - 1], events[|events| - 1];
            var op := R.Publish(PayloadOf(who, NewlyRecorded(events)[0], last.stamp), last.faults);
            && LastOps(events, who) == [op]
            && IsWrite(events, who, op, |Recorded(before)|) && |Recorded(events)| == |Recorded(before)| + 1
  {
    RecordedGrows(events);
    NewlyAtMostOne(events);
    hide Recorded, NewlyRecorded, PayloadOf;
  }

  lemma LastOpIsExplained(events: seq<Event>, who: Identity, op: R.Op)
    requires events != [] && |StampsOf(events)| == |Recorded(events)|
    requires |StampsOf(events[..|events| - 1])| == |Recorded(events[..|events| - 1])|
    requires op in LastOps(events, who)
    ensures Explained(events, who, op)
  {
    hide Recorded, NewlyRecorded, StampsOf, IsWrite, OpsOf, PayloadOf;
    var last := events[|events| - 1];
    assert last in events;
    if last.CallMoves? {
      LastWrite(events, who);
      assert IsWrite(events, who, op, |Recorded(events[..|events| - 1])|);
    } else {
      assert last == Elsewhere(op);
    }
  }

  lemma NewlyIsIssued(events: seq<Event>, who: Identity, i: nat)
    requires events != [] && |StampsOf(events)| == |Recorded(events)|
    requires |StampsOf(events[..|events| - 1])| == |Recorded(events[..|events| - 1])|
    requires |Recorded(events[..|events| - 1])| <= i < |Recorded(events)|
    ensures Issued(events, who, i)
  {
    RecordedGrows(events);
    assert NewlyRecorded(events) != [];
    hide Recorded, NewlyRecorded, StampsOf, IsWrite, LastOps;
    LastWrite(events, who);
    var last := events[|events| - 1];
    var op := R.Publish(PayloadOf(who, NewlyRecorded(events)[0], last.stamp), last.faults);
    assert op in OpsOf(events, who) && IsWrite(events, who, op, i);
  }

  // ---------------------------------------------------------------- the call's own log

  /** The writes of the call under their keys. */
  function OwnLog(who: Identity, recorded: seq<S.Snapshot>, stamps: seq<Stamp>): R.Log
    requires |recorded| == |stamps|
  {
    if recorded == [] then map[]
    else
      var last := |recorded| - 1;
      OwnLog(who, recorded[..last], stamps[..last])[H.Key(who.id, recorded[last].sequence)
                                                    := PayloadOf(who, recorded[last], stamps[last])]
  }

  ghost predicate DistinctSequences(recorded: seq<S.Snapshot>) {
    forall i, j | 0 <= i < j < |recorded| :: recorded[i].sequence != recorded[j].sequence
  }

  lemma {:induction false} OwnLogAt(who: Identity, recorded: seq<S.Snapshot>, stamps: seq<Stamp>)
    requires |recorded| == |stamps| && DistinctSequences(recorded)
    ensures var own := OwnLog(who, recorded, stamps);
            && (forall k | k in own :: k.call == who.id && own[k].Slot() == k
                                       && own[k].owner == who.owner && own[k].origin == who.origin)
            && (forall i | 0 <= i < |recorded| ::
                  var k := H.Key(who.id, recorded[i].sequence);
                  k in own && own[k] == PayloadOf(who, recorded[i], stamps[i]))
            && (forall k | k in own :: exists i :: 0 <= i < |recorded| && recorded[i].sequence == k.sequence)
  {
    hide Row;
    if recorded != [] {
      var last := |recorded| - 1;
      OwnLogAt(who, recorded[..last], stamps[..last]);
      assert recorded[last].sequence == H.Key(who.id, recorded[last].sequence).sequence;
    }
  }

  // ------------------------------------------------ what is handed over is part of the log

  ghost predicate NumberedFromOne(log: seq<S.Snapshot>) {
    forall i | 0 <= i < |log| :: log[i].sequence == i + 1
  }

  lemma {:induction false} OnceInLog(log: seq<S.Snapshot>, s: S.Snapshot)
    requires NumberedFromOne(log)
    ensures multiset(log)[s] <= 1 && (multiset(log)[s] == 1 <==> s in log)
  {
    if log != [] {
      var front, last := log[..|log| - 1], log[|log| - 1];
      OnceInLog(front, s);
      assert log == front + [last];
      assert last !in front;
    }
  }

  lemma TwiceInPart(part: seq<S.Snapshot>, i: nat, j: nat)
    requires i < j < |part| && part[i] == part[j]
    ensures multiset(part)[part[i]] >= 2
  {
    assert part == part[..j] + part[j..];
    assert part[..j][i] == part[i] && part[j..][0] == part[i];
  }

  lemma PartIsDistinct(log: seq<S.Snapshot>, part: seq<S.Snapshot>)
    requires NumberedFromOne(log) && multiset(part) <= multiset(log)
    ensures DistinctSequences(part) && forall s | s in part :: s in log
  {
    forall s | s in part
      ensures s in log
    {
      assert s in multiset(part);
    }
    forall i, j | 0 <= i < j < |part|
      ensures part[i].sequence != part[j].sequence
    {
      if part[i].sequence == part[j].sequence {
        assert part[i] in log && part[j] in log;
        SameSequenceSame(log, part[i], part[j]);
        TwiceInPart(part, i, j);
        OnceInLog(log, part[i]);
      }
    }
  }

  lemma SameSequenceSame(log: seq<S.Snapshot>, s: S.Snapshot, t: S.Snapshot)
    requires NumberedFromOne(log) && s in log && t in log && s.sequence == t.sequence
    ensures s == t
  {}

  // ------------------------------------------------------------------------ the theorem

  /** Everything the store is told, of the others and of this call. */
  function WholeLog(events: seq<Event>, who: Identity, others: R.Log): R.Log
    requires |StampsOf(events)| == |Recorded(events)|
  {
    others + OwnLog(who, Recorded(events), StampsOf(events))
  }

  lemma RecordedIsPartOfTheLog(events: seq<Event>)
    ensures var w := M.Run(MovesOf(events));
            && NumberedFromOne(w.log) && DistinctSequences(Recorded(events))
            && (forall s | s in Recorded(events) :: s in w.log)
            && (W.Settled(w) ==> forall s | s in w.log :: s in Recorded(events))
  {
    var moves := MovesOf(events);
    T.StatusLogRises(moves);
    W.EverySnapshotIsHandedOverOnce(moves);
    var log, recorded := M.Run(moves).log, M.Run(moves).recorded;
    assert multiset(recorded) <= multiset(log);
    hide M.Run, W.Settled;
    PartIsDistinct(log, recorded);
    forall s | s in log && multiset(log) == multiset(recorded)
      ensures s in recorded
    {
      assert s in multiset(log);
    }
  }

  lemma WholeLogIsLawful(events: seq<Event>, who: Identity, others: R.Log)
    requires Foreign(others, who) && OthersLawful(events, others) && |StampsOf(events)| == |Recorded(events)|
    requires OpsAreWrites(events, who) && DistinctSequences(Recorded(events))
    requires forall s | s in Recorded(events) :: s.sequence >= 1
    ensures R.Coherent(WholeLog(events, who, others))
    ensures forall op | op in OpsOf(events, who) :: R.Lawful(op, WholeLog(events, who, others))
  {
    var recorded, stamps, all := Recorded(events), StampsOf(events), WholeLog(events, who, others);
    OwnLogAt(who, recorded, stamps);
    hide Recorded, StampsOf, OwnLog, Row, DistinctSequences;
    OwnKeysAreNew(who, others, OwnLog(who, recorded, stamps), recorded);
    forall op | op in OpsOf(events, who)
      ensures R.Lawful(op, all)
    {
      assert Explained(events, who, op);
      if Elsewhere(op) in events {
        LawfulStays(op, others, OwnLog(who, recorded, stamps));
      } else {
        var i :| IsWrite(events, who, op, i);
        assert recorded[i] in recorded;
        assert op.payload.Slot() == H.Key(who.id, recorded[i].sequence);
      }
    }
  }

  lemma OwnKeysAreNew(who: Identity, others: R.Log, own: R.Log, recorded: seq<S.Snapshot>)
    requires Foreign(others, who) && forall s | s in recorded :: s.sequence >= 1
    requires forall k | k in own :: k.call == who.id && own[k].Slot() == k
                                    && own[k].owner == who.owner && own[k].origin == who.origin
    requires forall k | k in own :: exists i :: 0 <= i < |recorded| && recorded[i].sequence == k.sequence
    ensures others.Keys !! own.Keys && R.Coherent(others + own)
  {
    forall k | k in own
      ensures k.sequence >= 1
    {
      var i :| 0 <= i < |recorded| && recorded[i].sequence == k.sequence;
      assert recorded[i] in recorded;
    }
  }

  lemma LawfulStays(op: R.Op, others: R.Log, own: R.Log)
    requires R.Lawful(op, others) && others.Keys !! own.Keys
    ensures R.Lawful(op, others + own)
  {}

  /** The store is told of sequence `n` of this call exactly if the call has made that snapshot. */
  lemma PublishedIff(events: seq<Event>, who: Identity, others: R.Log, n: nat)
    requires Foreign(others, who) && OthersLawful(events, others) && |StampsOf(events)| == |Recorded(events)|
    requires OpsAreWrites(events, who) && W.Settled(M.Run(MovesOf(events)))
    ensures H.Key(who.id, n) in R.Published(OpsOf(events, who)) <==> 1 <= n <= |M.Run(MovesOf(events)).log|
  {
    RecordedIsPartOfTheLog(events);
    var log, recorded, ops := M.Run(MovesOf(events)).log, Recorded(events), OpsOf(events, who);
    hide M.Run, Recorded, StampsOf, OpsOf, Row, MovesOf;
    if 1 <= n <= |log| {
      assert log[n - 1] in recorded;
      var i :| 0 <= i < |recorded| && recorded[i] == log[n - 1];
      assert Issued(events, who, i);
      var op :| op in ops && IsWrite(events, who, op, i);
      assert op.payload.Slot() == H.Key(who.id, n);
    }
    if H.Key(who.id, n) in R.Published(ops) {
      var op :| op in ops && op.Publish? && op.payload.Slot() == H.Key(who.id, n);
      assert Explained(events, who, op);
      if Elsewhere(op) in events {
        ForeignPublishes(op, others, who);
      } else {
        var i :| IsWrite(events, who, op, i);
        assert recorded[i] in log;
      }
    }
  }

  lemma ForeignPublishes(op: R.Op, others: R.Log, who: Identity)
    requires Foreign(others, who) && R.Lawful(op, others) && op.Publish?
    ensures op.payload.callId != who.id
  {
    assert op.payload.Slot() in others && op.payload.Slot().call == op.payload.callId;
  }

  /** The clock readings that a log of writes holds for each snapshot. */
  function StampsIn(all: R.Log, id: H.CallId, n: nat): seq<Stamp>
    requires forall i | 1 <= i <= n :: H.Key(id, i) in all
  {
    seq(n, j requires 0 <= j < n => StampIn(all, H.Key(id, j + 1)))
  }

  function StampIn(all: R.Log, k: H.Key): Stamp
    requires k in all
  {
    Stamp(all[k].snapshot.updatedAt, all[k].times)
  }

  /** The event that handed snapshot `s` over did so with these clock readings. */
  ghost predicate ReadWith(events: seq<Event>, s: S.Snapshot, stamp: Stamp) {
    exists i :: 0 <= i < |Recorded(events)| && i < |StampsOf(events)|
                && Recorded(events)[i] == s && StampsOf(events)[i] == stamp
  }

  /** The write of snapshot `n` of the call. */
  lemma WriteOf(events: seq<Event>, who: Identity, others: R.Log, n: nat) returns (i: nat)
    requires |StampsOf(events)| == |Recorded(events)| && W.Settled(M.Run(MovesOf(events)))
    requires 1 <= n <= |M.Run(MovesOf(events)).log|
    ensures i < |Recorded(events)| && Recorded(events)[i] == M.Run(MovesOf(events)).log[n - 1]
    ensures H.Key(who.id, n) in WholeLog(events, who, others)
    ensures WholeLog(events, who, others)[H.Key(who.id, n)] == WriteAt(events, who, i)
  {
    RecordedIsPartOfTheLog(events);
    var log, recorded := M.Run(MovesOf(events)).log, Recorded(events);
    OwnLogAt(who, recorded, StampsOf(events));
    hide M.Run, Recorded, StampsOf, MovesOf, OwnLog, PayloadOf;
    assert log[n - 1] in recorded;
    i :| 0 <= i < |recorded| && recorded[i] == log[n - 1];
    assert H.Key(who.id, recorded[i].sequence) == H.Key(who.id, n);
  }

  lemma WritesHoldTheLog(events: seq<Event>, who: Identity, others: R.Log, n: nat)
    requires |StampsOf(events)| == |Recorded(events)| && W.Settled(M.Run(MovesOf(events)))
    requires 1 <= n <= |M.Run(MovesOf(events)).log|
    ensures var all, log := WholeLog(events, who, others), M.Run(MovesOf(events)).log;
            HoldsAt(all, who, log, n) && ReadWith(events, log[n - 1], StampIn(all, H.Key(who.id, n)))
  {
    hide M.Run, Recorded, StampsOf, MovesOf, WholeLog, W.Settled;
    var i := WriteOf(events, who, others, n);
    assert StampIn(WholeLog(events, who, others), H.Key(who.id, n)) == StampsOf(events)[i];
  }

  ghost predicate AllReadWith(events: seq<Event>, log: seq<S.Snapshot>, stamps: seq<Stamp>) {
    |stamps| == |log| && forall i | 0 <= i < |log| :: ReadWith(events, log[i], stamps[i])
  }

  ghost predicate TellsOf(ops: seq<R.Op>, id: H.CallId, n: nat) {
    forall k: nat :: H.Key(id, k) in R.Published(ops) <==> 1 <= k <= n
  }

  /** The log of writes holds each snapshot of the call. */
  ghost predicate Holds(all: R.Log, who: Identity, log: seq<S.Snapshot>) {
    forall n: nat | 1 <= n <= |log| :: HoldsAt(all, who, log, n)
  }

  predicate HoldsAt(all: R.Log, who: Identity, log: seq<S.Snapshot>, n: nat)
    requires 1 <= n <= |log|
  {
    && H.Key(who.id, n) in all
    && var p := all[H.Key(who.id, n)];
       p == PayloadOf(who, log[n - 1], StampIn(all, H.Key(who.id, n)))
  }

  lemma HeldLogIsPublished(ops: seq<R.Op>, all: R.Log, who: Identity, log: seq<S.Snapshot>) returns (stamps: seq<Stamp>)
    requires TellsOf(ops, who.id, |log|) && Holds(all, who, log)
    ensures Publishes(ops, all, who, log, stamps)
    ensures forall i | 0 <= i < |log| ::
              H.Key(who.id, i + 1) in all && stamps[i] == StampIn(all, H.Key(who.id, i + 1))
  {
    hide R.Published, PayloadOf;
    forall n: nat | 1 <= n <= |log|
      ensures H.Key(who.id, n) in all
    {
      assert HoldsAt(all, who, log, n);
    }
    stamps := StampsIn(all, who.id, |log|);
    forall i | 0 <= i < |log|
      ensures H.Key(who.id, i + 1) in all && all[H.Key(who.id, i + 1)] == PayloadOf(who, log[i], stamps[i])
    {
      assert HoldsAt(all, who, log, i + 1);
    }
  }

  /** The call's own moves make the store see each of its snapshots, and no other of this call. */
  lemma MovesPublishTheLog(events: seq<Event>, who: Identity, others: R.Log) returns (stamps: seq<Stamp>)
    requires Foreign(others, who) && OthersLawful(events, others) && W.Settled(M.Run(MovesOf(events)))
    requires |StampsOf(events)| == |Recorded(events)| && OpsAreWrites(events, who)
    ensures Publishes(OpsOf(events, who), WholeLog(events, who, others), who, M.Run(MovesOf(events)).log, stamps)
    ensures AllReadWith(events, M.Run(MovesOf(events)).log, stamps)
  {
    hide M.Run, Recorded, StampsOf, OpsOf, MovesOf, WholeLog, OpsAreWrites, Foreign, OthersLawful, PayloadOf, W.Settled;
    hide R.Published, ReadWith;
    var ops, all, log := OpsOf(events, who), WholeLog(events, who, others), M.Run(MovesOf(events)).log;
    assert TellsOf(ops, who.id, |log|) by {
      forall n: nat
        ensures H.Key(who.id, n) in R.Published(ops) <==> 1 <= n <= |log|
      {
        PublishedIff(events, who, others, n);
      }
    }
    assert Holds(all, who, log) by {
      forall n: nat | 1 <= n <= |log|
        ensures HoldsAt(all, who, log, n)
      {
        WritesHoldTheLog(events, who, others, n);
      }
    }
    stamps := HeldLogIsPublished(ops, all, who, log);
    forall i | 0 <= i < |log|
      ensures ReadWith(events, log[i], stamps[i])
    {
      WritesHoldTheLog(events, who, others, i + 1);
    }
  }

  /** Every operation the store sees is lawful, for one log of writes. */
  lemma MovesAreLawful(events: seq<Event>, who: Identity, others: R.Log)
    requires Foreign(others, who) && OthersLawful(events, others)
    requires |StampsOf(events)| == |Recorded(events)| && OpsAreWrites(events, who)
    ensures R.Coherent(WholeLog(events, who, others))
    ensures forall op | op in OpsOf(events, who) :: R.Lawful(op, WholeLog(events, who, others))
  {
    RecordedIsPartOfTheLog(events);
    hide Foreign, OthersLawful, OpsAreWrites, DistinctSequences, StampsOf, OpsOf, WholeLog;
    assert forall s | s in Recorded(events) :: s.sequence >= 1;
    WholeLogIsLawful(events, who, others);
  }

  /**
    Whatever the interleaving of the call's coroutines, and whatever fails, repeats or
    comes late on the way to the database: once no snapshot is being handed over, nothing
    waits and nothing was dropped, the history shows exactly the call's snapshots, and its
    record the final one. What the store is told of the call is what its own moves hand
    over, each snapshot with the clock readings of the move that did.
   */
  lemma HistoryShowsTheCall(events: seq<Event>, who: Identity, others: R.Log, lim: H.Limits)
    returns (stamps: seq<Stamp>)
    requires lim.Valid() && Foreign(others, who) && OthersLawful(events, others)
    requires W.Settled(M.Run(MovesOf(events)))
    requires R.Run(OpsOf(events, who), lim).pending == [] && R.Run(OpsOf(events, who), lim).dropped == []
    ensures ShowsCall(R.Run(OpsOf(events, who), lim).tables, who, M.Run(MovesOf(events)).log, stamps)
    ensures AllReadWith(events, M.Run(MovesOf(events)).log, stamps)
    ensures var w, t := M.Run(MovesOf(events)), R.Run(OpsOf(events, who), lim).tables;
            w.log != [] ==> (t.records[who.id].snapshot.terminal <==> !w.inRegistry)
  {
    hide M.Run, R.Run, Recorded, StampsOf, OpsOf, MovesOf, OpsAreWrites, Foreign, OthersLawful, W.Settled, Publishes;
    hide AllReadWith;
    OpsMatch(events, who);
    MovesAreLawful(events, who, others);
    stamps := MovesPublishTheLog(events, who, others);
    hide WholeLog;
    PublishedCallIsShown(MovesOf(events), who, stamps, OpsOf(events, who), WholeLog(events, who, others), lim);
  }
}
