/** What a caller of the store may rely on: who may write what, when a write succeeds, and what it leaves behind. */
module CallHistoryWrites {
  import opened Basics
  import opened CallHistory
  import opened CallHistoryRuns

  // ----------------------------------------------------------------- who may write

  /** One of the four owner columns differs. */
  predicate OtherOwner(r: Record, p: Payload) {
    || r.owner.organization != p.owner.organization || r.owner.partnerApp != p.owner.partnerApp
    || r.owner.calledNumber != p.owner.calledNumber || r.owner.routingContext != p.owner.routingContext
  }

  /**
    A write is refused exactly if the call is known under another owner, or it is the
    start of a call that did not come from the gateway; what is not stored changes nothing.
   */
  lemma WriteIsRefusedIff(t: Tables, w: Write)
    ensures var p, (u, v) := w.payload, WriteResult(t, w);
            && (v == Rejected <==>
                && p.callId in t.records
                && (OtherOwner(t.records[p.callId], p)
                    || (w.StartWrite? && t.records[p.callId].origin.source == Imported)))
            && (v == Unreachable <==>
                && w.SignalWrite? && p.callId !in t.records && p.sequence >= 1
                && Key(p.callId, p.sequence) in t.signals)
            && (v != Stored ==> u == t)
  {
    hide Refreshed, WithSignal;
  }

  /** However often it is retried and however the attempts fail, another owner's write changes neither table. */
  lemma {:induction false} ForeignWritesChangeNothing(t: Tables, w: Write, faults: seq<Fault>, attempts: nat, i: nat)
    requires i < attempts
    requires w.payload.callId in t.records && OtherOwner(t.records[w.payload.callId], w.payload)
    ensures var (u, v) := RetryResult(t, w, faults, attempts, i);
            && u == t
            && v == if attempts <= |faults| && faults[attempts - 1] == LostBefore then Unreachable else Rejected
    decreases attempts - i
  {
    WriteIsRefusedIff(t, w);
    hide WriteResult;
    if i + 1 < attempts {
      ForeignWritesChangeNothing(t, w, faults, attempts, i + 1);
    }
  }

  // ------------------------------------------------------------ what it leaves behind

  /** A new record shows what its first write carried. */
  predicate FreshRecord(r: Record, p: Payload) {
    && r.owner == p.owner && r.origin == p.origin && r.sequence == p.sequence
    && r.snapshot == p.snapshot && r.times == p.times
  }

  /**
    A stored start leaves a record of the call, a new one just as it was asked for; a
    stored snapshot leaves its row, and a record at least as new.
   */
  lemma StoredWritesAreThere(t: Tables, w: Write)
    requires WriteResult(t, w).1 == Stored
    ensures var p, u := w.payload, WriteResult(t, w).0;
            && p.callId in u.records
            && (p.callId !in t.records ==>
                && FreshRecord(u.records[p.callId], p)
                && (p.sequence == 0 || w.StartWrite? ==> u.records[p.callId].historyComplete))
            && (w.StartWrite? ==> u.signals == t.signals && (p.callId in t.records ==> u == t))
            && (w.SignalWrite? ==>
                && u.records[p.callId].sequence >= p.sequence
                && (p.sequence >= 1 ==>
                    && Key(p.callId, p.sequence) in u.signals
                    && (Key(p.callId, p.sequence) !in t.signals ==>
                        u.signals[Key(p.callId, p.sequence)] == p.snapshot)))
  {}

  /** Two stored writes of one payload: the second is stored again, and changes nothing more. */
  lemma StoredTwiceIsStored(t: Tables, w: Write)
    requires WriteResult(t, w).1 == Stored && (w.StartWrite? ==> w.payload.origin.source == Gateway)
    ensures WriteResult(WriteResult(t, w).0, w).1 == Stored
  {}

  /** Some attempt from `i` on meets no fault; behind the given ones there is none. */
  predicate GetsThrough(faults: seq<Fault>, attempts: nat, i: nat)
    requires i <= attempts
  {
    |faults| < attempts || Clean in faults[i..attempts]
  }

  /** A write that is not refused is reported stored exactly if one of its attempts meets no fault. */
  lemma {:induction false} RetrySucceedsIff(t: Tables, w: Write, faults: seq<Fault>, attempts: nat, i: nat)
    requires i < attempts && WriteResult(t, w).1 == Stored
    requires w.StartWrite? ==> w.payload.origin.source == Gateway
    ensures RetryResult(t, w, faults, attempts, i).1
            == if GetsThrough(faults, attempts, i) then Stored else Unreachable
    decreases attempts - i
  {
    hide WriteResult;
    if attempts <= |faults| {
      assert faults[i..attempts] == [faults[i]] + faults[i + 1..attempts];
    }
    if FaultAt(faults, i) != Clean && i + 1 < attempts {
      StoredTwiceIsStored(t, w);
      RetrySucceedsIff(AttemptResult(t, w, FaultAt(faults, i)).0, w, faults, attempts, i + 1);
    }
  }

  // ---------------------------------------------------------------- nothing is taken back

  /** Signals are never changed or removed, records never removed, moved back or given to another owner. */
  ghost predicate Kept(t: Tables, u: Tables) {
    && (forall k | k in t.signals :: k in u.signals && u.signals[k] == t.signals[k])
    && (forall id | id in t.records ::
          && id in u.records
          && u.records[id].owner == t.records[id].owner && u.records[id].origin == t.records[id].origin
          && u.records[id].sequence >= t.records[id].sequence)
  }

  lemma KeptTrans(t: Tables, u: Tables, v: Tables)
    requires Kept(t, u) && Kept(u, v)
    ensures Kept(t, v)
  {}

  lemma WriteKeeps(t: Tables, w: Write)
    ensures Kept(t, WriteResult(t, w).0)
  {}

  lemma {:induction false} RetryKeeps(t: Tables, w: Write, faults: seq<Fault>, attempts: nat, i: nat)
    requires i < attempts
    ensures Kept(t, RetryResult(t, w, faults, attempts, i).0)
    decreases attempts - i
  {
    WriteKeeps(t, w);
    var (t1, v) := AttemptResult(t, w, FaultAt(faults, i));
    assert Kept(t, t1);
    hide WriteResult, Kept;
    if !(v == Stored || i + 1 >= attempts) {
      RetryKeeps(t1, w, faults, attempts, i + 1);
      KeptTrans(t, t1, RetryResult(t, w, faults, attempts, i).0);
    }
  }

  lemma {:induction false} FlushKeeps(st: Store, script: seq<seq<Fault>>, lim: Limits)
    requires lim.Valid()
    ensures Kept(st.tables, Flushed(st, script, lim).tables)
    decreases |st.pending|
  {
    if st.pending != [] {
      RetryKeeps(st.tables, SignalWrite(st.pending[0]), FaultsFor(script), lim.attempts, 0);
      var (t, v) := RetryResult(st.tables, SignalWrite(st.pending[0]), FaultsFor(script), lim.attempts, 0);
      hide RetryResult;
      if v == Stored {
        var st1, rest := Store(t, st.pending[1..], st.dropped), if script == [] then [] else script[1..];
        FlushKeeps(st1, rest, lim);
        hide Kept;
        KeptTrans(st.tables, t, Flushed(st1, rest, lim).tables);
      }
    }
  }

  /** Whatever follows, restarts included, history is only added to. */
  lemma HistoryIsAppendOnly(ops: seq<Op>, op: Op, lim: Limits)
    requires lim.Valid() && forall o | o in ops && o.Start? :: o.payload.sequence == 0
    ensures Kept(Run(ops, lim).tables, Run(ops + [op], lim).tables)
  {
    assert (ops + [op])[..|ops|] == ops;
    ReachableTablesAreSound(ops, lim);
    var st := Run(ops, lim);
    hide Run;
    match op {
      case Start(p, faults) => RetryKeeps(st.tables, StartWrite(p), faults, lim.attempts, 0);
      case Publish(p, faults) => RetryKeeps(st.tables, SignalWrite(p), faults, lim.attempts, 0);
      case Flush(script) => FlushKeeps(st, script, lim);
      case Recover(now) => RecoveryKeepsRows(st.tables, now);
    }
    hide Kept, RetryResult;
  }

  lemma RecoveryKeepsRows(t: Tables, now: int)
    requires Sound(t)
    ensures Kept(t, Recovered(t, now))
  {
    RecoveryAddsFreshSignals(t, now);
    RecoveryRestarts(t, now);
    hide Recovered, Sound;
  }

  // --------------------------------------------------------------------- the queue

  /**
    A payload that cannot be stored goes to the end of the queue. One waiting under its key
    makes room for it, wherever it stands; otherwise a full queue gives up its oldest.
   */
  lemma QueueKeepsTheNewest(st: Store, p: Payload, limit: nat)
    requires 1 <= limit && DistinctKeys(st.pending) && |st.pending| <= limit
    ensures var queue, u := st.pending, Queued(st, p, limit);
            && u.tables == st.tables
            && (forall i | 0 <= i < |queue| && queue[i].Slot() == p.Slot() ::
                  u.pending == queue[..i] + queue[i + 1..] + [p] && u.dropped == st.dropped)
            && ((forall q | q in queue :: q.Slot() != p.Slot()) ==>
                if |queue| < limit then u.pending == queue + [p] && u.dropped == st.dropped
                else u.pending == queue[1..] + [p] && u.dropped == st.dropped + [queue[0]])
  {
    var queue := st.pending;
    forall i | 0 <= i < |queue| && queue[i].Slot() == p.Slot()
      ensures Without(queue, p.Slot()) == queue[..i] + queue[i + 1..]
    {
      WithoutOne(queue, i);
    }
    if forall q | q in queue :: q.Slot() != p.Slot() {
      WithoutNone(queue, p.Slot());
    }
  }

  lemma {:induction false} WithoutOne(ps: seq<Payload>, i: nat)
    requires DistinctKeys(ps) && i < |ps|
    ensures Without(ps, ps[i].Slot()) == ps[..i] + ps[i + 1..]
  {
    if i > 0 {
      WithoutOne(ps[1..], i - 1);
      assert ps[..i] == [ps[0]] + ps[1..][..i - 1];
    }
  }

  lemma {:induction false} WithoutNone(ps: seq<Payload>, key: Key)
    requires forall q | q in ps :: q.Slot() != key
    ensures Without(ps, key) == ps
  {
    if ps != [] {
      WithoutNone(ps[1..], key);
    }
  }

  /** A publication waits exactly if none of its attempts went through; a start never waits. */
  lemma PublicationWaitsIff(st: Store, p: Payload, faults: seq<Fault>, lim: Limits)
    requires lim.Valid() && DistinctKeys(st.pending) && |st.pending| <= lim.pending
    requires WriteResult(st.tables, SignalWrite(p)).1 == Stored
    ensures var (u, v) := Recorded(st, p, faults, lim);
            if GetsThrough(faults, lim.attempts, 0) then
              v == Stored && u.pending == st.pending && u.dropped == st.dropped
            else v == Unreachable && u.pending != [] && u.pending[|u.pending| - 1] == p
    ensures Started(st, p, faults, lim).0.pending == st.pending && Started(st, p, faults, lim).0.dropped == st.dropped
  {
    RetrySucceedsIff(st.tables, SignalWrite(p), faults, lim.attempts, 0);
    var (t, v) := RetryResult(st.tables, SignalWrite(p), faults, lim.attempts, 0);
    hide RetryResult, WriteResult;
    QueueKeepsTheNewest(st.(tables := t), p, lim.pending);
  }

  /** The write that the flush makes as number `i` gets through. */
  predicate FlushedAt(script: seq<seq<Fault>>, lim: Limits, i: nat) {
    i < |script| ==> GetsThrough(script[i], lim.attempts, 0)
  }

  /** The first `n` writes get through and the next one does not, if there is one. */
  ghost predicate StopsAt(script: seq<seq<Fault>>, lim: Limits, waiting: nat, n: nat) {
    n <= waiting && (forall i | 0 <= i < n :: FlushedAt(script, lim, i)) && (n < waiting ==> !FlushedAt(script, lim, n))
  }

  lemma OneFlushed(script: seq<seq<Fault>>, lim: Limits, waiting: nat, n: nat)
    requires StopsAt(script, lim, waiting, n) && n > 0
    ensures StopsAt(if script == [] then [] else script[1..], lim, waiting - 1, n - 1)
  {
    var rest := if script == [] then [] else script[1..];
    forall i: nat
      ensures FlushedAt(rest, lim, i) == FlushedAt(script, lim, i + 1)
    {
    }
  }

  lemma {:induction false} FlushGoesOn(st: Store, script: seq<seq<Fault>>, n: nat, log: Log, all: Log,
                                       published: set<Key>, lim: Limits)
    requires lim.Valid() && Accounts(st, log, all, published, lim) && StopsAt(script, lim, |st.pending|, n)
    ensures var u := Flushed(st, script, lim);
            u.pending == st.pending[n..] && u.dropped == st.dropped
    decreases |st.pending|
  {
    hide Accounts, RetryResult, WriteResult, GetsThrough, StopsAt;
    if st.pending != [] {
      var p, faults := st.pending[0], FaultsFor(script);
      var w, rest := SignalWrite(p), if script == [] then [] else script[1..];
      HeadIsPublished(st, log, all, published, lim);
      HeadIsStored(st, log, all, published, lim);
      RetrySucceedsIff(st.tables, w, faults, lim.attempts, 0);
      FirstDecides(script, lim, |st.pending|, n);
      if n > 0 {
        OneFlushed(script, lim, |st.pending|, n);
        var log1 := WriteAccounts(st, w, faults, log, all, published, lim);
        var t := RetryResult(st.tables, w, faults, lim.attempts, 0).0;
        PopAccounts(st, t, log1, all, published, lim);
        FlushGoesOn(Store(t, st.pending[1..], st.dropped), rest, n - 1, log1, all, published, lim);
        assert st.pending[1..][n - 1..] == st.pending[n..];
      } else {
        assert st.pending[0..] == st.pending;
      }
    } else {
      assert n == 0 by { StopsInside(script, lim, n); }
    }
  }

  lemma StopsInside(script: seq<seq<Fault>>, lim: Limits, n: nat)
    requires StopsAt(script, lim, 0, n)
    ensures n == 0
  {}

  lemma FirstDecides(script: seq<seq<Fault>>, lim: Limits, waiting: nat, n: nat)
    requires lim.Valid() && StopsAt(script, lim, waiting, n) && waiting > 0
    ensures n <= waiting && (n > 0 <==> GetsThrough(FaultsFor(script), lim.attempts, 0))
  {
    if n > 0 {
      assert FlushedAt(script, lim, 0);
    }
  }

  lemma HeadIsStored(st: Store, log: Log, all: Log, published: set<Key>, lim: Limits)
    requires Accounts(st, log, all, published, lim) && st.pending != []
    ensures WriteResult(st.tables, SignalWrite(st.pending[0])).1 == Stored
  {
    HeadIsPublished(st, log, all, published, lim);
    hide Shows, SignalResult, Queueable, DistinctKeys, KeysOf;
    LoggedAlike(log, all, st.pending[0]);
    SignalWriteShows(st.tables, log, st.pending[0]);
  }

  lemma LoggedAlike(log: Log, all: Log, p: Payload)
    requires Coherent(all) && Within(log, all) && p.Slot() in all && all[p.Slot()] == p
    ensures Coherent(log[p.Slot() := p]) && (p.Slot() in log ==> log[p.Slot()] == p)
  {}

  /** After any run, a flush stores what waits up to the first write that does not get through; the rest waits on. */
  lemma FlushStopsAt(ops: seq<Op>, script: seq<seq<Fault>>, n: nat, all: Log, lim: Limits)
    requires lim.Valid() && Coherent(all) && (forall op | op in ops :: Lawful(op, all))
    requires StopsAt(script, lim, |Run(ops, lim).pending|, n)
    ensures var st, u := Run(ops, lim), Run(ops + [Flush(script)], lim);
            u.pending == st.pending[n..] && u.dropped == st.dropped
  {
    assert (ops + [Flush(script)])[..|ops|] == ops;
    var log := RunAccounts(ops, all, lim);
    FlushGoesOn(Run(ops, lim), script, n, log, all, Published(ops), lim);
  }

  /** So a flush each of whose writes gets through leaves nothing waiting. */
  lemma FlushEmptiesTheQueue(ops: seq<Op>, script: seq<seq<Fault>>, all: Log, lim: Limits)
    requires lim.Valid() && Coherent(all) && (forall op | op in ops :: Lawful(op, all))
    requires forall faults | faults in script :: GetsThrough(faults, lim.attempts, 0)
    ensures var u := Run(ops + [Flush(script)], lim);
            u.pending == [] && u.dropped == Run(ops, lim).dropped
  {
    FlushStopsAt(ops, script, |Run(ops, lim).pending|, all, lim);
  }
}
