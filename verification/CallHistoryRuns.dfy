/**
  Whole runs of the durable history: writes that fail, are retried, queue,
  flush in part and land out of order still converge to the log of published
  snapshots; and recovery after a restart closes exactly the open calls.
 */
module CallHistoryRuns {
  import opened Basics
  import opened CallHistory

  type Log = map<Key, Payload>

  // ------------------------------------------------- the tables as a function of the log

  /** Payloads are filed under their own key, and a call never changes owner or origin. */
  ghost predicate Coherent(log: Log) {
    && (forall k | k in log :: log[k].Slot() == k)
    && (forall k, l | k in log && l in log && k.call == l.call ::
          log[k].owner == log[l].owner && log[k].origin == log[l].origin)
  }

  ghost predicate Within(part: Log, all: Log) {
    forall k | k in part :: k in all && part[k] == all[k]
  }

  ghost predicate Complete(log: Log, id: CallId, n: nat) {
    forall s: nat | 1 <= s <= n :: Key(id, s) in log
  }

  /** The record shows the payload of highest sequence. */
  ghost predicate ShowsTop(r: Record, log: Log, id: CallId) {
    && Key(id, r.sequence) in log
    && (forall s: nat | Key(id, s) in log :: s <= r.sequence)
    && var p := log[Key(id, r.sequence)];
       r.owner == p.owner && r.origin == p.origin && r.snapshot == p.snapshot && r.times == p.times
  }

  /** The record's mark says whether every earlier signal is there. */
  ghost predicate ShowsMark(r: Record, log: Log, id: CallId) {
    r.historyComplete <==> (r.origin.source == Gateway ==> Complete(log, id, r.sequence))
  }

  ghost predicate ShowsRecords(records: map<CallId, Record>, log: Log) {
    forall id | id in records :: ShowsTop(records[id], log, id) && ShowsMark(records[id], log, id)
  }

  ghost predicate ShowsOthers(records: map<CallId, Record>, log: Log, but: CallId) {
    forall id | id in records && id != but :: ShowsTop(records[id], log, id) && ShowsMark(records[id], log, id)
  }

  ghost predicate ShowsSignals(signals: map<Key, Snapshot>, log: Log) {
    && (forall k | k in log && k.sequence >= 1 :: k in signals)
    && (forall k | k in signals :: k in log && k.sequence >= 1 && signals[k] == log[k].snapshot)
  }

  /** The tables are exactly what the writes in `log` say, in whatever order they were applied. */
  ghost predicate Shows(t: Tables, log: Log) {
    && (forall k | k in log :: k.call in t.records)
    && ShowsRecords(t.records, log)
    && ShowsSignals(t.signals, log)
  }

  lemma SameRecordKeys(t: Tables, u: Tables, log: Log)
    requires Shows(t, log) && Shows(u, log)
    ensures t.records.Keys == u.records.Keys
  {
    hide ShowsSignals, ShowsMark;
    assert forall id | id in t.records :: Key(id, t.records[id].sequence) in log;
    assert forall id | id in u.records :: Key(id, u.records[id].sequence) in log;
  }

  lemma SameRecord(t: Tables, u: Tables, log: Log, id: CallId)
    requires ShowsRecords(t.records, log) && ShowsRecords(u.records, log) && id in t.records && id in u.records
    ensures t.records[id] == u.records[id]
  {
    hide Complete;
    assert Key(id, t.records[id].sequence) in log && Key(id, u.records[id].sequence) in log;
  }

  lemma SameSignals(t: Tables, u: Tables, log: Log)
    requires ShowsSignals(t.signals, log) && ShowsSignals(u.signals, log)
    ensures t.signals == u.signals
  {}

  /** A log determines the tables that show it. */
  lemma ShowsDetermines(t: Tables, u: Tables, log: Log)
    requires Shows(t, log) && Shows(u, log)
    ensures t == u
  {
    SameRecordKeys(t, u, log);
    SameSignals(t, u, log);
    forall id | id in t.records
      ensures t.records[id] == u.records[id]
    {
      SameRecord(t, u, log, id);
    }
    hide Shows, ShowsRecords;
    assert t.records == u.records;
  }

  /** The counting argument behind `history_complete`. */
  lemma {:induction false} CountIsCompleteness(signals: map<Key, Snapshot>, id: CallId, n: nat)
    ensures |StoredSignals(signals, id, n)| <= n
    ensures |StoredSignals(signals, id, n)| == n <==> forall s: nat | 1 <= s <= n :: Key(id, s) in signals
  {
    var here := StoredSignals(signals, id, n);
    if n == 0 {
      assert here == {};
    } else {
      var less := StoredSignals(signals, id, n - 1);
      CountIsCompleteness(signals, id, n - 1);
      if Key(id, n) in signals {
        assert here == less + {Key(id, n)};
      } else {
        assert here == less;
      }
    }
  }

  lemma {:induction false} RefreshShows(t: Tables, log: Log, id: CallId)
    requires id in t.records && ShowsOthers(t.records, log, id) && ShowsSignals(t.signals, log)
    requires forall k | k in log :: k.call in t.records
    requires var r := t.records[id];
             ShowsTop(r, log, id) && (r.origin.source == Imported || r.sequence == 0 ==> r.historyComplete)
    ensures Shows(Refreshed(t, id), log)
  {
    var r := t.records[id];
    CountIsCompleteness(t.signals, id, r.sequence);
    assert Complete(log, id, r.sequence) <==> forall s: nat | 1 <= s <= r.sequence :: Key(id, s) in t.signals;
    var r1 := Refreshed(t, id).records[id];
    assert ShowsTop(r1, log, id) && ShowsMark(r1, log, id);
  }

  lemma OthersUnmoved(records: map<CallId, Record>, log: Log, p: Payload)
    requires ShowsRecords(records, log)
    ensures ShowsOthers(records, log[p.Slot() := p], p.callId)
  {
    forall id | id in records && id != p.callId
      ensures Complete(log, id, records[id].sequence) <==> Complete(log[p.Slot() := p], id, records[id].sequence)
    {
      assert forall s: nat :: Key(id, s) in log <==> Key(id, s) in log[p.Slot() := p];
    }
  }

  lemma SignalAdded(t: Tables, log: Log, p: Payload)
    requires ShowsSignals(t.signals, log)
    requires p.Slot() in log ==> log[p.Slot()] == p
    ensures ShowsSignals(WithSignal(t, p).signals, log[p.Slot() := p])
  {}

  lemma FirstSignalShows(t: Tables, log: Log, p: Payload)
    requires Shows(t, log) && p.callId !in t.records
    ensures SignalResult(t, p).1 == Stored
    ensures Shows(SignalResult(t, p).0, log[p.Slot() := p])
  {
    assert p.Slot() !in log;
    var t0 := t.(records := t.records[p.callId := NewRecord(p)]);
    OthersUnmoved(t.records, log, p);
    SignalAdded(t0, log, p);
    assert ShowsTop(NewRecord(p), log[p.Slot() := p], p.callId) by {
      assert forall s: nat :: Key(p.callId, s) !in log;
    }
    RefreshShows(WithSignal(t0, p), log[p.Slot() := p], p.callId);
  }

  lemma LaterSignalShows(t: Tables, log: Log, p: Payload)
    requires Shows(t, log) && Coherent(log[p.Slot() := p]) && p.callId in t.records
    requires p.Slot() in log ==> log[p.Slot()] == p
    ensures SignalResult(t, p).1 == Stored
    ensures Shows(SignalResult(t, p).0, log[p.Slot() := p])
  {
    var id, log1, r := p.callId, log[p.Slot() := p], t.records[p.callId];
    assert log1[Key(id, r.sequence)].owner == log1[p.Slot()].owner;
    var t0 := if p.sequence < r.sequence then t else t.(records := t.records[id := UpdatedRecord(r, p)]);
    OthersUnmoved(t.records, log, p);
    SignalAdded(t0, log, p);
    assert ShowsTop(t0.records[id], log1, id);
    RefreshShows(WithSignal(t0, p), log1, id);
  }

  lemma SignalWriteShows(t: Tables, log: Log, p: Payload)
    requires Shows(t, log) && Coherent(log[p.Slot() := p])
    requires p.Slot() in log ==> log[p.Slot()] == p
    ensures SignalResult(t, p).1 == Stored
    ensures Shows(SignalResult(t, p).0, log[p.Slot() := p])
  {
    if p.callId in t.records {
      LaterSignalShows(t, log, p);
    } else {
      FirstSignalShows(t, log, p);
    }
  }

  /** The first row of a call shows its start. */
  lemma NewCallShown(records: map<CallId, Record>, log: Log, p: Payload)
    requires ShowsRecords(records, log) && p.callId !in records && p.sequence == 0
    requires forall k | k in log :: k.call in records
    ensures ShowsRecords(records[p.callId := NewRecord(p)], log[p.Slot() := p])
  {
    var r, log1 := NewRecord(p), log[p.Slot() := p];
    assert forall s: nat :: Key(p.callId, s) !in log;
    OthersUnmoved(records, log, p);
    assert ShowsTop(r, log1, p.callId) && ShowsMark(r, log1, p.callId);
    hide ShowsTop, ShowsMark;
  }

  lemma StartWriteShows(t: Tables, log: Log, p: Payload)
    requires Shows(t, log) && p.sequence == 0
    ensures var t1 := StartResult(t, p).0;
            Shows(t1, log) || (p.Slot() !in log && Shows(t1, log[p.Slot() := p]))
  {
    if p.callId !in t.records {
      NewCallShown(t.records, log, p);
      hide ShowsRecords;
      assert p.Slot() !in log;
    }
  }

  /** One attempt applies the write or leaves the tables alone. */
  lemma AttemptShows(t: Tables, w: Write, fault: Fault, log: Log, all: Log) returns (log1: Log)
    requires Coherent(all) && Within(log, all) && Shows(t, log)
    requires w.payload.Slot() in all && all[w.payload.Slot()] == w.payload
    requires w.StartWrite? ==> w.payload.sequence == 0
    ensures log1 == log || log1 == log[w.payload.Slot() := w.payload]
    ensures Within(log1, all) && Shows(AttemptResult(t, w, fault).0, log1)
    ensures w.SignalWrite? ==> AttemptResult(t, w, fault).1 != Rejected
    ensures w.SignalWrite? && AttemptResult(t, w, fault).1 == Stored ==> w.payload.Slot() in log1
  {
    hide Shows, StartResult, SignalResult;
    var p := w.payload;
    log1 := log;
    if fault != LostBefore {
      var applied := log[p.Slot() := p];
      match w {
        case SignalWrite(_) =>
          assert Within(applied, all);
          SignalWriteShows(t, log, p);
          log1 := applied;
        case StartWrite(_) =>
          StartWriteShows(t, log, p);
          if !Shows(StartResult(t, p).0, log) {
            log1 := applied;
          }
      }
    }
  }

  /** Retries of one write apply it or not, but never leave the tables between the two. */
  lemma {:induction false} RetryShows(t: Tables, w: Write, faults: seq<Fault>, attempts: nat, i: nat,
                                      log: Log, all: Log) returns (log1: Log)
    requires i < attempts && Coherent(all) && Within(log, all) && Shows(t, log)
    requires w.payload.Slot() in all && all[w.payload.Slot()] == w.payload
    requires w.StartWrite? ==> w.payload.sequence == 0
    ensures log1 == log || log1 == log[w.payload.Slot() := w.payload]
    ensures Within(log1, all) && Shows(RetryResult(t, w, faults, attempts, i).0, log1)
    ensures w.SignalWrite? ==> RetryResult(t, w, faults, attempts, i).1 != Rejected
    ensures w.SignalWrite? && RetryResult(t, w, faults, attempts, i).1 == Stored ==> w.payload.Slot() in log1
    decreases attempts - i
  {
    hide AttemptResult, Shows, Within, Coherent;
    log1 := AttemptShows(t, w, FaultAt(faults, i), log, all);
    var (t1, v) := AttemptResult(t, w, FaultAt(faults, i));
    if !(v == Stored || i + 1 >= attempts) {
      log1 := RetryShows(t1, w, faults, attempts, i + 1, log1, all);
    }
  }

  // ------------------------------------------------------------------------ runs

  datatype Op =
    | Start(payload: Payload, faults: seq<Fault>)
    | Publish(payload: Payload, faults: seq<Fault>)
    | Flush(script: seq<seq<Fault>>)
    | Recover(now: int)

  function Step(st: Store, op: Op, lim: Limits): Store
    requires lim.Valid()
  {
    match op
    case Start(p, faults) => Started(st, p, faults, lim).0
    case Publish(p, faults) => Recorded(st, p, faults, lim).0
    case Flush(script) => Flushed(st, script, lim)
    // The process restarts: what it had queued in memory is gone, and the tables are recovered.
    case Recover(now) => Store(Recovered(st.tables, now), [], [])
  }

  function Run(ops: seq<Op>, lim: Limits): Store
    requires lim.Valid()
  {
    if ops == [] then NEW_STORE else Step(Run(ops[..|ops| - 1], lim), ops[|ops| - 1], lim)
  }

  function Published(ops: seq<Op>): set<Key> {
    set op | op in ops && op.Publish? :: op.payload.Slot()
  }

  function KeysOf(ps: seq<Payload>): set<Key> { set p | p in ps :: p.Slot() }

  /** A start carries sequence 0, a publication 1 or more, and each key stands for one payload. */
  ghost predicate Lawful(op: Op, all: Log) {
    match op
    case Start(p, _) => p.sequence == 0 && p.Slot() in all && all[p.Slot()] == p
    case Publish(p, _) => p.sequence >= 1 && p.Slot() in all && all[p.Slot()] == p
    case Flush(_) => true
    case Recover(_) => false
  }

  ghost predicate Queueable(ps: seq<Payload>, all: Log) {
    forall p | p in ps :: p.sequence >= 1 && p.Slot() in all && all[p.Slot()] == p
  }

  ghost predicate DistinctKeys(ps: seq<Payload>) {
    forall i, j | 0 <= i < j < |ps| :: ps[i].Slot() != ps[j].Slot()
  }

  /** `log` is what the tables hold; everything published is held, waiting, or was dropped. */
  ghost predicate Accounts(st: Store, log: Log, all: Log, published: set<Key>, lim: Limits) {
    && Coherent(all) && Within(log, all) && Shows(st.tables, log)
    && Queueable(st.pending, all) && DistinctKeys(st.pending) && |st.pending| <= lim.pending
    && (forall k | k in published :: k in log || k in KeysOf(st.pending) || k in KeysOf(st.dropped))
    && (forall k | k in log && k.sequence >= 1 :: k in published)
    && KeysOf(st.pending) <= published
  }

  lemma {:induction false} WithoutSplits(ps: seq<Payload>, key: Key)
    requires DistinctKeys(ps)
    ensures DistinctKeys(Without(ps, key))
    ensures forall p :: p in Without(ps, key) <==> p in ps && p.Slot() != key
    ensures |Without(ps, key)| <= |ps|
  {
    if ps != [] {
      assert ps == [ps[0]] + ps[1..];
      assert forall p | p in ps[1..] :: p.Slot() != ps[0].Slot();
      if ps[0].Slot() != key {
        WithoutSplits(ps[1..], key);
        hide DistinctKeys;
        ConsDistinct(ps[0], Without(ps[1..], key));
      }
    }
  }

  lemma ConsDistinct(p: Payload, rest: seq<Payload>)
    requires DistinctKeys(rest) && forall q | q in rest :: q.Slot() != p.Slot()
    ensures DistinctKeys([p] + rest)
  {}

  lemma QueueKeepsKeys(st: Store, p: Payload, limit: nat)
    requires 1 <= limit && DistinctKeys(st.pending)
    ensures var st1 := Queued(st, p, limit);
            && KeysOf(st1.pending) <= KeysOf(st.pending) + {p.Slot()}
            && KeysOf(st1.pending) + KeysOf(st1.dropped) == KeysOf(st.pending) + KeysOf(st.dropped) + {p.Slot()}
  {
    var rest := Without(st.pending, p.Slot());
    WithoutSplits(st.pending, p.Slot());
    var queue := rest + [p];
    assert queue == [queue[0]] + queue[1..];
    assert KeysOf(queue) == KeysOf(st.pending) + {p.Slot()} by {
      assert forall q :: q in queue <==> q in rest || q == p;
    }
    assert KeysOf(queue) == KeysOf([queue[0]]) + KeysOf(queue[1..]) by {
      assert forall q :: q in queue <==> q == queue[0] || q in queue[1..];
    }
    assert KeysOf(st.dropped + [queue[0]]) == KeysOf(st.dropped) + KeysOf([queue[0]]) by {
      assert forall q :: q in st.dropped + [queue[0]] <==> q in st.dropped || q in [queue[0]];
    }
  }

  lemma QueueKeepsShape(st: Store, p: Payload, all: Log, limit: nat)
    requires 1 <= limit && DistinctKeys(st.pending) && Queueable(st.pending, all) && |st.pending| <= limit
    requires p.sequence >= 1 && p.Slot() in all && all[p.Slot()] == p
    ensures var st1 := Queued(st, p, limit);
            DistinctKeys(st1.pending) && Queueable(st1.pending, all) && |st1.pending| <= limit
  {
    var rest := Without(st.pending, p.Slot());
    WithoutSplits(st.pending, p.Slot());
    hide Without;
    SnocDistinct(rest, p);
    var queue := rest + [p];
    assert Queueable(queue, all);
    TailKeeps(queue, all);
    hide DistinctKeys, Queueable;
  }

  lemma SnocDistinct(rest: seq<Payload>, p: Payload)
    requires DistinctKeys(rest) && forall q | q in rest :: q.Slot() != p.Slot()
    ensures DistinctKeys(rest + [p])
  {}

  lemma TailKeeps(queue: seq<Payload>, all: Log)
    requires queue != [] && DistinctKeys(queue) && Queueable(queue, all)
    ensures DistinctKeys(queue[1..]) && Queueable(queue[1..], all)
  {
    assert forall q | q in queue[1..] :: q in queue;
  }

  lemma QueueAccounts(st: Store, p: Payload, log: Log, all: Log, published: set<Key>, lim: Limits)
    requires lim.Valid() && Accounts(st, log, all, published, lim)
    requires p.sequence >= 1 && p.Slot() in all && all[p.Slot()] == p
    ensures Accounts(Queued(st, p, lim.pending), log, all, published + {p.Slot()}, lim)
  {
    hide Shows, Within, Coherent, KeysOf, Queueable, DistinctKeys;
    QueueKeepsKeys(st, p, lim.pending);
    QueueKeepsShape(st, p, all, lim.pending);
  }

  lemma PopAccounts(st: Store, t: Tables, log: Log, all: Log, published: set<Key>, lim: Limits)
    requires st.pending != [] && st.pending[0].Slot() in log
    requires Accounts(st.(tables := t), log, all, published, lim)
    ensures Accounts(Store(t, st.pending[1..], st.dropped), log, all, published, lim)
  {
    hide Shows, Within, Coherent;
    var p, rest := st.pending[0], st.pending[1..];
    assert st.pending == [p] + rest;
    assert forall q | q in st.pending :: q == p || q in rest;
    assert forall q | q in rest :: q in st.pending;
    assert KeysOf(st.pending) == KeysOf(rest) + {p.Slot()};
  }

  /** A write of a payload that is already published moves the log, not the accounts. */
  lemma WriteAccounts(st: Store, w: Write, faults: seq<Fault>, log: Log, all: Log, published: set<Key>, lim: Limits)
    returns (log1: Log)
    requires lim.Valid() && Accounts(st, log, all, published, lim)
    requires w.payload.Slot() in all && all[w.payload.Slot()] == w.payload
    requires if w.StartWrite? then w.payload.sequence == 0 else w.payload.Slot() in published
    ensures var (t, v) := RetryResult(st.tables, w, faults, lim.attempts, 0);
            && Accounts(st.(tables := t), log1, all, published, lim)
            && (w.SignalWrite? ==> v != Rejected && (v == Stored ==> w.payload.Slot() in log1))
  {
    hide Shows, Within, Coherent, KeysOf, Queueable, DistinctKeys, RetryResult;
    log1 := RetryShows(st.tables, w, faults, lim.attempts, 0, log, all);
  }

  lemma {:induction false} FlushAccounts(st: Store, script: seq<seq<Fault>>, log: Log, all: Log,
                                         published: set<Key>, lim: Limits) returns (log1: Log)
    requires lim.Valid() && Accounts(st, log, all, published, lim)
    ensures Accounts(Flushed(st, script, lim), log1, all, published, lim)
    decreases |st.pending|
  {
    hide Accounts, RetryResult;
    log1 := log;
    if st.pending != [] {
      var p := st.pending[0];
      var (t, v) := RetryResult(st.tables, SignalWrite(p), FaultsFor(script), lim.attempts, 0);
      HeadIsPublished(st, log, all, published, lim);
      log1 := WriteAccounts(st, SignalWrite(p), FaultsFor(script), log, all, published, lim);
      if v == Stored {
        PopAccounts(st, t, log1, all, published, lim);
        var st1 := Store(t, st.pending[1..], st.dropped);
        log1 := FlushAccounts(st1, if script == [] then [] else script[1..], log1, all, published, lim);
      }
    }
  }

  lemma HeadIsPublished(st: Store, log: Log, all: Log, published: set<Key>, lim: Limits)
    requires Accounts(st, log, all, published, lim) && st.pending != []
    ensures var p := st.pending[0];
            p.Slot() in published && p.Slot() in all && all[p.Slot()] == p
  {
    hide Shows, Within, Coherent;
    assert st.pending[0].Slot() in KeysOf(st.pending);
  }

  /** A publication that could not be stored is queued, and only then counts as accounted for. */
  lemma PublishAccounts(st: Store, p: Payload, faults: seq<Fault>, log: Log, all: Log, published: set<Key>, lim: Limits)
    returns (log1: Log)
    requires lim.Valid() && Accounts(st, log, all, published, lim)
    requires p.sequence >= 1 && p.Slot() in all && all[p.Slot()] == p
    ensures Accounts(Recorded(st, p, faults, lim).0, log1, all, published + {p.Slot()}, lim)
  {
    hide Shows, Within, Coherent, KeysOf, Queueable, DistinctKeys, RetryResult, Queued;
    log1 := RetryShows(st.tables, SignalWrite(p), faults, lim.attempts, 0, log, all);
    var (t, v) := RetryResult(st.tables, SignalWrite(p), faults, lim.attempts, 0);
    if v == Unreachable {
      var known := if p.Slot() in log1 then published + {p.Slot()} else published;
      QueueAccounts(st.(tables := t), p, log1, all, known, lim);
      assert known + {p.Slot()} == published + {p.Slot()};
    }
  }

  /** Conservation, at every moment of every run: a published snapshot is stored, waiting or reported dropped. */
  lemma {:induction false} RunAccounts(ops: seq<Op>, all: Log, lim: Limits) returns (log: Log)
    requires lim.Valid() && Coherent(all) && forall op | op in ops :: Lawful(op, all)
    ensures Accounts(Run(ops, lim), log, all, Published(ops), lim)
  {
    hide Flushed, Recorded, Recovered, RetryResult;
    if ops == [] {
      log := map[];
    } else {
      hide Accounts;
      var before, op := ops[..|ops| - 1], ops[|ops| - 1];
      assert ops == before + [op];
      assert Lawful(op, all);
      log := RunAccounts(before, all, lim);
      var st := Run(before, lim);
      assert Published(ops) == Published(before) + (if op.Publish? then {op.payload.Slot()} else {});
      match op {
        case Start(p, faults) =>
          log := WriteAccounts(st, StartWrite(p), faults, log, all, Published(before), lim);
        case Publish(p, faults) =>
          log := PublishAccounts(st, p, faults, log, all, Published(before), lim);
        case Flush(script) =>
          log := FlushAccounts(st, script, log, all, Published(before), lim);
        case Recover(_) =>
      }
    }
  }

  /** The record shows this snapshot with everything that was published beside it. */
  ghost predicate RecordShows(r: Record, p: Payload) {
    && r.sequence == p.sequence && r.snapshot == p.snapshot && r.times == p.times
    && r.owner == p.owner && r.origin == p.origin
  }

  /** The call's published sequences are 1, 2, ..., n. */
  ghost predicate GapFree(published: set<Key>, id: CallId, n: nat) {
    n >= 1 && forall s: nat :: Key(id, s) in published <==> 1 <= s <= n
  }

  /**
    Once nothing waits and nothing was dropped, the signal rows are the published
    snapshots, each record shows its call's highest-sequence snapshot, and a
    gateway call whose sequences have no gap is marked complete.
   */
  lemma HistoryConverges(ops: seq<Op>, all: Log, lim: Limits)
    requires lim.Valid() && Coherent(all) && forall op | op in ops :: Lawful(op, all)
    requires Run(ops, lim).pending == [] && Run(ops, lim).dropped == []
    ensures Published(ops) <= all.Keys && Converged(Run(ops, lim).tables, Published(ops), all)
  {
    var log := RunAccounts(ops, all, lim);
    var st := Run(ops, lim);
    hide Run;
    PublishedAreSignals(ops, all);
    assert KeysOf(st.pending) == {} && KeysOf(st.dropped) == {};
    AccountedConverges(st.tables, log, all, Published(ops));
  }

  /** Signals are the published snapshots, records their latest, gap-free histories complete. */
  ghost predicate Converged(t: Tables, published: set<Key>, all: Log)
    requires published <= all.Keys
  {
    && t.signals.Keys == published
    && (forall k | k in t.signals :: t.signals[k] == all[k].snapshot)
    && (forall k | k in published :: k.call in t.records && ShowsLatest(t.records[k.call], k, published, all))
    && (forall id, n | id in t.records && t.records[id].origin.source == Gateway && GapFree(published, id, n) ::
          t.records[id].sequence == n && t.records[id].historyComplete)
  }

  ghost predicate ShowsLatest(r: Record, k: Key, published: set<Key>, all: Log)
    requires published <= all.Keys
  {
    var top := Key(k.call, r.sequence);
    k.sequence <= r.sequence && top in published && RecordShows(r, all[top])
  }

  lemma AccountedConverges(t: Tables, log: Log, all: Log, published: set<Key>)
    requires Coherent(all) && Within(log, all) && Shows(t, log)
    requires forall k | k in published :: k in log && k.sequence >= 1
    requires forall k | k in log && k.sequence >= 1 :: k in published
    ensures published <= all.Keys && Converged(t, published, all)
  {
    assert t.signals.Keys == published;
    forall k | k in published
      ensures k.call in t.records && ShowsLatest(t.records[k.call], k, published, all)
    {
      var top := Key(k.call, t.records[k.call].sequence);
      assert top in log && all[top].Slot() == top;
    }
    forall id, n | id in t.records && t.records[id].origin.source == Gateway && GapFree(published, id, n)
      ensures t.records[id].sequence == n && t.records[id].historyComplete
    {
      assert Key(id, n) in published && Key(id, t.records[id].sequence) in log;
      assert Complete(log, id, n);
    }
  }

  lemma PublishedAreSignals(ops: seq<Op>, all: Log)
    requires forall op | op in ops :: Lawful(op, all)
    ensures forall k | k in Published(ops) :: k.sequence >= 1 && k in all
  {
    forall k | k in Published(ops)
      ensures k.sequence >= 1 && k in all
    {
      var op :| op in ops && op.Publish? && op.payload.Slot() == k;
      assert Lawful(op, all);
    }
  }

  function WriteAll(t: Tables, ps: seq<Payload>): Tables {
    if ps == [] then t else SignalResult(WriteAll(t, ps[..|ps| - 1]), ps[|ps| - 1]).0
  }

  ghost predicate AllLogged(ps: seq<Payload>, all: Log) {
    forall p | p in ps :: p.Slot() in all && all[p.Slot()] == p
  }

  /** The part of a log that some payloads make up. */
  ghost function LogOf(ps: seq<Payload>, all: Log): Log {
    map k | k in KeysOf(ps) && k in all :: all[k]
  }

  lemma {:induction false} WriteAllShows(ps: seq<Payload>, all: Log)
    requires Coherent(all) && AllLogged(ps, all)
    ensures Shows(WriteAll(NO_TABLES, ps), LogOf(ps, all))
  {
    if ps != [] {
      var before, p := ps[..|ps| - 1], ps[|ps| - 1];
      assert ps == before + [p];
      LogGrows(before, p, all);
      hide Shows, SignalResult, LogOf;
      WriteAllShows(before, all);
      SignalWriteShows(WriteAll(NO_TABLES, before), LogOf(before, all), p);
    }
  }

  lemma LogGrows(before: seq<Payload>, p: Payload, all: Log)
    requires Coherent(all) && AllLogged(before + [p], all)
    ensures AllLogged(before, all) && LogOf(before, all)[p.Slot() := p] == LogOf(before + [p], all)
    ensures Coherent(LogOf(before + [p], all)) && (p.Slot() in LogOf(before, all) ==> LogOf(before, all)[p.Slot()] == p)
  {
    assert forall q :: q in before + [p] <==> q in before || q == p;
    assert KeysOf(before + [p]) == KeysOf(before) + {p.Slot()};
  }

  /** The tables depend on which payloads were written, not on the order or on repetitions. */
  lemma OrderAndRepetitionDoNotMatter(ps: seq<Payload>, qs: seq<Payload>, all: Log)
    requires Coherent(all) && AllLogged(ps, all)
    requires forall p :: p in ps <==> p in qs
    ensures WriteAll(NO_TABLES, ps) == WriteAll(NO_TABLES, qs)
  {
    WriteAllShows(ps, all);
    WriteAllShows(qs, all);
    assert KeysOf(ps) == KeysOf(qs);
    ShowsDetermines(WriteAll(NO_TABLES, ps), WriteAll(NO_TABLES, qs), LogOf(ps, all));
  }

  // ----------------------------------------- reachable tables, without any assumption on payloads

  ghost predicate AllStored(t: Tables, id: CallId, n: nat) {
    forall s: nat | 1 <= s <= n :: Key(id, s) in t.signals
  }

  ghost predicate SoundAt(t: Tables, id: CallId)
    requires id in t.records
  {
    var r := t.records[id];
    r.origin.source == Gateway && r.historyComplete ==> AllStored(t, id, r.sequence)
  }

  ghost predicate ExactAt(t: Tables, id: CallId)
    requires id in t.records
  {
    var r := t.records[id];
    r.origin.source == Gateway && AllStored(t, id, r.sequence) ==> r.historyComplete
  }

  /** No signal lies above its record, and a complete gateway history really is complete. */
  ghost predicate Sound(t: Tables) {
    && (forall k | k in t.signals :: k.sequence >= 1 && k.call in t.records && k.sequence <= t.records[k.call].sequence)
    && (forall id | id in t.records :: SoundAt(t, id))
  }

  /** A gateway history that is complete says so. */
  ghost predicate Exact(t: Tables) {
    forall id | id in t.records :: ExactAt(t, id)
  }

  ghost predicate OthersKept(t: Tables, u: Tables, id: CallId) {
    && (forall x | x != id :: x in t.records <==> x in u.records)
    && (forall x | x != id && x in t.records && x in u.records :: t.records[x] == u.records[x])
    && (forall k: Key | k.call != id :: k in t.signals <==> k in u.signals)
  }

  lemma RestStays(t: Tables, u: Tables, id: CallId)
    requires OthersKept(t, u, id) && id in u.records
    requires Sound(t) && SoundAt(u, id)
    requires forall k: Key | k in u.signals && k.call == id :: 1 <= k.sequence <= u.records[id].sequence
    ensures Sound(u)
    ensures Exact(t) && ExactAt(u, id) ==> Exact(u)
  {
    forall x | x in u.records && x != id
      ensures SoundAt(u, x) && (Exact(t) ==> ExactAt(u, x))
    {
      assert SoundAt(t, x) && (Exact(t) ==> ExactAt(t, x));
      assert forall s: nat :: Key(x, s) in t.signals <==> Key(x, s) in u.signals;
    }
    forall k | k in u.signals
      ensures k.sequence >= 1 && k.call in u.records && k.sequence <= u.records[k.call].sequence
    {
      if k.call != id {
        assert k in t.signals;
      }
    }
  }

  lemma SignalTouchesOneCall(t: Tables, p: Payload)
    requires Sound(t)
    ensures OthersKept(t, SignalResult(t, p).0, p.callId)
  {
    hide StoredSignals, SoundAt;
  }

  lemma SignalStaysBelow(t: Tables, p: Payload)
    requires Sound(t) && SignalResult(t, p).1 == Stored
    ensures p.callId in SignalResult(t, p).0.records
    ensures var u := SignalResult(t, p).0;
            forall k: Key | k in u.signals && k.call == p.callId :: 1 <= k.sequence <= u.records[p.callId].sequence
  {
    hide StoredSignals, SoundAt;
  }

  lemma SignalMarksExactly(t: Tables, p: Payload)
    requires Sound(t)
    ensures var (u, v) := SignalResult(t, p);
            v == Stored ==>
              SoundAt(u, p.callId) && (Exact(t) || u.records[p.callId].sequence >= 1 ==> ExactAt(u, p.callId))
  {
    var (u, v) := SignalResult(t, p);
    if v == Stored {
      CountIsCompleteness(u.signals, p.callId, u.records[p.callId].sequence);
    }
  }

  lemma SignalKeepsSound(t: Tables, p: Payload)
    requires Sound(t)
    ensures Sound(SignalResult(t, p).0)
    ensures Exact(t) ==> Exact(SignalResult(t, p).0)
  {
    var (u, v) := SignalResult(t, p);
    if v == Stored {
      SignalTouchesOneCall(t, p);
      SignalStaysBelow(t, p);
      SignalMarksExactly(t, p);
      hide SignalResult, SoundAt, ExactAt;
      RestStays(t, u, p.callId);
    }
  }

  lemma StartKeepsSound(t: Tables, p: Payload)
    requires Sound(t) && p.sequence == 0
    ensures Sound(StartResult(t, p).0)
    ensures Exact(t) ==> Exact(StartResult(t, p).0)
  {
    var u := StartResult(t, p).0;
    if p.callId !in t.records {
      RestStays(t, u, p.callId);
    }
  }

  lemma {:induction false} RetryKeepsSound(t: Tables, w: Write, faults: seq<Fault>, attempts: nat, i: nat)
    requires i < attempts && Sound(t) && (w.StartWrite? ==> w.payload.sequence == 0)
    ensures Sound(RetryResult(t, w, faults, attempts, i).0)
    ensures Exact(t) ==> Exact(RetryResult(t, w, faults, attempts, i).0)
    decreases attempts - i
  {
    if w.SignalWrite? {
      SignalKeepsSound(t, w.payload);
    } else {
      StartKeepsSound(t, w.payload);
    }
    var (t1, v) := AttemptResult(t, w, FaultAt(faults, i));
    if !(v == Stored || i + 1 >= attempts) {
      RetryKeepsSound(t1, w, faults, attempts, i + 1);
    }
  }

  lemma {:induction false} FlushKeepsSound(st: Store, script: seq<seq<Fault>>, lim: Limits)
    requires lim.Valid() && Sound(st.tables)
    ensures Sound(Flushed(st, script, lim).tables)
    ensures Exact(st.tables) ==> Exact(Flushed(st, script, lim).tables)
    decreases |st.pending|
  {
    if st.pending != [] {
      var (t, v) := RetryResult(st.tables, SignalWrite(st.pending[0]), FaultsFor(script), lim.attempts, 0);
      RetryKeepsSound(st.tables, SignalWrite(st.pending[0]), FaultsFor(script), lim.attempts, 0);
      if v == Stored {
        FlushKeepsSound(Store(t, st.pending[1..], st.dropped), if script == [] then [] else script[1..], lim);
      }
    }
  }

  lemma RecoveryIsSound(t: Tables, now: int)
    requires Sound(t)
    ensures Sound(Recovered(t, now))
    ensures RecoveryKeys(t, OpenIds(t)) !! t.signals.Keys
  {
    var u := Recovered(t, now);
    forall id | id in u.records
      ensures SoundAt(u, id)
    {
      assert SoundAt(t, id);
    }
  }

  /** Recovery closes every open gateway record and touches no other; running it again changes nothing. */
  lemma RecoveryClosesOnlyOpenCalls(t: Tables, now: int, later: int)
    requires Sound(t)
    ensures var u := Recovered(t, now);
            && OpenIds(u) == {}
            && Recovered(u, later) == u
            && u.records.Keys == t.records.Keys
            && (forall id | id in t.records && id !in OpenIds(t) :: u.records[id] == t.records[id])
            && (forall id | id in OpenIds(t) :: u.records[id] == ClosedRecord(t.records[id], now))
  {
    hide Sound;
    var u := Recovered(t, now);
    assert OpenIds(u) == {};
    RecoverNone(u, later);
  }

  /** It adds one signal per open call, always under a fresh key, showing the closed record. */
  lemma RecoveryAddsFreshSignals(t: Tables, now: int)
    requires Sound(t)
    ensures var u := Recovered(t, now);
            && RecoveryKeys(t, OpenIds(t)) !! t.signals.Keys
            && u.signals.Keys == t.signals.Keys + RecoveryKeys(t, OpenIds(t))
            && (forall k | k in t.signals :: u.signals[k] == t.signals[k])
            && (forall id | id in OpenIds(t) :: u.signals[Key(id, u.records[id].sequence)] == u.records[id].snapshot)
  {
    RecoveryIsSound(t, now);
    hide Sound;
  }

  lemma RecoveryKeepsExactnessAt(t: Tables, now: int, id: CallId)
    requires Sound(t) && Exact(t) && id in t.records
    ensures ExactAt(Recovered(t, now), id) <==> (id in OpenIds(t) ==> !t.records[id].historyComplete)
  {
    var u := Recovered(t, now);
    RecoveryIsSound(t, now);
    assert SoundAt(t, id) && ExactAt(t, id);
    assert u.signals.Keys == t.signals.Keys + RecoveryKeys(t, OpenIds(t));
    var n := t.records[id].sequence;
    assert forall s: nat | 1 <= s <= n :: Key(id, s) in u.signals <==> Key(id, s) in t.signals;
    assert id in OpenIds(t) ==> Key(id, n + 1) in u.signals;
  }

  /** Recovery keeps the converse (complete implies marked) exactly when no open call was complete. */
  lemma RecoveryKeepsExactnessIff(t: Tables, now: int)
    requires Sound(t) && Exact(t)
    ensures Exact(Recovered(t, now)) <==> forall id | id in OpenIds(t) :: !t.records[id].historyComplete
  {
    forall id | id in t.records
      ensures ExactAt(Recovered(t, now), id) <==> (id in OpenIds(t) ==> !t.records[id].historyComplete)
    {
      RecoveryKeepsExactnessAt(t, now, id);
    }
    hide ExactAt, OpenIds, RecoverySignals;
  }

  lemma StepKeepsSound(st: Store, op: Op, lim: Limits)
    requires lim.Valid() && Sound(st.tables)
    requires op.Start? ==> op.payload.sequence == 0
    ensures Sound(Step(st, op, lim).tables)
    ensures !op.Recover? && Exact(st.tables) ==> Exact(Step(st, op, lim).tables)
  {
    hide Sound, Exact, RetryResult, Recovered, Flushed;
    match op {
      case Start(p, faults) => RetryKeepsSound(st.tables, StartWrite(p), faults, lim.attempts, 0);
      case Publish(p, faults) => RetryKeepsSound(st.tables, SignalWrite(p), faults, lim.attempts, 0);
      case Flush(script) => FlushKeepsSound(st, script, lim);
      case Recover(now) => RecoveryIsSound(st.tables, now);
    }
  }

  /** Every reachable store, whatever was written, retried, flushed or recovered. */
  lemma {:induction false} ReachableTablesAreSound(ops: seq<Op>, lim: Limits)
    requires lim.Valid()
    requires forall op | op in ops && op.Start? :: op.payload.sequence == 0
    ensures Sound(Run(ops, lim).tables)
    ensures (forall op | op in ops :: !op.Recover?) ==> Exact(Run(ops, lim).tables)
  {
    hide Step;
    if ops != [] {
      var before, op := ops[..|ops| - 1], ops[|ops| - 1];
      assert ops == before + [op];
      ReachableTablesAreSound(before, lim);
      StepKeepsSound(Run(before, lim), op, lim);
    }
  }

  /** It does fail: restarting just after a call has started unmarks a history that has no gap. */
  lemma RestartUnmarksAnOpenCall(p: Payload, now: int, lim: Limits)
    requires lim.Valid() && p.sequence == 0 && p.origin.source == Gateway && !p.snapshot.terminal
    ensures Exact(Run([Start(p, [])], lim).tables)
    ensures !Exact(Run([Start(p, []), Recover(now)], lim).tables)
  {
    var start := Start(p, []);
    assert [start][..0] == [] && [start, Recover(now)][..1] == [start];
    var t := Tables(map[p.callId := NewRecord(p)], map[]);
    assert Run([start], lim).tables == t by {
      assert Run([], lim) == NEW_STORE;
      assert RetryResult(NO_TABLES, StartWrite(p), [], lim.attempts, 0) == (t, Stored);
    }
    var u := Recovered(t, now);
    assert Run([start, Recover(now)], lim).tables == u;
    hide Run, RetryResult;
    assert p.callId in OpenIds(t);
    assert Key(p.callId, 1) in RecoveryKeys(t, OpenIds(t));
    assert AllStored(u, p.callId, 1);
    assert !ExactAt(u, p.callId);
  }
}
