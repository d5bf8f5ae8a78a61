/**
  The durable call history: one record per call, one signal row per published
  snapshot, and a bounded queue of writes that the database refused.

  The tables are maps.  Every database attempt may fail before it takes effect
  (`LostBefore`) or after its commit (`LostAfter`).  One operation lock makes
  start, record and flush atomic with respect to each other.
 */
module CallHistory {
  import opened Basics

  type CallId = nat

  /** Primary key of a signal row. */
  datatype Key = Key(call: CallId, sequence: nat)

  datatype Source = Gateway | Imported

  /** The four columns a later write may never change. */
  datatype Owner = Owner(organization: Option<string>, partnerApp: Option<string>,
                         calledNumber: Option<string>, routingContext: Option<string>)

  /** Columns written once, when the record is inserted. */
  datatype Origin = Origin(agentSlug: Option<string>, direction: string, source: Source, createdAt: int)

  datatype Snapshot = Snapshot(status: string, terminal: bool, answered: bool, reason: Option<string>,
                               hangupCause: Option<int>, dialStatus: Option<string>, updatedAt: int)

  datatype Times = Times(answeredAt: Option<int>, endedAt: Option<int>,
                         durationSeconds: Option<int>, talkSeconds: Option<int>)

  datatype Payload = Payload(callId: CallId, owner: Owner, origin: Origin, sequence: nat,
                             snapshot: Snapshot, times: Times)
  {
    function Slot(): Key { Key(callId, sequence) }
  }

  datatype Record = Record(owner: Owner, origin: Origin, sequence: nat,
                           snapshot: Snapshot, times: Times, historyComplete: bool)

  datatype Tables = Tables(records: map<CallId, Record>, signals: map<Key, Snapshot>)

  datatype Write = StartWrite(payload: Payload) | SignalWrite(payload: Payload)

  datatype Fault = Clean | LostBefore | LostAfter

  /** How a write ended for its caller: stored, refused with ValueError, or any other exception. */
  datatype Verdict = Stored | Rejected | Unreachable

  const NO_TABLES := Tables(map[], map[])

  // ---------------------------------------------------------------- one write

  function NewRecord(p: Payload): Record {
    Record(p.owner, p.origin, p.sequence, p.snapshot, p.times, true)
  }

  function UpdatedRecord(r: Record, p: Payload): Record {
    r.(sequence := p.sequence, snapshot := p.snapshot, times := p.times)
  }

  function StoredSignals(signals: map<Key, Snapshot>, id: CallId, n: nat): set<Key> {
    set k | k in signals && k.call == id && 1 <= k.sequence <= n
  }

  function Refreshed(t: Tables, id: CallId): Tables
    requires id in t.records
  {
    var r := t.records[id];
    if r.origin.source != Gateway || r.sequence < 1 then t
    else t.(records := t.records[id := r.(historyComplete := |StoredSignals(t.signals, id, r.sequence)| == r.sequence)])
  }

  function WithSignal(t: Tables, p: Payload): Tables {
    if p.sequence >= 1 && p.Slot() !in t.signals then t.(signals := t.signals[p.Slot() := p.snapshot]) else t
  }

  function StartResult(t: Tables, p: Payload): (Tables, Verdict) {
    if p.callId in t.records then
      var r := t.records[p.callId];
      (t, if r.owner != p.owner || r.origin.source != Gateway then Rejected else Stored)
    else
      (t.(records := t.records[p.callId := NewRecord(p)]), Stored)
  }

  function SignalResult(t: Tables, p: Payload): (Tables, Verdict) {
    if p.callId !in t.records then
      if p.sequence >= 1 && p.Slot() in t.signals then (t, Unreachable)  // primary key violation
      else
        var t1 := WithSignal(t.(records := t.records[p.callId := NewRecord(p)]), p);
        (if p.sequence >= 1 then Refreshed(t1, p.callId) else t1, Stored)
    else
      var r := t.records[p.callId];
      if r.owner != p.owner then (t, Rejected)
      else if p.sequence < r.sequence then
        // The late signal is kept, the record is not moved backwards.
        (Refreshed(WithSignal(t, p), p.callId), Stored)
      else
        (Refreshed(WithSignal(t.(records := t.records[p.callId := UpdatedRecord(r, p)]), p), p.callId), Stored)
  }

  function WriteResult(t: Tables, w: Write): (Tables, Verdict) {
    match w
    case StartWrite(p) => StartResult(t, p)
    case SignalWrite(p) => SignalResult(t, p)
  }

  function AttemptResult(t: Tables, w: Write, fault: Fault): (Tables, Verdict) {
    match fault
    case LostBefore => (t, Unreachable)
    case Clean => WriteResult(t, w)
    case LostAfter =>
      var (t1, v) := WriteResult(t, w);
      (t1, if v == Stored then Unreachable else v)
  }

  function FaultAt(faults: seq<Fault>, i: nat): Fault {
    if i < |faults| then faults[i] else Clean
  }

  /** `_retry` from attempt `i` on. */
  function RetryResult(t: Tables, w: Write, faults: seq<Fault>, attempts: nat, i: nat): (Tables, Verdict)
    requires i < attempts
    decreases attempts - i
  {
    var (t1, v) := AttemptResult(t, w, FaultAt(faults, i));
    if v == Stored || i + 1 >= attempts then (t1, v) else RetryResult(t1, w, faults, attempts, i + 1)
  }

  // -------------------------------------------------------- the store's state

  datatype Limits = Limits(attempts: nat, pending: nat)
  {
    predicate Valid() { 1 <= attempts && 1 <= pending }
  }

  /** `pending` is the ordered map, oldest first; `dropped` is what the full queue logged as lost. */
  datatype Store = Store(tables: Tables, pending: seq<Payload>, dropped: seq<Payload>)

  const NEW_STORE := Store(NO_TABLES, [], [])

  function Without(pending: seq<Payload>, key: Key): seq<Payload> {
    if pending == [] then []
    else if pending[0].Slot() == key then pending[1..]
    else [pending[0]] + Without(pending[1..], key)
  }

  function Queued(st: Store, p: Payload, limit: nat): Store
    requires 1 <= limit
  {
    var pending := Without(st.pending, p.Slot()) + [p];
    if |pending| > limit then Store(st.tables, pending[1..], st.dropped + [pending[0]])
    else st.(pending := pending)
  }

  function Started(st: Store, p: Payload, faults: seq<Fault>, lim: Limits): (Store, Verdict)
    requires lim.Valid()
  {
    var (t, v) := RetryResult(st.tables, StartWrite(p), faults, lim.attempts, 0);
    (st.(tables := t), v)
  }

  function Recorded(st: Store, p: Payload, faults: seq<Fault>, lim: Limits): (Store, Verdict)
    requires lim.Valid()
  {
    var (t, v) := RetryResult(st.tables, SignalWrite(p), faults, lim.attempts, 0);
    var st1 := st.(tables := t);
    (if v == Unreachable then Queued(st1, p, lim.pending) else st1, v)
  }

  function FaultsFor(script: seq<seq<Fault>>): seq<Fault> {
    if script == [] then [] else script[0]
  }

  function Flushed(st: Store, script: seq<seq<Fault>>, lim: Limits): Store
    requires lim.Valid()
    decreases |st.pending|
  {
    if st.pending == [] then st
    else
      var (t, v) := RetryResult(st.tables, SignalWrite(st.pending[0]), FaultsFor(script), lim.attempts, 0);
      if v != Stored then st.(tables := t)
      else Flushed(Store(t, st.pending[1..], st.dropped), if script == [] then [] else script[1..], lim)
  }

  // ----------------------------------------------------------------- recovery

  predicate Open(r: Record) { r.origin.source == Gateway && !r.snapshot.terminal }

  function InterruptedSnapshot(r: Record, now: int): Snapshot {
    r.snapshot.(status := "failed", terminal := true, reason := Some("gateway_restarted"), updatedAt := now)
  }

  function ClosedRecord(r: Record, now: int): Record {
    r.(snapshot := InterruptedSnapshot(r, now), sequence := r.sequence + 1, historyComplete := false)
  }

  function OpenIds(t: Tables): (ids: set<CallId>)
    ensures ids <= t.records.Keys
  {
    set id | id in t.records && Open(t.records[id])
  }

  function RecoveredRecords(t: Tables, ids: set<CallId>, now: int): map<CallId, Record>
    requires ids <= t.records.Keys
  {
    map id | id in t.records :: if id in ids then ClosedRecord(t.records[id], now) else t.records[id]
  }

  function RecoveryKeys(t: Tables, ids: set<CallId>): (keys: set<Key>)
    requires ids <= t.records.Keys
    ensures forall k :: k in keys <==> k.call in ids && k.sequence == t.records[k.call].sequence + 1
  {
    set id | id in ids :: Key(id, t.records[id].sequence + 1)
  }

  function RecoverySignals(t: Tables, ids: set<CallId>, now: int): map<Key, Snapshot>
    requires ids <= t.records.Keys
  {
    map k | k in RecoveryKeys(t, ids) :: InterruptedSnapshot(t.records[k.call], now)
  }

  function RecoveredSome(t: Tables, ids: set<CallId>, now: int): Tables
    requires ids <= t.records.Keys
  {
    Tables(RecoveredRecords(t, ids, now), t.signals + RecoverySignals(t, ids, now))
  }

  function Recovered(t: Tables, now: int): Tables { RecoveredSome(t, OpenIds(t), now) }

  function RecoveredOne(t: Tables, id: CallId, now: int): Tables
    requires id in t.records
  {
    var r := ClosedRecord(t.records[id], now);
    Tables(t.records[id := r], t.signals[Key(id, r.sequence) := r.snapshot])
  }

  /** What a restart makes of the record of an open call, field by field. */
  predicate EndedByRestart(before: Record, after: Record, now: int) {
    && after.snapshot.status == "failed" && after.snapshot.terminal
    && after.snapshot.reason == Some("gateway_restarted") && after.snapshot.updatedAt == now
    && after.snapshot.answered == before.snapshot.answered
    && after.snapshot.hangupCause == before.snapshot.hangupCause
    && after.snapshot.dialStatus == before.snapshot.dialStatus
    && after.sequence == before.sequence + 1 && !after.historyComplete
    && after.times == before.times && after.owner == before.owner && after.origin == before.origin
  }

  /** What a restart makes of the tables: open gateway calls end, with a signal each, and nothing else moves. */
  ghost predicate Restarted(before: Tables, after: Tables, now: int) {
    && after.records.Keys == before.records.Keys
    && (forall id | id in before.records ::
          var r := before.records[id];
          if r.origin.source == Gateway && !r.snapshot.terminal then
            && EndedByRestart(r, after.records[id], now)
            && Key(id, r.sequence + 1) in after.signals
            && after.signals[Key(id, r.sequence + 1)] == after.records[id].snapshot
          else after.records[id] == r)
    && (forall k | k in after.signals ::
          || (k in before.signals && after.signals[k] == before.signals[k])
          || (&& k.call in before.records && before.records[k.call].origin.source == Gateway
              && !before.records[k.call].snapshot.terminal && k.sequence == before.records[k.call].sequence + 1))
    && (forall k | k in before.signals :: k in after.signals)
  }

  lemma RecoveryRestarts(t: Tables, now: int)
    ensures Restarted(t, Recovered(t, now), now)
  {
    var u, ids := Recovered(t, now), OpenIds(t);
    forall id | id in ids
      ensures Key(id, t.records[id].sequence + 1) in u.signals
      ensures u.signals[Key(id, t.records[id].sequence + 1)] == u.records[id].snapshot
    {
      assert Key(id, t.records[id].sequence + 1) in RecoveryKeys(t, ids);
    }
  }

  lemma RecoverNone(t: Tables, now: int)
    ensures RecoveredSome(t, {}, now) == t
  {
    assert RecoverySignals(t, {}, now) == map[];
  }

  lemma RecoverOneMoreRecord(t: Tables, done: set<CallId>, id: CallId, now: int)
    requires done <= t.records.Keys && id in t.records && id !in done
    ensures RecoveredRecords(t, done + {id}, now)
         == RecoveredRecords(t, done, now)[id := ClosedRecord(t.records[id], now)]
  {}

  lemma RecoverOneMoreSignal(t: Tables, done: set<CallId>, id: CallId, now: int)
    requires done <= t.records.Keys && id in t.records && id !in done
    ensures RecoverySignals(t, done + {id}, now)
         == RecoverySignals(t, done, now)[Key(id, t.records[id].sequence + 1)
                                          := InterruptedSnapshot(t.records[id], now)]
  {
    assert RecoveryKeys(t, done + {id}) == RecoveryKeys(t, done) + {Key(id, t.records[id].sequence + 1)};
  }

  lemma RecoverOneMore(t: Tables, done: set<CallId>, id: CallId, now: int)
    requires done <= t.records.Keys && id in t.records && id !in done
    ensures id in RecoveredSome(t, done, now).records
    ensures RecoveredSome(t, done + {id}, now) == RecoveredOne(RecoveredSome(t, done, now), id, now)
  {
    RecoverOneMoreRecord(t, done, id, now);
    RecoverOneMoreSignal(t, done, id, now);
    var key := Key(id, t.records[id].sequence + 1);
    var before, snapshot := RecoverySignals(t, done, now), InterruptedSnapshot(t.records[id], now);
    assert t.signals + before[key := snapshot] == (t.signals + before)[key := snapshot];
  }

  // ------------------------------------------------------------ in-place store

  class CallHistoryStore {
    const limits: Limits
    var records: map<CallId, Record>
    var signals: map<Key, Snapshot>
    var pending: seq<Payload>
    var dropped: seq<Payload>

    constructor (retryAttempts: int, pendingLimit: int)
      ensures limits == Limits(Max(1, retryAttempts), Max(1, pendingLimit)) && limits.Valid()
      ensures View() == NEW_STORE
    {
      limits := Limits(Max(1, retryAttempts), Max(1, pendingLimit));
      records, signals, pending, dropped := map[], map[], [], [];
    }

    function Db(): Tables reads this { Tables(records, signals) }

    function View(): Store reads this { Store(Db(), pending, dropped) }

    method RefreshHistoryComplete(id: CallId)
      requires id in records
      modifies this`records
      ensures Db() == Refreshed(old(Db()), id)
    {
      var r := records[id];
      if r.origin.source != Gateway || r.sequence < 1 {
        return;
      }
      var count := |StoredSignals(signals, id, r.sequence)|;
      records := records[id := r.(historyComplete := count == r.sequence)];
    }

    method StartSync(p: Payload) returns (v: Verdict)
      modifies this`records
      ensures (Db(), v) == StartResult(old(Db()), p)
    {
      if p.callId in records {
        var existing := records[p.callId];
        v := if existing.owner != p.owner || existing.origin.source != Gateway then Rejected else Stored;
        return;
      }
      records := records[p.callId := NewRecord(p)];
      v := Stored;
    }

    method RecordSync(p: Payload) returns (v: Verdict)
      modifies this`records, this`signals
      ensures (Db(), v) == SignalResult(old(Db()), p)
    {
      v := Stored;
      if p.callId !in records {
        if p.sequence >= 1 && p.Slot() in signals {
          return Unreachable;
        }
        records := records[p.callId := NewRecord(p)];
        if p.sequence >= 1 {
          signals := signals[p.Slot() := p.snapshot];
          RefreshHistoryComplete(p.callId);
        }
        return;
      }
      var record := records[p.callId];
      if record.owner != p.owner {
        return Rejected;
      }
      if p.sequence >= record.sequence {
        records := records[p.callId := UpdatedRecord(record, p)];
      }
      if p.sequence >= 1 && p.Slot() !in signals {
        signals := signals[p.Slot() := p.snapshot];
      }
      RefreshHistoryComplete(p.callId);
    }

    method Attempt(w: Write, fault: Fault) returns (v: Verdict)
      modifies this`records, this`signals
      ensures (Db(), v) == AttemptResult(old(Db()), w, fault)
    {
      if fault == LostBefore {
        return Unreachable;
      }
      match w {
        case StartWrite(p) => v := StartSync(p);
        case SignalWrite(p) => v := RecordSync(p);
      }
      if fault == LostAfter && v == Stored {
        v := Unreachable;
      }
    }

    method Retry(w: Write, faults: seq<Fault>) returns (v: Verdict)
      requires limits.Valid()
      modifies this`records, this`signals
      ensures (Db(), v) == RetryResult(old(Db()), w, faults, limits.attempts, 0)
    {
      var i := 0;
      while true
        invariant 0 <= i < limits.attempts
        invariant RetryResult(Db(), w, faults, limits.attempts, i)
               == RetryResult(old(Db()), w, faults, limits.attempts, 0)
        decreases limits.attempts - i
      {
        v := Attempt(w, FaultAt(faults, i));
        if v == Stored || i + 1 >= limits.attempts {
          return;
        }
        i := i + 1;
      }
    }

    method Start(p: Payload, faults: seq<Fault>) returns (ok: bool)
      requires limits.Valid()
      modifies this
      ensures View() == Started(old(View()), p, faults, limits).0
      ensures ok <==> Started(old(View()), p, faults, limits).1 == Stored
    {
      var v := Retry(StartWrite(p), faults);
      ok := v == Stored;
    }

    method Record(p: Payload, faults: seq<Fault>) returns (durable: bool)
      requires limits.Valid()
      modifies this
      ensures View() == Recorded(old(View()), p, faults, limits).0
      ensures durable <==> Recorded(old(View()), p, faults, limits).1 == Stored
    {
      var v := Retry(SignalWrite(p), faults);
      if v == Unreachable {
        QueuePending(p);
      }
      durable := v == Stored;
    }

    method QueuePending(p: Payload)
      requires limits.Valid()
      modifies this`pending, this`dropped
      ensures View() == Queued(old(View()), p, limits.pending)
    {
      pending := Without(pending, p.Slot()) + [p];
      if |pending| > limits.pending {
        dropped := dropped + [pending[0]];
        pending := pending[1..];
      }
    }

    method FlushPending(script: seq<seq<Fault>>) returns (flushed: nat)
      requires limits.Valid()
      modifies this
      ensures View() == Flushed(old(View()), script, limits)
      ensures flushed <= |old(pending)| && pending == old(pending)[flushed..]
    {
      flushed := 0;
      var todo := script;
      while pending != []
        invariant flushed <= |old(pending)| && pending == old(pending)[flushed..]
        invariant Flushed(View(), todo, limits) == Flushed(old(View()), script, limits)
        decreases |pending|
      {
        var v := Retry(SignalWrite(pending[0]), FaultsFor(todo));
        if v != Stored {
          return;
        }
        pending := pending[1..];
        todo := if todo == [] then [] else todo[1..];
        flushed := flushed + 1;
      }
    }

    method RecoverSync(now: int) returns (recovered: nat)
      modifies this`records, this`signals
      ensures Db() == Recovered(old(Db()), now)
      ensures recovered == |OpenIds(old(Db()))|
      ensures Restarted(old(Db()), Db(), now)
    {
      hide OpenIds, RecoveredSome, RecoveredOne;
      ghost var t := Db();
      var todo := OpenIds(Db());
      ghost var done: set<CallId> := {};
      recovered := 0;
      RecoverNone(t, now);
      while todo != {}
        invariant todo !! done && todo + done == OpenIds(t)
        invariant recovered == |done|
        invariant Db() == RecoveredSome(t, done, now)
        decreases |todo|
      {
        var id :| id in todo;
        RecoverOneMore(t, done, id, now);
        CloseInterrupted(id, now);
        recovered := recovered + 1;
        todo, done := todo - {id}, done + {id};
      }
      assert done == OpenIds(t);
      RecoveryRestarts(t, now);
      hide Restarted;
    }

    method CloseInterrupted(id: CallId, now: int)
      requires id in records
      modifies this`records, this`signals
      ensures Db() == RecoveredOne(old(Db()), id, now)
      ensures EndedByRestart(old(records)[id], records[id], now)
      ensures signals == old(signals)[Key(id, old(records)[id].sequence + 1) := records[id].snapshot]
    {
      var r := ClosedRecord(records[id], now);
      records := records[id := r];
      signals := signals[Key(id, r.sequence) := r.snapshot];
    }
  }
}
