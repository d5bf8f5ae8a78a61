/**
  The results a connection keeps for its finished calls: an insertion-ordered
  dictionary of at most 256 entries.
 */
module CompletedCalls {
  import opened Basics
  import opened CallSignals

  type CallId = nat

  const CAPACITY: nat := 256

  datatype Entry = Entry(id: CallId, snapshot: Snapshot)

  /** The calls in the order of their entries. */
  function Keys(entries: seq<Entry>): seq<CallId> {
    seq(|entries|, i requires 0 <= i < |entries| => entries[i].id)
  }

  predicate Distinct(order: seq<CallId>) {
    forall i, j | 0 <= i < j < |order| :: order[i] != order[j]
  }

  /** What a dictionary of at most 256 entries is. */
  predicate Proper(entries: seq<Entry>) { Distinct(Keys(entries)) && |entries| <= 256 }

  function Lookup(entries: seq<Entry>, id: CallId): Option<Snapshot> {
    if entries == [] then None
    else if entries[0].id == id then Some(entries[0].snapshot)
    else Lookup(entries[1..], id)
  }

  /** Overwriting a key keeps its place. */
  function Overwritten(entries: seq<Entry>, id: CallId, s: Snapshot): seq<Entry> {
    if entries == [] then []
    else if entries[0].id == id then [Entry(id, s)] + entries[1..]
    else [entries[0]] + Overwritten(entries[1..], id, s)
  }

  function Remembered(entries: seq<Entry>, id: CallId, s: Snapshot): seq<Entry> {
    if id in Keys(entries) then Overwritten(entries, id, s)
    else (if |entries| >= CAPACITY then entries[1..] else entries) + [Entry(id, s)]
  }

  class Connection {
    var completed: seq<Entry>

    constructor ()
      ensures completed == []
    {
      completed := [];
    }

    /** `remember_completed` for a connected partner. */
    method RememberCompleted(id: CallId, s: Snapshot)
      modifies this
      ensures completed == Remembered(old(completed), id, s)
    {
      var known := id in Keys(completed);
      if !known && |completed| >= CAPACITY {
        completed := completed[1..];
      }
      completed := if known then Overwritten(completed, id, s) else completed + [Entry(id, s)];
    }
  }

  function AllRemembered(entries: seq<Entry>, later: seq<Entry>): seq<Entry> {
    if later == [] then entries
    else
      var last := later[|later| - 1];
      Remembered(AllRemembered(entries, later[..|later| - 1]), last.id, last.snapshot)
  }

  // ----------------------------------------------------- what the dictionary holds

  /** The calls whose remembrance found no entry of theirs, in order. */
  function Entered(entries: seq<Entry>, later: seq<Entry>): seq<CallId> {
    if later == [] then []
    else
      var before, last := later[..|later| - 1], later[|later| - 1];
      Entered(entries, before) + if last.id in Keys(AllRemembered(entries, before)) then [] else [last.id]
  }

  /** All entries ever made, the present ones first, then those that `later` makes. */
  function Entries(entries: seq<Entry>, later: seq<Entry>): seq<CallId> { Keys(entries) + Entered(entries, later) }

  /** The last 256. */
  function Newest(order: seq<CallId>): seq<CallId> {
    order[(if |order| <= 256 then 0 else |order| - 256)..]
  }

  /** The snapshot that was given last for a call. */
  function LastGiven(entries: seq<Entry>, later: seq<Entry>, id: CallId): Option<Snapshot> {
    if later == [] then Lookup(entries, id)
    else if later[|later| - 1].id == id then Some(later[|later| - 1].snapshot)
    else LastGiven(entries, later[..|later| - 1], id)
  }

  lemma {:induction false} OverwrittenKeepsKeys(entries: seq<Entry>, id: CallId, s: Snapshot)
    ensures Keys(Overwritten(entries, id, s)) == Keys(entries)
  {
    if entries != [] && entries[0].id != id {
      OverwrittenKeepsKeys(entries[1..], id, s);
      assert Keys(entries) == [entries[0].id] + Keys(entries[1..]);
      assert Overwritten(entries, id, s) == [entries[0]] + Overwritten(entries[1..], id, s);
    }
  }

  lemma {:induction false} OverwrittenLookup(entries: seq<Entry>, id: CallId, s: Snapshot, x: CallId)
    ensures Lookup(Overwritten(entries, id, s), x)
            == if x == id && Lookup(entries, x).Some? then Some(s) else Lookup(entries, x)
  {
    if entries != [] && entries[0].id != id {
      OverwrittenLookup(entries[1..], id, s, x);
    }
  }

  lemma {:induction false} LookupFinds(entries: seq<Entry>, id: CallId)
    ensures Lookup(entries, id).Some? <==> id in Keys(entries)
  {
    if entries != [] {
      LookupFinds(entries[1..], id);
      assert Keys(entries) == [entries[0].id] + Keys(entries[1..]);
    }
  }

  lemma {:induction false} AddedLookup(entries: seq<Entry>, e: Entry, x: CallId)
    requires e.id !in Keys(entries)
    ensures Lookup(entries + [e], x) == if x == e.id then Some(e.snapshot) else Lookup(entries, x)
  {
    if entries == [] {
      assert entries + [e] == [e];
    } else {
      assert Keys(entries) == [entries[0].id] + Keys(entries[1..]);
      AddedLookup(entries[1..], e, x);
      assert (entries + [e])[1..] == entries[1..] + [e];
    }
  }

  /** One remembrance: the order of the entries, and what each call is found with. */
  lemma RememberedOrder(entries: seq<Entry>, e: Entry)
    requires |entries| <= CAPACITY
    ensures var order := Keys(entries) + if e.id in Keys(entries) then [] else [e.id];
            Keys(Remembered(entries, e.id, e.snapshot)) == Newest(order)
  {
    OverwrittenKeepsKeys(entries, e.id, e.snapshot);
  }

  lemma EvictedLookup(entries: seq<Entry>, x: CallId)
    requires entries != [] && Distinct(Keys(entries)) && x in Keys(entries[1..])
    ensures x in Keys(entries) && Lookup(entries, x) == Lookup(entries[1..], x)
  {
    var j :| 0 <= j < |entries| - 1 && Keys(entries[1..])[j] == x;
    assert Keys(entries)[j + 1] == x && Keys(entries)[0] == entries[0].id;
  }

  lemma RememberedLookup(entries: seq<Entry>, e: Entry, x: CallId)
    requires Proper(entries) && x in Keys(Remembered(entries, e.id, e.snapshot))
    ensures Lookup(Remembered(entries, e.id, e.snapshot), x)
            == if x == e.id then Some(e.snapshot) else Lookup(entries, x)
  {
    if e.id in Keys(entries) {
      OverwrittenLookup(entries, e.id, e.snapshot, x);
      LookupFinds(entries, x);
    } else {
      var full := |entries| >= CAPACITY;
      var kept := if full then entries[1..] else entries;
      assert full ==> Keys(entries) == [entries[0].id] + Keys(kept);
      AddedLookup(kept, e, x);
      assert Keys(kept + [e]) == Keys(kept) + [e.id];
      if full && x != e.id {
        EvictedLookup(entries, x);
      }
    }
  }

  lemma StillThere(entries: seq<Entry>, e: Entry, x: CallId)
    requires |entries| <= CAPACITY && x != e.id && x in Keys(Remembered(entries, e.id, e.snapshot))
    ensures x in Keys(entries)
  {
    RememberedOrder(entries, e);
    hide Remembered;
  }

  /** Between two entries of one call there are 256 others. */
  predicate Apart(order: seq<CallId>) {
    forall i, j | 0 <= i < j < |order| && j - i <= 256 :: order[i] != order[j]
  }

  lemma NewestAndOne(order: seq<CallId>, more: seq<CallId>)
    requires |more| <= 1
    ensures Newest(Newest(order) + more) == Newest(order + more)
  {}

  lemma ApartAndOne(order: seq<CallId>, id: CallId)
    requires Apart(order) && id !in Newest(order)
    ensures Apart(order + [id])
  {
    var cut := |order| - |Newest(order)|;
    forall i | cut <= i < |order|
      ensures order[i] != id
    {
      assert order[i] == Newest(order)[i - cut];
    }
  }

  lemma NewestAreDistinct(order: seq<CallId>)
    requires Apart(order)
    ensures Distinct(Newest(order))
  {}

  lemma RememberedKeeps(entries: seq<Entry>, order: seq<CallId>, e: Entry)
    requires Keys(entries) == Newest(order) && Apart(order) && |entries| <= CAPACITY
    ensures var longer := order + if e.id in Keys(entries) then [] else [e.id];
            var now := Remembered(entries, e.id, e.snapshot);
            Apart(longer) && Keys(now) == Newest(longer) && Proper(now)
  {
    var more := if e.id in Keys(entries) then [] else [e.id];
    hide Remembered, Distinct;
    RememberedOrder(entries, e);
    NewestAndOne(order, more);
    if more == [] {
      assert order + more == order;
    } else {
      ApartAndOne(order, e.id);
    }
    NewestAreDistinct(order + more);
    hide Apart;
  }

  /**
    The dictionary holds the newest 256 entries, in order, each call with the snapshot
    given for it last; and a call enters again only after 256 others have.
   */
  lemma {:induction false} FirstInFirstOut(entries: seq<Entry>, later: seq<Entry>)
    requires Proper(entries)
    ensures var now := AllRemembered(entries, later);
            && Proper(now) && Keys(now) == Newest(Entries(entries, later)) && Apart(Entries(entries, later))
            && forall id | id in Keys(now) :: Lookup(now, id) == LastGiven(entries, later, id)
  {
    if later == [] {
      assert Entries(entries, later) == Keys(entries);
    } else {
      var before, last := later[..|later| - 1], later[|later| - 1];
      var some, now := AllRemembered(entries, before), AllRemembered(entries, later);
      var order := Entries(entries, before);
      FirstInFirstOut(entries, before);
      assert Entries(entries, later) == order + if last.id in Keys(some) then [] else [last.id];
      hide Remembered, Newest, Distinct, Apart, Lookup, Keys, Entries, Entered;
      RememberedKeeps(some, order, last);
      forall id | id in Keys(now)
        ensures Lookup(now, id) == LastGiven(entries, later, id)
      {
        RememberedLookup(some, last, id);
        if id != last.id {
          StillThere(some, last, id);
        }
      }
    }
  }

  // ------------------------------------------------------------ how long a result is kept

  /** The different calls that entered after the last entry of `id`; all of them if it has none. */
  function OthersSince(order: seq<CallId>, id: CallId): set<CallId> {
    if order == [] || order[|order| - 1] == id then {}
    else OthersSince(order[..|order| - 1], id) + {order[|order| - 1]}
  }

  /** How many entries that are. */
  function EntriesSince(order: seq<CallId>, id: CallId): (n: nat)
    ensures n <= |order|
  {
    if order == [] || order[|order| - 1] == id then 0
    else EntriesSince(order[..|order| - 1], id) + 1
  }

  lemma {:induction false} SinceIsPosition(order: seq<CallId>, id: CallId)
    ensures var n := |order| - EntriesSince(order, id);
            && (forall i | n <= i < |order| :: order[i] != id)
            && (if id in order then 0 < n && order[n - 1] == id else n == 0)
  {
    if order != [] && order[|order| - 1] != id {
      var front := order[..|order| - 1];
      SinceIsPosition(front, id);
      assert order == front + [order[|order| - 1]];
    }
  }

  lemma {:induction false} OthersAreInOrder(order: seq<CallId>, id: CallId, x: CallId)
    requires x in OthersSince(order, id)
    ensures exists i :: |order| - EntriesSince(order, id) <= i < |order| && order[i] == x
  {
    var front, last := order[..|order| - 1], order[|order| - 1];
    if x != last {
      OthersAreInOrder(front, id, x);
      var i :| |front| - EntriesSince(front, id) <= i < |front| && front[i] == x;
      assert order[i] == x;
    }
  }

  lemma SubsetSize<T>(a: set<T>, b: set<T>)
    requires a <= b
    ensures |a| <= |b|
  {
    assert b == a + (b - a);
  }

  lemma NextIsAnother(order: seq<CallId>, next: CallId, id: CallId)
    requires Apart(order + [next]) && EntriesSince(order, id) < CAPACITY
    ensures next !in OthersSince(order, id)
  {
    forall x | x in OthersSince(order, id)
      ensures x != next
    {
      OthersAreInOrder(order, id, x);
      var i :| |order| - EntriesSince(order, id) <= i < |order| && order[i] == x;
      assert (order + [next])[i] == x && (order + [next])[|order|] == next && |order| - i <= CAPACITY;
    }
  }

  /** Up to the 256th, each entry is of another call. */
  lemma {:induction false} OthersAreCounted(order: seq<CallId>, id: CallId)
    requires Apart(order)
    ensures var n, others := EntriesSince(order, id), |OthersSince(order, id)|;
            others <= n && (n <= CAPACITY ==> others == n) && (n >= CAPACITY ==> others >= CAPACITY)
  {
    if order != [] && order[|order| - 1] != id {
      var front, last := order[..|order| - 1], order[|order| - 1];
      OthersAreCounted(front, id);
      SubsetSize(OthersSince(front, id), OthersSince(order, id));
      assert order == front + [last];
      if EntriesSince(front, id) < CAPACITY {
        NextIsAnother(front, last, id);
      }
    }
  }

  lemma NewestIffFewSince(order: seq<CallId>, id: CallId)
    ensures id in Newest(order) <==> id in order && EntriesSince(order, id) < CAPACITY
  {
    SinceIsPosition(order, id);
    var n, cut := |order| - EntriesSince(order, id), |order| - |Newest(order)|;
    if id in order && n > cut {
      assert Newest(order)[n - 1 - cut] == id;
    }
    if id in Newest(order) {
      var i :| 0 <= i < |Newest(order)| && Newest(order)[i] == id;
      assert order[i + cut] == id;
    }
  }

  lemma {:induction false} GivenHasEntered(entries: seq<Entry>, later: seq<Entry>, id: CallId)
    requires Proper(entries)
    ensures id in Entries(entries, later) <==> LastGiven(entries, later, id).Some?
  {
    LookupFinds(entries, id);
    if later != [] {
      var before, last := later[..|later| - 1], later[|later| - 1];
      hide AllRemembered, Keys, Apart, Proper, Lookup;
      GivenHasEntered(entries, before, id);
      if last.id == id {
        FirstInFirstOut(entries, before);
        assert forall x | x in Newest(Entries(entries, before)) :: x in Entries(entries, before);
      }
    }
  }

  /**
    A call is found, with the snapshot given for it last, exactly while fewer than 256
    other calls have entered since its own last entry. Overwriting counts for nothing.
   */
  lemma GoneExactlyAfter256Others(entries: seq<Entry>, later: seq<Entry>, id: CallId)
    requires Proper(entries)
    ensures var order, now := Entries(entries, later), AllRemembered(entries, later);
            Lookup(now, id) == if |OthersSince(order, id)| < 256 then LastGiven(entries, later, id) else None
  {
    var order, now := Entries(entries, later), AllRemembered(entries, later);
    FirstInFirstOut(entries, later);
    NewestIffFewSince(order, id);
    OthersAreCounted(order, id);
    GivenHasEntered(entries, later, id);
    LookupFinds(now, id);
  }

  /** The calls other than `id` that `later` enters. */
  function Others(entries: seq<Entry>, later: seq<Entry>, id: CallId): set<CallId> {
    (set x | x in Entered(entries, later)) - {id}
  }

  lemma {:induction false} OthersHaveEntered(order: seq<CallId>, more: seq<CallId>, id: CallId)
    requires order != [] && order[|order| - 1] == id
    ensures OthersSince(order + more, id) <= (set x | x in more) - {id}
  {
    if more == [] {
      assert order + more == order;
    } else {
      var front, last := more[..|more| - 1], more[|more| - 1];
      assert more == front + [last] && (order + more)[..|order + more| - 1] == order + front;
      OthersHaveEntered(order, front, id);
    }
  }

  lemma {:induction false} SameGiven(entries: seq<Entry>, later: seq<Entry>, id: CallId, s: Snapshot)
    requires Lookup(entries, id) == Some(s) && forall e | e in later && e.id == id :: e.snapshot == s
    ensures LastGiven(entries, later, id) == Some(s)
  {
    if later != [] {
      assert later[|later| - 1] in later;
      SameGiven(entries, later[..|later| - 1], id, s);
    }
  }

  /** The terminal snapshot, once given, stays available until 256 other calls have entered. */
  lemma KeptUntil256OthersComplete(entries: seq<Entry>, e: Entry, later: seq<Entry>)
    requires Proper(entries) && e.id !in Keys(entries)
    requires forall x | x in later && x.id == e.id :: x.snapshot == e.snapshot
    requires |Others(Remembered(entries, e.id, e.snapshot), later, e.id)| < 256
    ensures Lookup(AllRemembered(Remembered(entries, e.id, e.snapshot), later), e.id) == Some(e.snapshot)
  {
    var now := Remembered(entries, e.id, e.snapshot);
    hide Proper;
    assert Proper(now) && Keys(now)[|now| - 1] == e.id && Lookup(now, e.id) == Some(e.snapshot) by {
      FirstInFirstOut(entries, [e]);
      assert now[|now| - 1] == e;
      assert Keys(now)[|now| - 1] in Keys(now);
      RememberedLookup(entries, e, e.id);
    }
    SameGiven(now, later, e.id, e.snapshot);
    GoneExactlyAfter256Others(now, later, e.id);
    OthersHaveEntered(Keys(now), Entered(now, later), e.id);
    SubsetSize(OthersSince(Entries(now, later), e.id), Others(now, later, e.id));
  }
}
