/**
  The call machine and the connection's dictionary of finished calls together: this
  call's steps and the completions of the partner's other calls interleave freely.
 */
module CallResults {
  import opened Basics
  import opened CallSignals
  import opened CallMachine
  import opened CallSafety
  import opened CallTheorems
  import D = CompletedCalls

  datatype Event = CallMoves(move: Move) | OtherCompletes(id: D.CallId, snapshot: Snapshot)

  /** This call's own moves. */
  function MovesOf(events: seq<Event>): seq<Move> {
    if events == [] then []
    else
      var last := events[|events| - 1];
      MovesOf(events[..|events| - 1]) + if last.CallMoves? then [last.move] else []
  }

  function WorldAfter(events: seq<Event>): World { Run(MovesOf(events)) }

  /** What `remember_completed` was given on the connection; a step that called it did so once. */
  function Given(events: seq<Event>, id: D.CallId): seq<D.Entry> {
    if events == [] then []
    else
      var before, last := events[..|events| - 1], events[|events| - 1];
      Given(before, id)
      + match last
        case CallMoves(_) =>
          var w, u := WorldAfter(before), WorldAfter(events);
          if u.kept > w.kept && u.completed.Some? then [D.Entry(id, u.completed.value)] else []
        case OtherCompletes(other, s) => if other == id then [] else [D.Entry(other, s)]
  }

  /** The connection's dictionary, with what it held of calls that finished earlier. */
  function Dictionary(events: seq<Event>, id: D.CallId, earlier: seq<D.Entry>): seq<D.Entry> {
    D.AllRemembered(earlier, Given(events, id))
  }

  // ------------------------------------------------------------ one remembrance a step

  lemma ResumeKeepsOnce(w: World, frame: Frame, ok: bool, late: bool)
    ensures w.kept <= Resume(w, frame, ok, late).0.kept <= w.kept + 1
  {
    hide Termination;
  }

  lemma HandleKeepsNone(w: World, ev: CallMachine.Event, late: bool)
    ensures Handle(w, ev, late).0.kept == w.kept
  {
    hide Termination;
  }

  lemma DrainToKeepsNone(w: World, out: Outcome, late: bool)
    ensures DrainTo(w, out, late).kept == w.kept
  {
    hide Termination;
  }

  /** No step calls `remember_completed` twice. */
  lemma OneRemembranceAStep(w: World, move: Move)
    ensures w.kept <= Next(w, move).kept <= w.kept + 1
  {
    hide Resume, Handle, DrainTo, Termination;
    match move {
      case EventArrives(ev, late) =>
        HandleKeepsNone(w.(fates := w.fates + [Handled], handled := w.handled + [|w.fates|]), ev, late);
        HandleKeepsNone(w.(fates := w.fates + [Lost(true, |w.fates|)]), ev, late);
        HandleKeepsNone(w, ev, late);
      case ListenerRuns(ok, late) =>
        if w.listener.ListenerBusy? {
          ResumeKeepsOnce(w, w.listener.frame, ok, late);
        }
      case DrainRuns(ok, late) =>
        DrainKeepsOnce(w, ok, late);
      case EnderRuns(ok, late) =>
        if w.ender.EnderBusy? {
          ResumeKeepsOnce(w, w.ender.frame, ok, late);
        }
      case OriginateRuns(ok) =>
        if w.originate.PublishingDialing? {
          ResumeKeepsOnce(w, w.originate.frame, ok, false);
        }
      case _ =>
    }
  }

  lemma DrainKeepsOnce(w: World, ok: bool, late: bool)
    ensures w.kept <= DrainStep(w, ok, late).kept <= w.kept + 1
  {
    hide Resume, Handle, DrainTo;
    match w.drain {
      case DrainLooping =>
        if w.pending != [] {
          var w0 := Popped(w);
          HandleKeepsNone(w0, w.pending[0].event, late);
          var (u, out) := Handle(w0, w.pending[0].event, late);
          DrainToKeepsNone(u, out, late);
        }
      case DrainBusy(frame) =>
        ResumeKeepsOnce(w, frame, ok, late);
        DrainToKeepsNone(Resume(w, frame, ok, late).0, Resume(w, frame, ok, late).1, late);
      case DrainCleaning(frame) =>
        ResumeKeepsOnce(w, frame, ok, late);
      case _ =>
    }
  }

  // --------------------------------------------------------------------- the result stays

  lemma ResultStays(w: World, move: Move)
    requires Inv(w) && w.completed.Some?
    ensures Next(w, move).completed == w.completed
  {
    hide Next, Gated, Exclusive, InOrder, LossExplained, Numbered, Rising, StartsOnce, EndsOnce;
    NextKeeps(w, move);
    NextGrows(w, move);
    OneRemembranceAStep(w, move);
    EndedLogIsFinal(w.log, Next(w, move).log);
  }

  lemma EndedLogIsFinal(log: seq<Snapshot>, longer: seq<Snapshot>)
    requires Rising(longer) && log <= longer && log != [] && Last(log).status.Ended?
    ensures log == longer
  {
    LogRisesAt(longer, |log|);
    hide Rising;
  }

  lemma LogRisesAt(log: seq<Snapshot>, i: nat)
    requires Rising(log)
    ensures 0 < i < |log| ==> Rank(log[i - 1].status) < Rank(log[i].status)
  {}

  /** What the dictionary was given last for the call is what the call then keeps. */
  lemma {:induction false} LastGivenIsKept(events: seq<Event>, id: D.CallId, earlier: seq<D.Entry>)
    requires id !in D.Keys(earlier)
    ensures D.LastGiven(earlier, Given(events, id), id) == WorldAfter(events).completed
  {
    if events == [] {
      D.LookupFinds(earlier, id);
      assert Run([]) == RESERVED_WORLD;
    } else {
      var before, last := events[..|events| - 1], events[|events| - 1];
      LastGivenIsKept(before, id, earlier);
      if last.CallMoves? {
        MoveGives(MovesOf(before), last.move);
      } else {
        assert MovesOf(before) + [] == MovesOf(before);
      }
      hide Run, MovesOf, D.Lookup;
      assert Given(before, id) + [] == Given(before, id);
    }
  }

  /** A step that remembers nothing leaves the result as it was. */
  lemma MoveGives(moves: seq<Move>, move: Move)
    ensures var w, u := Run(moves), Run(moves + [move]);
            u.completed == w.completed || (u.kept > w.kept && u.completed.Some?)
  {
    var w := Run(moves);
    RunKeeps(moves);
    RunSnoc(moves, move);
    RunKeeps(moves + [move]);
    OneRemembranceAStep(w, move);
    if w.completed.Some? {
      ResultStays(w, move);
    }
    hide Run, Next, Gated, Exclusive, InOrder, LossExplained;
  }

  /**
    Once the terminal snapshot is sent, looking the call up on its connection gives that
    same snapshot exactly until 256 other calls have entered the dictionary since the
    call's own last entry: through all further steps, the call's own second
    remembrance, and those of calls that are in the dictionary already.
   */
  lemma SentResultStaysAvailable(events: seq<Event>, id: D.CallId, earlier: seq<D.Entry>, s: Snapshot)
    requires D.Proper(earlier) && id !in D.Keys(earlier)
    requires s in Run(MovesOf(events)).sent && s.Terminal()
    ensures D.Lookup(Dictionary(events, id, earlier), id)
            == if |D.OthersSince(D.Entries(earlier, Given(events, id)), id)| < 256 then Some(s) else None
  {
    TerminalIsQueryableOnceSent(MovesOf(events));
    LastGivenIsKept(events, id, earlier);
    D.GoneExactlyAfter256Others(earlier, Given(events, id), id);
    hide Run, MovesOf;
  }
}
