/** Every snapshot of a call is handed to the history store exactly once, whichever coroutine made it. */
module CallWrites {
  import opened Basics
  import opened CallSignals
  import opened CallMachine
  import opened CallSafety
  import opened CallTheorems

  /** The snapshot a suspended handler is handing to the store. */
  function InFlight(frame: Frame): seq<Snapshot> { if frame.Recording? then [frame.snap] else [] }

  function Leaving(out: Outcome): seq<Snapshot> { if out.Suspended? then InFlight(out.frame) else [] }

  function ListenerFlies(l: Listener): seq<Snapshot> { if l.ListenerBusy? then InFlight(l.frame) else [] }

  function DrainFlies(d: Drain): seq<Snapshot> {
    if d.DrainBusy? || d.DrainCleaning? then InFlight(d.frame) else []
  }

  function EnderFlies(e: Ender): seq<Snapshot> { if e.EnderBusy? then InFlight(e.frame) else [] }

  function OriginateFlies(o: Originate): seq<Snapshot> {
    if o.PublishingDialing? then InFlight(o.frame) else if o.RecordingFailure? then [o.snap] else []
  }

  /** The log is what was handed over and what the four coroutines are handing over, each snapshot once. */
  ghost predicate InBalance(log: seq<Snapshot>, recorded: seq<Snapshot>,
                            l: seq<Snapshot>, d: seq<Snapshot>, e: seq<Snapshot>, o: seq<Snapshot>)
  {
    multiset(log) == multiset(recorded) + multiset(l) + multiset(d) + multiset(e) + multiset(o)
  }

  ghost predicate Balanced(w: World) {
    InBalance(w.log, w.recorded, ListenerFlies(w.listener), DrainFlies(w.drain), EnderFlies(w.ender),
              OriginateFlies(w.originate))
  }

  /** No snapshot is on its way to the store. */
  predicate Settled(w: World) {
    && ListenerFlies(w.listener) == [] && DrainFlies(w.drain) == [] && EnderFlies(w.ender) == []
    && OriginateFlies(w.originate) == []
  }

  // ------------------------------------------------------------------ the segments

  /** A segment lets go of every snapshot it makes, and touches no other coroutine. */
  predicate LetsGo(w: World, u: World, out: Outcome) {
    && u.log == w.log + Leaving(out) && u.recorded == w.recorded
    && u.listener == w.listener && u.drain == w.drain && u.originate == w.originate
    && EnderFlies(u.ender) == EnderFlies(w.ender)
  }

  lemma ContinueLetsGo(w: World, after: After)
    ensures var (u, out) := Continue(w, after); LetsGo(w, u, out)
  {
    assert w.log + [] == w.log;
  }

  lemma PublishLetsGo(w: World, s: Status, after: After)
    ensures var (u, out) := Publish(w, s, after); LetsGo(w, u, out)
  {
    ContinueLetsGo(w, after);
    hide Continue;
  }

  lemma CleanupLetsGo(w: World, override: Option<Reason>, raises: bool, late: bool)
    ensures var (u, out) := Cleanup(w, override, raises, late); LetsGo(w, u, out)
  {
    hide Terminated;
    assert w.log + [] == w.log;
  }

  lemma ResumeLetsGo(w: World, frame: Frame, ok: bool, late: bool)
    ensures var (u, out) := Resume(w, frame, ok, late);
            LetsGo(w.(recorded := w.recorded + InFlight(frame)), u, out)
  {
    assert w.log + [] == w.log && w.recorded + [] == w.recorded;
    CleanupLetsGo(w, Some(MediaFailed), true, late);
    PublishLetsGo(w, Answered, ToBridge);
    if frame.Recording? {
      ContinueLetsGo(w.(recorded := w.recorded + [frame.snap]), frame.after);
    }
    if frame.Sending? {
      ContinueLetsGo(w, frame.after);
    }
    hide Cleanup, Continue, Publish;
  }

  lemma DialLetsGo(w: World, leg: Leg, report: DialReport)
    ensures var (u, out) := HandleDial(w, leg, report); LetsGo(w, u, out)
  {
    hide Publish;
    assert w.log + [] == w.log;
    var w1 := w.(call := WithDial(w.call, if report.Known? then Some(report.dial) else None));
    PublishLetsGo(w1, Ringing, ToReturn);
    PublishLetsGo(w1, Answered, ToReturn);
  }

  lemma DestroyedLetsGo(w: World, leg: Leg, cause: Option<int>, late: bool)
    ensures var (u, out) := HandleDestroyed(w, leg, cause, late); LetsGo(w, u, out)
  {
    hide Cleanup;
    assert w.log + [] == w.log;
    var w1 := if leg == Media then w else w.(call := WithDestroyCause(w.call, cause));
    CleanupLetsGo(w1, None, false, late);
    CleanupLetsGo(w1, Some(MediaFailed), false, late);
  }

  lemma StasisStartLetsGo(w: World, leg: Leg, up: bool)
    ensures var (u, out) := HandleStasisStart(w, leg, up); LetsGo(w, u, out)
  {
    hide Publish;
    assert w.log + [] == w.log;
    PublishLetsGo(w.(call := w.call.(inStasis := true)), Answered, ToClaim);
  }

  lemma HandleLetsGo(w: World, ev: Event, late: bool)
    ensures var (u, out) := Handle(w, ev, late); LetsGo(w, u, out)
  {
    hide Publish, HandleDial, HandleDestroyed, HandleStasisStart;
    assert w.log + [] == w.log;
    match ev {
      case Dial(leg, report) => DialLetsGo(w, leg, report);
      case Destroyed(leg, cause) => DestroyedLetsGo(w, leg, cause, late);
      case StateChange(leg, state) =>
        PublishLetsGo(w, Ringing, ToReturn);
        PublishLetsGo(w, Answered, ToAnsweredUp);
      case StasisStart(leg, up) => StasisStartLetsGo(w, leg, up);
      case _ =>
    }
  }

  // ------------------------------------------------------------- one coroutine shifts

  lemma ListenerShifts(log: seq<Snapshot>, recorded: seq<Snapshot>, l: seq<Snapshot>, d: seq<Snapshot>,
                       e: seq<Snapshot>, o: seq<Snapshot>, after: seq<Snapshot>)
    requires InBalance(log, recorded, l, d, e, o)
    ensures InBalance(log + after, recorded + l, after, d, e, o)
  {}

  lemma DrainShifts(log: seq<Snapshot>, recorded: seq<Snapshot>, l: seq<Snapshot>, d: seq<Snapshot>,
                    e: seq<Snapshot>, o: seq<Snapshot>, after: seq<Snapshot>)
    requires InBalance(log, recorded, l, d, e, o)
    ensures InBalance(log + after, recorded + d, l, after, e, o)
  {}

  lemma EnderShifts(log: seq<Snapshot>, recorded: seq<Snapshot>, l: seq<Snapshot>, d: seq<Snapshot>,
                    e: seq<Snapshot>, o: seq<Snapshot>, after: seq<Snapshot>)
    requires InBalance(log, recorded, l, d, e, o)
    ensures InBalance(log + after, recorded + e, l, d, after, o)
  {}

  lemma OriginateShifts(log: seq<Snapshot>, recorded: seq<Snapshot>, l: seq<Snapshot>, d: seq<Snapshot>,
                        e: seq<Snapshot>, o: seq<Snapshot>, after: seq<Snapshot>)
    requires InBalance(log, recorded, l, d, e, o)
    ensures InBalance(log + after, recorded + o, l, d, e, after)
  {}

  // --------------------------------------------------------------------- the moves

  /** A move hands over at most one snapshot, and keeps the balance. */
  ghost predicate Moves(w: World, u: World) {
    Balanced(u) && w.recorded <= u.recorded && |u.recorded| <= |w.recorded| + 1
  }

  /** Nothing is made, handed over or taken up. */
  lemma StaysBalanced(w: World, u: World)
    requires Balanced(w) && u.log == w.log && u.recorded == w.recorded
    requires ListenerFlies(u.listener) == ListenerFlies(w.listener) && DrainFlies(u.drain) == DrainFlies(w.drain)
    requires EnderFlies(u.ender) == EnderFlies(w.ender) && OriginateFlies(u.originate) == OriginateFlies(w.originate)
    ensures Moves(w, u)
  {
    hide InBalance;
  }

  /** The listener's handler ends a segment, having handed over what it was about to. */
  lemma ListenerToBalances(w: World, x: World, u: World, out: Outcome)
    requires Balanced(w) && LetsGo(x, u, out) && x.recorded == w.recorded + ListenerFlies(w.listener)
    requires x.log == w.log && x.drain == w.drain && x.ender == w.ender && x.originate == w.originate
    ensures Moves(w, ListenerTo(u, out))
  {
    ListenerShifts(w.log, w.recorded, ListenerFlies(w.listener), DrainFlies(w.drain), EnderFlies(w.ender),
                   OriginateFlies(w.originate), Leaving(out));
    hide InBalance;
  }

  lemma ListenerBalances(w: World, ok: bool, late: bool)
    requires Balanced(w)
    ensures Moves(w, ListenerStep(w, ok, late))
  {
    hide Balanced, Resume, LetsGo;
    if w.listener.ListenerBusy? {
      ResumeLetsGo(w, w.listener.frame, ok, late);
      var (u, out) := Resume(w, w.listener.frame, ok, late);
      ListenerToBalances(w, w.(recorded := w.recorded + InFlight(w.listener.frame)), u, out);
    } else {
      StaysBalanced(w, w);
    }
  }

  lemma ArrivalBalances(w: World, ev: Event, late: bool)
    requires Balanced(w)
    ensures Moves(w, Arrive(w, ev, late))
  {
    hide Balanced, Handle, Matched, Own, LetsGo;
    var w0 := if Matched(w, ev.leg) then w.(fates := w.fates + [Handled], handled := w.handled + [|w.fates|])
              else if Own(w, ev.leg) then w.(fates := w.fates + [Lost(true, |w.fates|)])
              else w;
    if w.listener.ListenerIdle? && !(Matched(w, ev.leg) && (!w.accepted || !w.drain.NoDrain?)) {
      HandleLetsGo(w0, ev, late);
      var (u, out) := Handle(w0, ev, late);
      assert w.recorded + [] == w.recorded;
      ListenerToBalances(w, w0, u, out);
    } else {
      StaysBalanced(w, Arrive(w, ev, late));
    }
  }

  /** The deferred cleanup ends a segment. */
  lemma EnderToBalances(w: World, x: World, u: World, out: Outcome)
    requires Balanced(w) && LetsGo(x, u, out) && x.recorded == w.recorded + EnderFlies(w.ender)
    requires x.log == w.log && x.listener == w.listener && x.drain == w.drain && x.originate == w.originate
    ensures Moves(w, EnderTo(u, out))
  {
    EnderShifts(w.log, w.recorded, ListenerFlies(w.listener), DrainFlies(w.drain), EnderFlies(w.ender),
                OriginateFlies(w.originate), Leaving(out));
    hide InBalance;
  }

  lemma EnderBalances(w: World, ok: bool, late: bool)
    requires Balanced(w)
    ensures Moves(w, EnderStep(w, ok, late))
  {
    hide Balanced, Resume, Cleanup, LetsGo;
    match w.ender {
      case EnderSleeping =>
        CleanupLetsGo(w, None, false, late);
        var (u, out) := Cleanup(w, None, false, late);
        assert w.recorded + [] == w.recorded;
        EnderToBalances(w, w, u, out);
      case EnderBusy(frame) =>
        ResumeLetsGo(w, frame, ok, late);
        var (u, out) := Resume(w, frame, ok, late);
        EnderToBalances(w, w.(recorded := w.recorded + InFlight(frame)), u, out);
      case _ =>
        StaysBalanced(w, w);
    }
  }

  /** The drain ends a segment in position `v.drain`, which takes up what the segment let go. */
  lemma DrainSettlesBalance(w: World, v: World, after: seq<Snapshot>)
    requires Balanced(w) && v.log == w.log + after && v.recorded == w.recorded + DrainFlies(w.drain)
    requires DrainFlies(v.drain) == after && v.listener == w.listener && v.originate == w.originate
    requires EnderFlies(v.ender) == EnderFlies(w.ender)
    ensures Moves(w, v)
  {
    DrainShifts(w.log, w.recorded, ListenerFlies(w.listener), DrainFlies(w.drain), EnderFlies(w.ender),
                OriginateFlies(w.originate), after);
    hide InBalance;
  }

  lemma DrainToBalances(w: World, x: World, u: World, out: Outcome, late: bool)
    requires Balanced(w) && LetsGo(x, u, out) && x.recorded == w.recorded + DrainFlies(w.drain)
    requires x.log == w.log && x.listener == w.listener && x.ender == w.ender && x.originate == w.originate
    ensures Moves(w, DrainTo(u, out, late))
  {
    hide Balanced, Cleanup, Moves;
    CleanupLetsGo(u, Some(EventFailed), false, late);
    var (v, out1) := Cleanup(u, Some(EventFailed), false, late);
    if out == Finished(true) {
      assert u.log + [] == u.log == w.log;
      DrainSettlesBalance(w, DrainCleanupTo(v, out1), Leaving(out1));
    } else {
      DrainSettlesBalance(w, DrainTo(u, out, late), Leaving(out));
    }
  }

  lemma DrainBalances(w: World, ok: bool, late: bool)
    requires Balanced(w)
    ensures Moves(w, DrainStep(w, ok, late))
  {
    hide Balanced, Resume, Handle, DrainTo, Moves;
    match w.drain {
      case DrainLooping =>
        if w.pending != [] && w.inRegistry {
          var w0 := Popped(w);
          HandleLetsGo(w0, w.pending[0].event, late);
          var (u, out) := Handle(w0, w.pending[0].event, late);
          assert w.recorded + [] == w.recorded;
          hide LetsGo;
          DrainToBalances(w, w0, u, out, late);
        } else {
          StaysBalanced(w, DrainStep(w, ok, late));
        }
      case DrainBusy(frame) =>
        ResumeLetsGo(w, frame, ok, late);
        var (u, out) := Resume(w, frame, ok, late);
        hide LetsGo;
        DrainToBalances(w, w.(recorded := w.recorded + InFlight(frame)), u, out, late);
      case DrainCleaning(frame) =>
        ResumeLetsGo(w, frame, ok, late);
        var (u, out) := Resume(w, frame, ok, late);
        DrainSettlesBalance(w, DrainCleanupTo(u, out), Leaving(out));
      case _ =>
        StaysBalanced(w, DrainStep(w, ok, late));
    }
  }

  /** `originate` ends a segment in position `v.originate`. */
  lemma OriginateSettlesBalance(w: World, v: World, after: seq<Snapshot>)
    requires Balanced(w) && v.log == w.log + after && v.recorded == w.recorded + OriginateFlies(w.originate)
    requires OriginateFlies(v.originate) == after && v.listener == w.listener && v.drain == w.drain
    requires EnderFlies(v.ender) == EnderFlies(w.ender)
    ensures Moves(w, v)
  {
    OriginateShifts(w.log, w.recorded, ListenerFlies(w.listener), DrainFlies(w.drain), EnderFlies(w.ender),
                    OriginateFlies(w.originate), after);
    hide InBalance;
  }

  lemma OriginateToBalances(w: World, x: World, u: World, out: Outcome)
    requires Balanced(w) && LetsGo(x, u, out) && x.recorded == w.recorded + OriginateFlies(w.originate)
    requires x.log == w.log && x.listener == w.listener && x.ender == w.ender && x.drain == w.drain
    ensures Moves(w, OriginateTo(u, out))
  {
    hide Balanced, Moves;
    if out == Finished(true) {
      assert u.log + [] == u.log == w.log;
    }
    OriginateSettlesBalance(w, OriginateTo(u, out), OriginateFlies(OriginateTo(u, out).originate));
  }

  lemma OriginateBalances(w: World, ok: bool)
    requires Balanced(w)
    ensures Moves(w, OriginateStep(w, ok))
  {
    hide Balanced, Resume, Publish, Moves, LetsGo, OriginateTo;
    assert w.recorded + [] == w.recorded && w.log + [] == w.log;
    match w.originate {
      case Acknowledging =>
        if ok {
          PublishLetsGo(w, CallSignals.Dialing, ToReturn);
          var (u, out) := Publish(w, CallSignals.Dialing, ToReturn);
          OriginateToBalances(w, w, u, out);
        } else {
          OriginateSettlesBalance(w, FailOriginate(w), OriginateFlies(FailOriginate(w).originate));
        }
      case PublishingDialing(frame) =>
        ResumeLetsGo(w, frame, ok, false);
        var (u, out) := Resume(w, frame, ok, false);
        OriginateToBalances(w, w.(recorded := w.recorded + InFlight(frame)), u, out);
      case Posting =>
        OriginateSettlesBalance(w, OriginateStep(w, ok), OriginateFlies(OriginateStep(w, ok).originate));
      case RecordingFailure(snap) =>
        OriginateSettlesBalance(w, OriginateStep(w, ok), []);
      case _ =>
        StaysBalanced(w, OriginateStep(w, ok));
    }
  }

  lemma NextBalances(w: World, move: Move)
    requires Balanced(w)
    ensures Moves(w, Next(w, move))
  {
    hide Arrive, ListenerStep, DrainStep, EnderStep, OriginateStep, Balanced;
    match move {
      case EventArrives(ev, late) => ArrivalBalances(w, ev, late);
      case ListenerRuns(ok, late) => ListenerBalances(w, ok, late);
      case DrainRuns(ok, late) => DrainBalances(w, ok, late);
      case EnderRuns(ok, late) => EnderBalances(w, ok, late);
      case OriginateRuns(ok) => OriginateBalances(w, ok);
      case PartnerLeaves => StaysBalanced(w, Next(w, move));
      case PartnerAsksEnd(_) => StaysBalanced(w, Next(w, move));
    }
  }

  /** In every run the snapshots made are those handed to the store and those on their way, each once. */
  lemma {:induction false} EverySnapshotIsHandedOverOnce(moves: seq<Move>)
    ensures Balanced(Run(moves))
    ensures Settled(Run(moves)) ==> multiset(Run(moves).log) == multiset(Run(moves).recorded)
  {
    hide Next;
    if moves != [] {
      EverySnapshotIsHandedOverOnce(moves[..|moves| - 1]);
      NextBalances(Run(moves[..|moves| - 1]), moves[|moves| - 1]);
    }
  }

  /** What has been handed over stays, and a move adds at most one to it. */
  lemma RunRecordsOnce(moves: seq<Move>, move: Move)
    ensures var before, now := Run(moves).recorded, Run(moves + [move]).recorded;
            before <= now && |now| <= |before| + 1
  {
    hide Run, Balanced;
    RunSnoc(moves, move);
    EverySnapshotIsHandedOverOnce(moves);
    NextBalances(Run(moves), move);
  }
}
