/**
  The reconnect machines of the two SDKs. Python runs one loop in seconds; Node
  reacts to events with a timer in milliseconds. Both are run on the same script of
  attempt outcomes and compared with one reference.
 */
module SdkReconnect {
  import opened Basics

  /** How the socket goes that a token is tried on: refused, failed, or opened and later closed with a code. */
  datatype Link = HandshakeRefused | HandshakeFailed | Opened(ready: bool, code: int)

  /** How one attempt goes. A successful token reply may be malformed; a client may go on even so. */
  datatype Outcome =
    | TokenRefused
    | TokenFailed
    | TokenUnreadable            // not JSON, or null
    | TokenMissing(link: Link)   // any other JSON without a token
    | TokenGiven(link: Link)

  const CLOSE_UNAUTHORIZED := 4401
  const CLOSE_SUPERSEDED := 4409

  datatype Reason = Unauthorized | Superseded | MalformedToken

  /** What a client does: attempts, waits in seconds, and a final stop. */
  datatype Action = Attempt | Wait(seconds: real) | Stop(reason: Reason)

  predicate Ready(o: Outcome) { o.TokenGiven? && o.link.Opened? && o.link.ready }

  predicate IsSuperseded(o: Outcome) { o.TokenGiven? && o.link.Opened? && o.link.code == CLOSE_SUPERSEDED }

  /** Refused before the socket opened. */
  predicate RefusedEarly(o: Outcome) { o.TokenRefused? || (o.TokenGiven? && o.link.HandshakeRefused?) }

  predicate IsAuthFailure(o: Outcome) {
    RefusedEarly(o) || (o.TokenGiven? && o.link.Opened? && o.link.code == CLOSE_UNAUTHORIZED)
  }

  predicate Malformed(o: Outcome) { o.TokenUnreadable? || o.TokenMissing? }

  function MinReal(a: real, b: real): real { if a < b then a else b }

  /** The wait after `k` earlier ones since the start or the last ready. */
  function Delay(k: nat, max: real): real { MinReal(Pow2(k) as real, max) }

  /**
    What a client that takes outcomes for what they are must do after `failures` refusals
    and `waits` waits since the start or the last ready.
   */
  function Expected(script: seq<Outcome>, failures: nat, waits: nat, max: real): seq<Action> {
    if script == [] then []
    else
      var o := script[0];
      var f, w := if Ready(o) then 0 else failures, if Ready(o) then 0 else waits;
      if Malformed(o) then [Attempt, Stop(MalformedToken)]
      else if IsSuperseded(o) then [Attempt, Stop(Superseded)]
      else if IsAuthFailure(o) && f >= 3 then [Attempt, Stop(Unauthorized)]
      else
        [Attempt, Wait(Delay(w, max))]
        + Expected(script[1..], if IsAuthFailure(o) then f + 1 else f, w + 1, max)
  }

  /** A doubling backoff, capped at `max` after its first use, `k` waits on. */
  function Backoff(k: nat, max: real): real { if k == 0 then 1.0 else Delay(k, max) }

  lemma BackoffDoubles(k: nat, max: real)
    requires max >= 0.0
    ensures MinReal(Backoff(k, max), max) == Delay(k, max)
    ensures MinReal(Backoff(k, max) * 2.0, max) == Backoff(k + 1, max)
  {
    assert Pow2(k + 1) == 2 * Pow2(k);
    assert Pow2(k + 1) as real == Pow2(k) as real * 2.0;
  }

  // ------------------------------------------------------------------ the Python loop

  const AUTH_RETRY_LIMIT: nat := 3

  method Stream(script: seq<Outcome>, maxBackoff: real) returns (trace: seq<Action>)
    requires maxBackoff >= 0.0
    ensures trace == Expected(script, 0, 0, maxBackoff)
  {
    hide Expected, Delay, Backoff, Pow2, MinReal;
    var backoff, authRetries := 1.0, 0;
    ghost var waits := 0;
    trace := [];
    BackoffStarts(maxBackoff);
    Unbegun(script, maxBackoff);
    for i := 0 to |script|
      invariant authRetries >= 0 && waits >= 0 && backoff == Backoff(waits, maxBackoff)
      invariant trace + Expected(script[i..], authRetries, waits, maxBackoff) == Expected(script, 0, 0, maxBackoff)
    {
      var outcome := script[i];
      ExpectedStep(script, i, authRetries, waits, maxBackoff, trace);
      trace := trace + [Attempt];
      if outcome.TokenUnreadable? || outcome.TokenMissing? {
        trace := trace + [Stop(MalformedToken)];     // an exception the loop does not catch
        return;
      }
      var refused := outcome.TokenRefused? || (outcome.TokenGiven? && outcome.link.HandshakeRefused?);
      if outcome.TokenGiven? && outcome.link.Opened? {
        if outcome.link.ready {
          authRetries, backoff := 0, 1.0;
          waits := 0;
        }
        if outcome.link.code == CLOSE_SUPERSEDED {
          trace := trace + [Stop(Superseded)];
          return;
        }
        refused := outcome.link.code == CLOSE_UNAUTHORIZED;
      }
      if refused {
        if authRetries >= AUTH_RETRY_LIMIT {
          trace := trace + [Stop(Unauthorized)];
          return;
        }
        authRetries := authRetries + 1;
      }
      BackoffDoubles(waits, maxBackoff);
      trace := trace + [Wait(MinReal(backoff, maxBackoff))];
      backoff := MinReal(backoff * 2.0, maxBackoff);
      waits := waits + 1;
    }
    Begun(script, authRetries, waits, maxBackoff, trace);
  }

  lemma BackoffStarts(max: real)
    ensures Backoff(0, max) == 1.0
  {}

  lemma Unbegun(script: seq<Outcome>, max: real)
    ensures [] + Expected(script[0..], 0, 0, max) == Expected(script, 0, 0, max)
  {
    assert script[0..] == script;
  }

  lemma Begun(script: seq<Outcome>, failures: nat, waits: nat, max: real, trace: seq<Action>)
    ensures trace + Expected(script[|script|..], failures, waits, max) == trace
  {}

  /** How the trace grows with one more attempt. */
  lemma ExpectedStep(script: seq<Outcome>, i: nat, failures: nat, waits: nat, max: real, trace: seq<Action>)
    requires i < |script|
    ensures var o, all := script[i], trace + Expected(script[i..], failures, waits, max);
            var f, w := if Ready(o) then 0 else failures, if Ready(o) then 0 else waits;
            if Malformed(o) then all == trace + [Attempt] + [Stop(MalformedToken)]
            else if IsSuperseded(o) then all == trace + [Attempt] + [Stop(Superseded)]
            else if IsAuthFailure(o) && f >= 3 then all == trace + [Attempt] + [Stop(Unauthorized)]
            else all == (trace + [Attempt] + [Wait(Delay(w, max))])
                        + Expected(script[i + 1..], if IsAuthFailure(o) then f + 1 else f, w + 1, max)
  {
    assert script[i..][0] == script[i] && script[i..][1..] == script[i + 1..];
    hide Delay;
  }

  // ------------------------------------------------------------------ the Node client

  /**
    A reply that cannot be parsed is a failure like any other to this client; a token that
    is not there is `undefined`, and is tried.
   */
  function NodeReads(o: Outcome): Outcome {
    match o
    case TokenUnreadable => TokenFailed
    case TokenMissing(link) => TokenGiven(link)
    case _ => o
  }

  function NodeScript(script: seq<Outcome>): seq<Outcome> {
    seq(|script|, i requires 0 <= i < |script| => NodeReads(script[i]))
  }

  const INITIAL_BACKOFF_MS := 1000.0
  const MAX_AUTHENTICATION_ATTEMPTS: nat := 4

  class GatewayClient {
    const maxBackoffMs: real
    var authFailures: nat
    var backoff: real
    var retryTimer: Option<real>
    var retryWaiters: nat
    var closing: bool
    /** What the client has done, for comparison. */
    var trace: seq<Action>

    constructor (maxBackoffMs: real)
      ensures this.maxBackoffMs == maxBackoffMs && Idle()
    {
      this.maxBackoffMs := maxBackoffMs;
      authFailures, backoff, retryTimer, retryWaiters, closing, trace := 0, INITIAL_BACKOFF_MS, None, 0, false, [];
    }

    /** No retry is pending. */
    predicate Idle()
      reads this
    {
      retryTimer.None? && retryWaiters == 0
    }

    /** Retry, backoff and trace are as before. */
    predicate Untouched(timer: Option<real>, earlier: real, before: seq<Action>)
      reads this
    {
      retryTimer == timer && backoff == earlier && trace == before
    }

    /** One retry is pending: the one that was, or a new one after the capped backoff. */
    predicate Pending(timer: Option<real>, earlier: real, before: seq<Action>)
      reads this
    {
      if timer.Some? then Untouched(timer, earlier, before)
      else
        var delay := MinReal(earlier, maxBackoffMs);
        && retryTimer == Some(delay) && trace == before + [Wait(delay / 1000.0)]
        && backoff == MinReal(earlier * 2.0, maxBackoffMs)
    }

    /** The state after a refusal on top of `failures` earlier ones. */
    predicate Refused(failures: nat, timer: Option<real>, earlier: real, before: seq<Action>)
      reads this
    {
      && authFailures == failures + 1
      && if failures >= 3 then Untouched(timer, earlier, before + [Stop(Unauthorized)])
         else Pending(timer, earlier, before)
    }

    method ScheduleReconnect()
      modifies this
      ensures authFailures == old(authFailures) && retryWaiters == old(retryWaiters) && closing == old(closing)
      ensures if closing then Untouched(old(retryTimer), old(backoff), old(trace))
              else Pending(old(retryTimer), old(backoff), old(trace))
    {
      if closing || retryTimer.Some? {
        return;
      }
      var delay := MinReal(backoff, maxBackoffMs);
      backoff := MinReal(backoff * 2.0, maxBackoffMs);
      retryTimer := Some(delay);
      trace := trace + [Wait(delay / 1000.0)];
    }

    method WaitForRetry()
      modifies this
      ensures authFailures == old(authFailures) && closing == old(closing)
      ensures if closing && old(retryTimer.None?) then
                retryWaiters == old(retryWaiters) && Untouched(None, old(backoff), old(trace))
              else
                retryWaiters == old(retryWaiters) + 1 && Pending(old(retryTimer), old(backoff), old(trace))
    {
      retryWaiters := retryWaiters + 1;
      if retryTimer.Some? {
        return;
      }
      ScheduleReconnect();
      if retryTimer.None? {
        retryWaiters := retryWaiters - 1;
      }
    }

    /** A refusal before the socket opened; a closing client swallows it. */
    method RetryAuthentication(initial: bool)
      modifies this
      ensures authFailures == old(authFailures) + 1 && closing == old(closing)
      ensures closing ==> Untouched(old(retryTimer), old(backoff), old(trace)) && retryWaiters == old(retryWaiters)
      ensures !closing ==>
                && Refused(old(authFailures), old(retryTimer), old(backoff), old(trace))
                && retryWaiters == old(retryWaiters) + if initial && old(authFailures) < 3 then 1 else 0
    {
      authFailures := authFailures + 1;
      if closing || authFailures >= MAX_AUTHENTICATION_ATTEMPTS {
        if !closing {
          trace := trace + [Stop(Unauthorized)];
        }
        return;
      }
      if !initial {
        ScheduleReconnect();
        return;
      }
      WaitForRetry();
    }

    method HandlePostStartAuthenticationFailure()
      modifies this
      ensures authFailures == old(authFailures) + 1 && closing == old(closing) && retryWaiters == old(retryWaiters)
      ensures if closing then Untouched(old(retryTimer), old(backoff), old(trace))
              else Refused(old(authFailures), old(retryTimer), old(backoff), old(trace))
    {
      authFailures := authFailures + 1;
      if closing || authFailures >= MAX_AUTHENTICATION_ATTEMPTS {
        if !closing {
          trace := trace + [Stop(Unauthorized)];
        }
        return;
      }
      ScheduleReconnect();
    }

    /** The close of an opened socket; a closing client ignores it. */
    method OnClose(code: int)
      modifies this
      ensures old(closing) ==>
                && closing && authFailures == old(authFailures) && retryWaiters == old(retryWaiters)
                && Untouched(old(retryTimer), old(backoff), old(trace))
      ensures !old(closing) ==>
                && (closing <==> code == CLOSE_SUPERSEDED)
                && retryWaiters == (if code == CLOSE_SUPERSEDED then 0 else old(retryWaiters))
                && if code == CLOSE_UNAUTHORIZED then
                     Refused(old(authFailures), old(retryTimer), old(backoff), old(trace))
                   else
                     && authFailures == old(authFailures)
                     && if code == CLOSE_SUPERSEDED then
                          Untouched(None, old(backoff), old(trace) + [Stop(Superseded)])
                        else Pending(old(retryTimer), old(backoff), old(trace))
    {
      if closing {
        return;
      }
      if code == CLOSE_SUPERSEDED {
        closing := true;
        retryTimer, retryWaiters := None, 0;
        trace := trace + [Stop(Superseded)];
        return;
      }
      if code == CLOSE_UNAUTHORIZED {
        HandlePostStartAuthenticationFailure();
        return;
      }
      ScheduleReconnect();
    }

    /** One attempt, from the token to the close of what it opened; a closing client gives up after the token. */
    method Connect(outcome: Outcome, initial: bool)
      modifies this
      ensures old(closing) ==>
                && closing && authFailures == old(authFailures) && retryWaiters == old(retryWaiters)
                && Untouched(old(retryTimer), old(backoff), old(trace) + [Attempt])
      ensures !old(closing) ==>
                var o := NodeReads(outcome);
                var f := if Ready(o) then 0 else old(authFailures);
                var b := if Ready(o) then INITIAL_BACKOFF_MS else old(backoff);
                var before := old(trace) + [Attempt];
                && (closing <==> IsSuperseded(o))
                && retryWaiters == (if IsSuperseded(o) then 0
                                    else old(retryWaiters) + if initial && RefusedEarly(o) && f < 3 then 1 else 0)
                && if IsAuthFailure(o) then Refused(f, old(retryTimer), b, before)
                   else
                     && authFailures == f
                     && if IsSuperseded(o) then Untouched(None, b, before + [Stop(Superseded)])
                        else Pending(old(retryTimer), b, before)
    {
      trace := trace + [Attempt];
      if closing {
        return;
      }
      match outcome
      case TokenRefused => RetryAuthentication(initial);
      case TokenFailed => ScheduleReconnect();
      case TokenUnreadable => ScheduleReconnect();
      case TokenMissing(link) => TryToken(link, initial);
      case TokenGiven(link) => TryToken(link, initial);
    }

    /** The part of an attempt after the token. */
    method TryToken(link: Link, initial: bool)
      modifies this
      requires !closing
      ensures var o := TokenGiven(link);
              var f := if Ready(o) then 0 else old(authFailures);
              var b := if Ready(o) then INITIAL_BACKOFF_MS else old(backoff);
              && (closing <==> IsSuperseded(o))
              && retryWaiters == (if IsSuperseded(o) then 0
                                  else old(retryWaiters) + if initial && RefusedEarly(o) && f < 3 then 1 else 0)
              && if IsAuthFailure(o) then Refused(f, old(retryTimer), b, old(trace))
                 else
                   && authFailures == f
                   && if IsSuperseded(o) then Untouched(None, b, old(trace) + [Stop(Superseded)])
                      else Pending(old(retryTimer), b, old(trace))
    {
      match link
      case HandshakeRefused => RetryAuthentication(initial);
      case HandshakeFailed => ScheduleReconnect();
      case Opened(ready, code) =>
        if ready {
          authFailures, backoff := 0, INITIAL_BACKOFF_MS;
        }
        OnClose(code);
    }

    /** The retry timer fires: a waiting start resumes, otherwise a plain reconnect begins. */
    method TimerFires() returns (resumesStart: bool)
      requires retryTimer.Some?
      modifies this`retryTimer, this`retryWaiters
      ensures Idle() && (resumesStart <==> old(retryWaiters) > 0)
    {
      resumesStart := retryWaiters > 0;
      retryTimer, retryWaiters := None, 0;
    }

    /** `start`, and every retry after it, on a script of outcomes. */
    method Start(script: seq<Outcome>)
      requires Idle() && maxBackoffMs >= 0.0
      modifies this
      ensures trace == Expected(NodeScript(script), 0, 0, maxBackoffMs / 1000.0)
    {
      hide Expected, Delay, Backoff, Pow2, MinReal;
      ghost var max, waits, read := maxBackoffMs / 1000.0, 0, NodeScript(script);
      authFailures, backoff, closing, trace := 0, INITIAL_BACKOFF_MS, false, [];
      var initial := true;
      BackoffStarts(max);
      Unbegun(read, max);
      for i := 0 to |script|
        invariant Idle() && !closing && waits >= 0 && backoff == 1000.0 * Backoff(waits, max)
        invariant trace + Expected(read[i..], authFailures, waits, max) == Expected(read, 0, 0, max)
      {
        ExpectedStep(read, i, authFailures, waits, max, trace);
        if Ready(read[i]) {
          waits := 0;
        }
        BackoffDoubles(waits, max);
        InMilliseconds(Backoff(waits, max), max);
        Connect(script[i], initial);
        if retryTimer.None? {
          return;
        }
        waits := waits + 1;
        initial := TimerFires();
      }
      Begun(read, authFailures, waits, max, trace);
    }
  }

  lemma InMilliseconds(backoff: real, max: real)
    ensures MinReal(1000.0 * backoff, 1000.0 * max) == 1000.0 * MinReal(backoff, max)
    ensures MinReal(1000.0 * backoff * 2.0, 1000.0 * max) == 1000.0 * MinReal(backoff * 2.0, max)
  {}

  // --------------------------------------------------------- what the reference means

  /** Waits since the start or the last ready, before the one that follows the last of `outcomes`. */
  function WaitsSince(outcomes: seq<Outcome>, earlier: nat): nat
    requires outcomes != []
  {
    var last := |outcomes| - 1;
    if Ready(outcomes[last]) then 0
    else if last == 0 then earlier
    else WaitsSince(outcomes[..last], earlier) + 1
  }

  /** Refusals since the start or the last ready. */
  function RefusalsSince(outcomes: seq<Outcome>, earlier: nat): nat {
    if outcomes == [] then earlier
    else
      var last := |outcomes| - 1;
      (if Ready(outcomes[last]) then 0 else RefusalsSince(outcomes[..last], earlier))
      + if IsAuthFailure(outcomes[last]) then 1 else 0
  }

  /** What follows the last of `outcomes`. */
  function Answer(outcomes: seq<Outcome>, failures: nat, waits: nat, max: real): Action
    requires outcomes != []
  {
    var o := outcomes[|outcomes| - 1];
    if Malformed(o) then Stop(MalformedToken)
    else if IsSuperseded(o) then Stop(Superseded)
    else if IsAuthFailure(o) && RefusalsSince(outcomes, failures) > 3 then Stop(Unauthorized)
    else Wait(Delay(WaitsSince(outcomes, waits), max))
  }

  lemma {:induction false} SinceShifts(o: Outcome, rest: seq<Outcome>, failures: nat, waits: nat)
    ensures var f, w := if Ready(o) then 0 else failures, if Ready(o) then 0 else waits;
            && RefusalsSince([o] + rest, failures) == RefusalsSince(rest, if IsAuthFailure(o) then f + 1 else f)
            && (rest != [] ==> WaitsSince([o] + rest, waits) == WaitsSince(rest, w + 1))
  {
    var all, last := [o] + rest, |rest| - 1;
    if rest == [] {
      assert all[..0] == [];
    } else {
      SinceShifts(o, rest[..last], failures, waits);
      assert all[..|rest|] == [o] + rest[..last];
      assert all[|rest|] == rest[last];
      if last == 0 {
        assert all[..1] == [o];
      }
    }
  }

  /** The reference by its first attempt. */
  lemma ExpectedHead(script: seq<Outcome>, failures: nat, waits: nat, max: real)
    requires script != []
    ensures var o, trace := script[0], Expected(script, failures, waits, max);
            var f, w := if Ready(o) then 0 else failures, if Ready(o) then 0 else waits;
            var first := Answer([o], failures, waits, max);
            && RefusalsSince([o], failures) == (if IsAuthFailure(o) then f + 1 else f)
            && WaitsSince([o], waits) == w && (first.Stop? || first.Wait?)
            && (first.Stop? ==> trace == [Attempt, first])
            && (first.Wait? ==>
                trace == [Attempt, first] + Expected(script[1..], if IsAuthFailure(o) then f + 1 else f, w + 1, max))
  {
    hide Delay;
    assert [script[0]][..0] == [];
  }

  lemma AnswerShifts(o: Outcome, rest: seq<Outcome>, failures: nat, waits: nat, max: real)
    requires rest != []
    ensures var f, w := if Ready(o) then 0 else failures, if Ready(o) then 0 else waits;
            Answer([o] + rest, failures, waits, max) == Answer(rest, if IsAuthFailure(o) then f + 1 else f, w + 1, max)
  {
    SinceShifts(o, rest, failures, waits);
    hide Delay, IsAuthFailure, IsSuperseded, Ready, WaitsSince, RefusalsSince;
    assert ([o] + rest)[|rest|] == rest[|rest| - 1];
  }

  /** Every attempt is answered by the outcomes up to it, with closed forms for the wait and the refusals counted. */
  lemma {:induction false} TraceAt(script: seq<Outcome>, failures: nat, waits: nat, max: real, i: nat)
    requires 2 * i < |Expected(script, failures, waits, max)|
    ensures var trace := Expected(script, failures, waits, max);
            && |trace| % 2 == 0 && i < |script|
            && trace[2 * i] == Attempt && trace[2 * i + 1] == Answer(script[..i + 1], failures, waits, max)
    decreases i
  {
    TraceEven(script, failures, waits, max);
    ExpectedHead(script, failures, waits, max);
    hide Delay, IsAuthFailure, IsSuperseded, Ready, Expected, WaitsSince, RefusalsSince, Answer;
    var o, rest := script[0], script[1..];
    var f, w := if Ready(o) then 0 else failures, if Ready(o) then 0 else waits;
    if i == 0 {
      assert script[..1] == [o];
    } else {
      var f1 := if IsAuthFailure(o) then f + 1 else f;
      TraceEven(rest, f1, w + 1, max);
      TraceAt(rest, f1, w + 1, max, i - 1);
      AnswerShifts(o, rest[..i], failures, waits, max);
      assert script[..i + 1] == [o] + rest[..i];
    }
  }

  lemma {:induction false} TraceEven(script: seq<Outcome>, failures: nat, waits: nat, max: real)
    ensures var n := |Expected(script, failures, waits, max)|;
            n % 2 == 0 && n <= 2 * |script| && (script != [] ==> n > 0)
  {
    hide Delay;
    if script != [] {
      var o := script[0];
      var f, w := if Ready(o) then 0 else failures, if Ready(o) then 0 else waits;
      TraceEven(script[1..], if IsAuthFailure(o) then f + 1 else f, w + 1, max);
    }
  }

  /** A stop is the last action, and only a stop leaves outcomes of the script unused. */
  lemma {:induction false} StopsLast(script: seq<Outcome>, failures: nat, waits: nat, max: real)
    ensures var trace := Expected(script, failures, waits, max);
            && (forall k | 0 <= k < |trace| - 1 :: !trace[k].Stop?)
            && (|trace| < 2 * |script| ==> trace != [] && trace[|trace| - 1].Stop?)
  {
    hide Delay;
    if script != [] {
      var o := script[0];
      var f, w := if Ready(o) then 0 else failures, if Ready(o) then 0 else waits;
      var f1 := if IsAuthFailure(o) then f + 1 else f;
      ExpectedHead(script, failures, waits, max);
      StopsLast(script[1..], f1, w + 1, max);
      hide Expected, Answer, IsAuthFailure, Ready;
    }
  }

  /** Attempts a client makes on a script. */
  function Attempts(script: seq<Outcome>, max: real): nat { |Expected(script, 0, 0, max)| / 2 }

  /** After a session is superseded there is nothing more. */
  lemma NothingAfterSuperseded(script: seq<Outcome>, max: real, i: nat)
    requires i < |script| && i < Attempts(script, max) && IsSuperseded(script[i])
    ensures Attempts(script, max) == i + 1
    ensures Expected(script, 0, 0, max)[2 * i + 1] == Stop(Superseded)
  {
    TraceAt(script, 0, 0, max, i);
    StopsLast(script, 0, 0, max);
    hide Expected;
    assert script[..i + 1][i] == script[i];
  }

  /** Refusals in a stretch of outcomes. */
  function Refusals(outcomes: seq<Outcome>): nat {
    if outcomes == [] then 0
    else Refusals(outcomes[..|outcomes| - 1]) + if IsAuthFailure(outcomes[|outcomes| - 1]) then 1 else 0
  }

  /** No ready after the first of `outcomes`. */
  predicate QuietAfterFirst(outcomes: seq<Outcome>) {
    forall k | 0 < k < |outcomes| :: !Ready(outcomes[k])
  }

  lemma {:induction false} RefusalsAddUp(script: seq<Outcome>, i: nat, j: nat)
    requires i <= j <= |script| && QuietAfterFirst(script[i..j])
    ensures Refusals(script[i..j]) <= RefusalsSince(script[..j], 0)
    decreases j
  {
    if i < j {
      var before := script[i..j - 1];
      assert script[i..j][..j - 1 - i] == before && script[..j][..j - 1] == script[..j - 1];
      assert script[i..j][j - 1 - i] == script[j - 1] == script[..j][j - 1];
      assert forall k | 0 < k < |before| :: before[k] == script[i..j][k];
      hide IsAuthFailure;
      RefusalsAddUp(script, i, j - 1);
      if i == j - 1 {
        assert before == [];
      }
    }
  }

  lemma {:induction false} RefusalsWhileRetrying(script: seq<Outcome>, max: real, j: nat)
    requires j < |script| && j < Attempts(script, max)
    ensures RefusalsSince(script[..j], 0) <= 3
    decreases j
  {
    if j > 0 {
      RefusalsWhileRetrying(script, max, j - 1);
      TraceAt(script, 0, 0, max, j - 1);
      StopsLast(script, 0, 0, max);
      hide Delay, IsAuthFailure, Ready, Expected, WaitsSince;
      assert Answer(script[..j], 0, 0, max) == Expected(script, 0, 0, max)[2 * (j - 1) + 1];
      assert script[..j][..j - 1] == script[..j - 1];
    }
  }

  /**
    However transport failures interleave, at most four authentication failures are
    met between one ready, or the start, and the next.
   */
  lemma AtMostFourRefusals(script: seq<Outcome>, max: real, i: nat, j: nat)
    requires i <= j <= |script| && j <= Attempts(script, max) && QuietAfterFirst(script[i..j])
    ensures Refusals(script[i..j]) <= 4
  {
    if j > 0 {
      RefusalsWhileRetrying(script, max, j - 1);
      RefusalsAddUp(script, i, j);
      hide Delay, IsAuthFailure, Ready, Expected, Attempts, QuietAfterFirst;
      assert script[..j][..j - 1] == script[..j - 1];
    }
  }

  /** The k-th wait is 2^(k-1) seconds capped at the maximum, counted from the start or the last ready. */
  lemma WaitsDouble(script: seq<Outcome>, max: real, i: nat)
    requires i < |script| && i < Attempts(script, max)
    ensures var action := Expected(script, 0, 0, max)[2 * i + 1];
            && (action.Wait? ==> action.seconds == MinReal(Pow2(WaitsSince(script[..i + 1], 0)) as real, max))
            && (action == Stop(MalformedToken) <==> Malformed(script[i]))
            && (action == Stop(Superseded) <==> IsSuperseded(script[i]))
            && (action == Stop(Unauthorized) <==>
                !IsSuperseded(script[i]) && IsAuthFailure(script[i]) && RefusalsSince(script[..i + 1], 0) > 3)
  {
    TraceAt(script, 0, 0, max, i);
    hide Expected, IsSuperseded, IsAuthFailure, RefusalsSince, WaitsSince, Pow2;
    assert script[..i + 1][i] == script[i];
  }

  /** The outcomes by name and number: what resets the counters, what refuses, and what stops. */
  lemma OutcomesMean(o: Outcome)
    ensures Ready(o) <==> exists code :: o == TokenGiven(Opened(true, code))
    ensures IsSuperseded(o) <==> o == TokenGiven(Opened(true, 4409)) || o == TokenGiven(Opened(false, 4409))
    ensures IsAuthFailure(o) <==>
              || o == TokenRefused || o == TokenGiven(HandshakeRefused)
              || o == TokenGiven(Opened(true, 4401)) || o == TokenGiven(Opened(false, 4401))
    ensures Malformed(o) <==> o == TokenUnreadable || exists link :: o == TokenMissing(link)
  {
    if Ready(o) {
      assert o == TokenGiven(Opened(true, o.link.code));
    }
    if o.TokenMissing? {
      assert o == TokenMissing(o.link);
    }
  }

  /** Node takes an unreadable reply for a failed token, and tries an absent token like any other. */
  lemma NodeTakesFor(script: seq<Outcome>, i: nat, link: Link)
    requires i < |script|
    ensures script[i] == TokenUnreadable ==> NodeScript(script)[i] == TokenFailed
    ensures script[i] == TokenMissing(link) ==> NodeScript(script)[i] == TokenGiven(link)
    ensures !Malformed(script[i]) ==> NodeScript(script)[i] == script[i]
  {}

  /** A wait never exceeds the maximum, and is the full power of two up to there. */
  lemma WaitsAreCapped(script: seq<Outcome>, max: real, i: nat)
    requires i < |script| && i < Attempts(script, max) && Expected(script, 0, 0, max)[2 * i + 1].Wait?
    ensures var seconds, full := Expected(script, 0, 0, max)[2 * i + 1].seconds, Pow2(WaitsSince(script[..i + 1], 0));
            && seconds <= max
            && (full as real <= max ==> seconds == full as real)
            && (full as real > max ==> seconds == max)
  {
    WaitsDouble(script, max, i);
    hide Expected, WaitsSince, Pow2;
  }

  // ------------------------------------------------------------------ the two together

  /** None of the attempts that Node makes is answered with a malformed token. */
  predicate WellFormed(script: seq<Outcome>, failures: nat, waits: nat, max: real) {
    forall i | 0 <= i < |script| && 2 * i < |Expected(NodeScript(script), failures, waits, max)| ::
      !Malformed(script[i])
  }

  lemma NodeScriptTail(script: seq<Outcome>)
    requires script != []
    ensures NodeScript(script)[1..] == NodeScript(script[1..]) && NodeScript(script)[0] == NodeReads(script[0])
  {}

  /** Counters after one attempt that was not malformed. */
  function NextFailures(o: Outcome, failures: nat): nat {
    (if Ready(o) then 0 else failures) + if IsAuthFailure(o) then 1 else 0
  }

  function NextWaits(o: Outcome, waits: nat): nat { (if Ready(o) then 0 else waits) + 1 }

  lemma HeadAndRest(script: seq<Outcome>, failures: nat, waits: nat, max: real)
    requires script != []
    ensures var o, first := script[0], Answer([script[0]], failures, waits, max);
            && (first.Stop? || first.Wait?)
            && Expected(script, failures, waits, max)
               == [Attempt, first] + if first.Stop? then []
                                     else Expected(script[1..], NextFailures(o, failures), NextWaits(o, waits), max)
  {
    ExpectedHead(script, failures, waits, max);
    hide Expected, Delay, Answer, IsAuthFailure, Ready;
  }

  /** Both readings of a script whose first reply is well-formed start alike. */
  lemma SameHead(script: seq<Outcome>, failures: nat, waits: nat, max: real)
    requires script != [] && !Malformed(script[0])
    ensures var o, first := script[0], Answer([script[0]], failures, waits, max);
            var f, w := NextFailures(o, failures), NextWaits(o, waits);
            && (first.Stop? || first.Wait?)
            && Expected(script, failures, waits, max)
               == [Attempt, first] + (if first.Stop? then [] else Expected(script[1..], f, w, max))
            && Expected(NodeScript(script), failures, waits, max)
               == [Attempt, first] + (if first.Stop? then [] else Expected(NodeScript(script[1..]), f, w, max))
  {
    NodeScriptTail(script);
    assert NodeReads(script[0]) == script[0];
    hide Expected, Answer, NodeReads, NodeScript, NextFailures, NextWaits;
    HeadAndRest(script, failures, waits, max);
    HeadAndRest(NodeScript(script), failures, waits, max);
  }

  lemma {:induction false} SameIfWellFormed(script: seq<Outcome>, failures: nat, waits: nat, max: real)
    requires WellFormed(script, failures, waits, max)
    ensures Expected(script, failures, waits, max) == Expected(NodeScript(script), failures, waits, max)
  {
    if script != [] {
      var o, rest := script[0], script[1..];
      TraceEven(NodeScript(script), failures, waits, max);
      SameHead(script, failures, waits, max);
      if Answer([o], failures, waits, max).Wait? {
        assert WellFormed(rest, NextFailures(o, failures), NextWaits(o, waits), max) by {
          assert forall i | 0 <= i < |rest| :: rest[i] == script[i + 1];
          hide Expected, Answer;
        }
        hide WellFormed;
        SameIfWellFormed(rest, NextFailures(o, failures), NextWaits(o, waits), max);
      }
      hide Expected, Answer;
    }
  }

  lemma MalformedHead(script: seq<Outcome>, failures: nat, waits: nat, max: real)
    requires script != [] && Malformed(script[0])
    ensures var node := Expected(NodeScript(script), failures, waits, max);
            && 1 < |node| && node[1] != Stop(MalformedToken)
            && Expected(script, failures, waits, max) == node[..1] + [Stop(MalformedToken)]
  {
    NodeScriptTail(script);
    HeadAndRest(NodeScript(script), failures, waits, max);
    hide NodeScript, Delay;
  }

  /** Up to the first malformed reply the two do the same; there Python ends with an exception and Node does not. */
  lemma {:induction false} PartAtMalformed(script: seq<Outcome>, failures: nat, waits: nat, max: real, m: nat)
    requires m < |script| && Malformed(script[m]) && forall i | 0 <= i < m :: !Malformed(script[i])
    requires 2 * m < |Expected(NodeScript(script), failures, waits, max)|
    ensures var node := Expected(NodeScript(script), failures, waits, max);
            && 2 * m + 1 < |node| && node[2 * m + 1] != Stop(MalformedToken)
            && Expected(script, failures, waits, max) == node[..2 * m + 1] + [Stop(MalformedToken)]
    decreases m
  {
    if m == 0 {
      MalformedHead(script, failures, waits, max);
    } else {
      var o, rest := script[0], script[1..];
      var f, w, first := NextFailures(o, failures), NextWaits(o, waits), Answer([script[0]], failures, waits, max);
      SameHead(script, failures, waits, max);
      assert forall i | 0 <= i < |rest| :: rest[i] == script[i + 1];
      hide Expected, Answer, NodeScript, NextFailures, NextWaits, Malformed;
      PartAtMalformed(rest, f, w, max, m - 1);
      PrefixShifts([Attempt, first], Expected(NodeScript(rest), f, w, max), 2 * m - 1, Stop(MalformedToken));
    }
  }

  lemma PrefixShifts(head: seq<Action>, rest: seq<Action>, n: nat, last: Action)
    requires n < |rest|
    ensures (head + rest)[|head| + n] == rest[n]
    ensures head + (rest[..n] + [last]) == (head + rest)[..|head| + n] + [last]
  {}

  lemma {:induction false} FirstMalformed(script: seq<Outcome>, k: nat) returns (m: nat)
    requires k < |script| && Malformed(script[k])
    ensures m <= k && Malformed(script[m]) && forall i | 0 <= i < m :: !Malformed(script[i])
  {
    m := k;
    if i :| 0 <= i < k && Malformed(script[i]) {
      m := FirstMalformed(script, i);
    }
  }

  /** Attempt `m` got the first malformed token; there Python ends with an exception and Node does not. */
  predicate PartsAt(script: seq<Outcome>, python: seq<Action>, node: seq<Action>, m: nat) {
    && m < |script| && Malformed(script[m]) && (forall i | 0 <= i < m :: !Malformed(script[i]))
    && 2 * m + 1 < |node| && node[2 * m + 1] != Stop(MalformedToken)
    && python == node[..2 * m + 1] + [Stop(MalformedToken)]
  }

  /**
    Both clients on one script: they do the same exactly if none of the token replies that
    Node meets is malformed. At the first one that is, Python ends, having done the same till then.
   */
  method BothClients(script: seq<Outcome>, maxSeconds: real) returns (python: seq<Action>, node: seq<Action>)
    requires maxSeconds >= 0.0
    ensures python == Expected(script, 0, 0, maxSeconds) && node == Expected(NodeScript(script), 0, 0, maxSeconds)
    ensures python == node <==> WellFormed(script, 0, 0, maxSeconds)
    ensures python != node ==> exists m: nat :: PartsAt(script, python, node, m)
  {
    python := Stream(script, maxSeconds);
    var client := new GatewayClient(1000.0 * maxSeconds);
    client.Start(script);
    node := client.trace;
    hide Expected;
    if WellFormed(script, 0, 0, maxSeconds) {
      SameIfWellFormed(script, 0, 0, maxSeconds);
    } else {
      ghost var k :| 0 <= k < |script| && 2 * k < |node| && Malformed(script[k]);
      ghost var m := FirstMalformed(script, k);
      PartAtMalformed(script, 0, 0, maxSeconds, m);
      assert PartsAt(script, python, node, m);
    }
  }
}
