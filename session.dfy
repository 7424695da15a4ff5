/**
 * The connection scope `_mpd_client`: connect with a bounded number of
 * attempts, sleeping one second after each refused attempt but the last,
 * hand the connected client to the body, and disconnect it on the way out
 * whether the body returns or raises.
 *
 * The daemon is replaced by a script of connect outcomes, one per attempt,
 * and the body by whether it returns or raises. What the scope does is
 * recorded as a trace of events.
 */
module MpdSession {
  import opened Traces

  /** How many times connecting is tried before a refusal is final. */
  const Attempts: nat := 3

  /** What one `connect` call does. */
  datatype ConnectOutcome = Refused | OtherError | Connected

  /** What the body of the `with` block does with the client. */
  datatype BodyOutcome = Returns | Raises

  /** The exception that leaves the scope. */
  datatype Error =
    | ConnectionRefused   // the last attempt was refused and is re-raised
    | ConnectError        // any other connect failure, never caught
    | BodyError           // raised by the body, after the client is disconnected

  datatype Outcome = Completed | Raised(error: Error)

  /** What the scope does, in order; attempts are numbered from 1. */
  datatype Event = Attempt(n: nat) | Sleep | Yield | Disconnect

  datatype Run = Run(trace: seq<Event>, outcome: Outcome)

  /** The first `n` attempts, each refused and followed by a one-second sleep. */
  function Backoff(n: nat): (t: seq<Event>)
    ensures |t| == 2 * n
    ensures forall i :: 0 <= i < n ==> t[2 * i] == Attempt(i + 1) && t[2 * i + 1] == Sleep
  {
    if n == 0 then [] else Backoff(n - 1) + [Attempt(n), Sleep]
  }

  /**
   * The 0-based index of the first attempt, from `i` on, that is not refused;
   * `Attempts` when every remaining attempt is refused.
   */
  function SettledFrom(script: seq<ConnectOutcome>, i: nat): (k: nat)
    requires |script| >= Attempts && i <= Attempts
    ensures i <= k <= Attempts
    ensures forall j :: i <= j < k ==> script[j] == Refused
    ensures k < Attempts ==> script[k] != Refused
    decreases Attempts - i
  {
    if i == Attempts || script[i] != Refused then i else SettledFrom(script, i + 1)
  }

  /**
   * What the scope does, stated as a whole: the attempts up to the first one
   * that is not refused (or all of them), a sleep between consecutive
   * attempts, then the client is yielded and disconnected if that attempt
   * connected, and otherwise the attempt's error leaves the scope.
   */
  function Session(script: seq<ConnectOutcome>, body: BodyOutcome): (r: Run)
    requires |script| >= Attempts
    ensures r.outcome == Raised(ConnectionRefused) <==> forall j :: 0 <= j < Attempts ==> script[j] == Refused
    ensures r.outcome == Raised(ConnectError) <==>
      exists k :: 0 <= k < Attempts && script[k] == OtherError && forall j :: 0 <= j < k ==> script[j] == Refused
  {
    var k := SettledFrom(script, 0);
    var last := if k == Attempts then Attempts - 1 else k;
    var connecting := Backoff(last) + [Attempt(last + 1)];
    if k == Attempts then
      Run(connecting, Raised(ConnectionRefused))
    else if script[k] == OtherError then
      Run(connecting, Raised(ConnectError))
    else
      Run(connecting + [Yield, Disconnect],
          if body == Returns then Completed else Raised(BodyError))
  }

  /** The scope itself: a loop over the attempts with a `break` on success. */
  method MpdClient(script: seq<ConnectOutcome>, body: BodyOutcome)
    returns (trace: seq<Event>, outcome: Outcome)
    requires |script| >= Attempts
    ensures Run(trace, outcome) == Session(script, body)
  {
    trace := [];
    for attempt := 1 to Attempts + 1
      invariant attempt <= Attempts
      invariant trace == Backoff(attempt - 1)
      invariant forall j :: 0 <= j < attempt - 1 ==> script[j] == Refused
    {
      trace := trace + [Attempt(attempt)];
      match script[attempt - 1]
      case Connected =>
        break;
      case OtherError =>
        outcome := Raised(ConnectError);
        return;
      case Refused =>
        if attempt == Attempts {
          outcome := Raised(ConnectionRefused);
          return;
        }
        trace := trace + [Sleep];
    }
    // `try: yield client` / `finally: client.disconnect()`
    trace := trace + [Yield];
    if body == Raises {
      outcome := Raised(BodyError);
    } else {
      outcome := Completed;
    }
    trace := trace + [Disconnect];
  }

  /** How many connect attempts a trace records. */
  function AttemptsMade(t: seq<Event>): nat {
    if |t| == 0 then 0 else (if t[0].Attempt? then 1 else 0) + AttemptsMade(t[1..])
  }

  lemma {:induction false} AttemptsAppend(a: seq<Event>, b: seq<Event>)
    ensures AttemptsMade(a + b) == AttemptsMade(a) + AttemptsMade(b)
  {
    if |a| > 0 {
      assert (a + b)[1..] == a[1..] + b;
      AttemptsAppend(a[1..], b);
    } else {
      assert a + b == b;
    }
  }

  /** `n` refused attempts hold `n` attempts, `n` sleeps, and no yield or disconnect. */
  lemma {:induction false} BackoffCounts(n: nat)
    ensures AttemptsMade(Backoff(n)) == n
    ensures Count(Backoff(n), Sleep) == n
    ensures Count(Backoff(n), Yield) == 0 && Count(Backoff(n), Disconnect) == 0
  {
    if n > 0 {
      BackoffCounts(n - 1);
      AttemptsAppend(Backoff(n - 1), [Attempt(n), Sleep]);
      CountAppend(Backoff(n - 1), [Attempt(n), Sleep], Sleep);
      CountAppend(Backoff(n - 1), [Attempt(n), Sleep], Yield);
      CountAppend(Backoff(n - 1), [Attempt(n), Sleep], Disconnect);
      assert [Attempt(n), Sleep][1..] == [Sleep];
      assert [Sleep][1..] == [];
    }
  }

  /** The events up to and including the attempt that settles the scope. */
  lemma ConnectingCounts(last: nat)
    ensures AttemptsMade(Backoff(last) + [Attempt(last + 1)]) == last + 1
    ensures Count(Backoff(last) + [Attempt(last + 1)], Sleep) == last
    ensures Count(Backoff(last) + [Attempt(last + 1)], Yield) == 0
    ensures Count(Backoff(last) + [Attempt(last + 1)], Disconnect) == 0
  {
    BackoffCounts(last);
    AttemptsAppend(Backoff(last), [Attempt(last + 1)]);
    CountAppend(Backoff(last), [Attempt(last + 1)], Sleep);
    CountAppend(Backoff(last), [Attempt(last + 1)], Yield);
    CountAppend(Backoff(last), [Attempt(last + 1)], Disconnect);
  }

  /**
   * At most `Attempts` connects are made, and exactly one sleep separates
   * each attempt from the next: every attempt but the last is followed by a
   * sleep. A client is yielded at most once and is disconnected exactly when
   * it was yielded, whether the body returns or raises, and that disconnect
   * is the last thing the scope does.
   */
  lemma SessionCounts(script: seq<ConnectOutcome>, body: BodyOutcome)
    requires |script| >= Attempts
    ensures var t := Session(script, body).trace;
      1 <= AttemptsMade(t) <= Attempts
      && Count(t, Sleep) == AttemptsMade(t) - 1
      && Count(t, Yield) <= 1
      && Count(t, Disconnect) == Count(t, Yield)
      && (Count(t, Yield) == 1 ==> |t| >= 2 && t[|t| - 2..] == [Yield, Disconnect])
  {
    var k := SettledFrom(script, 0);
    var last := if k == Attempts then Attempts - 1 else k;
    var connecting := Backoff(last) + [Attempt(last + 1)];
    ConnectingCounts(last);
    if Session(script, body).trace != connecting {
      assert Session(script, body).trace == connecting + [Yield, Disconnect];
      ReleaseCounts(connecting);
    }
  }

  /** Yielding and then disconnecting adds one yield, one disconnect and nothing else. */
  lemma ReleaseCounts(t: seq<Event>)
    ensures AttemptsMade(t + [Yield, Disconnect]) == AttemptsMade(t)
    ensures Count(t + [Yield, Disconnect], Sleep) == Count(t, Sleep)
    ensures Count(t + [Yield, Disconnect], Yield) == Count(t, Yield) + 1
    ensures Count(t + [Yield, Disconnect], Disconnect) == Count(t, Disconnect) + 1
  {
    var tail := [Yield, Disconnect];
    assert tail[1..] == [Disconnect];
    assert tail[1..][1..] == [];
    AttemptsAppend(t, tail);
    CountAppend(t, tail, Sleep);
    CountAppend(t, tail, Yield);
    CountAppend(t, tail, Disconnect);
  }

  /**
   * The attempt that settles the scope: if it connects, the client is
   * yielded and the body's outcome leaves the scope; otherwise its error
   * leaves the scope and nothing is yielded.
   */
  lemma SessionOutcome(script: seq<ConnectOutcome>, body: BodyOutcome)
    requires |script| >= Attempts
    ensures var r := Session(script, body);
      (Yield in r.trace <==> exists k :: 0 <= k < Attempts && ConnectsAt(script, k))
      && (Yield in r.trace ==> (r.outcome == Completed <==> body == Returns))
      && (Yield !in r.trace ==> r.outcome.Raised? && r.outcome.error != BodyError)
  {
    var k := SettledFrom(script, 0);
    var last := if k == Attempts then Attempts - 1 else k;
    BackoffCounts(last);
    CountPositive(Backoff(last), Yield);
    assert Yield !in Backoff(last) + [Attempt(last + 1)];
    if k < Attempts && script[k] == Connected {
      assert ConnectsAt(script, k);
    }
    forall c | 0 <= c < Attempts && ConnectsAt(script, c)
      ensures c == k
    {
    }
  }

  /** Attempt `k` (0-based) connects after every earlier attempt was refused. */
  predicate ConnectsAt(script: seq<ConnectOutcome>, k: nat)
    requires k < |script|
  {
    script[k] == Connected && forall j :: 0 <= j < k ==> script[j] == Refused
  }

  /** Refused, refused, connected: two sleeps, then the client is yielded and disconnected once. */
  lemma RetryThenConnect(script: seq<ConnectOutcome>, body: BodyOutcome)
    requires |script| >= Attempts && script[..Attempts] == [Refused, Refused, Connected]
    ensures Session(script, body).trace
         == [Attempt(1), Sleep, Attempt(2), Sleep, Attempt(3), Yield, Disconnect]
  {
  }

  /**
   * Three refusals: three attempts with two sleeps between them, then
   * `ConnectionRefusedError` leaves the scope; nothing is yielded and
   * nothing is disconnected.
   */
  lemma AllRefused(script: seq<ConnectOutcome>, body: BodyOutcome)
    requires |script| >= Attempts
    requires forall j :: 0 <= j < Attempts ==> script[j] == Refused
    ensures Session(script, body) == Run([Attempt(1), Sleep, Attempt(2), Sleep, Attempt(3)], Raised(ConnectionRefused))
  {
  }

  /**
   * A connect error other than a refusal ends the scope at once: no sleep
   * after that attempt, no further attempt, nothing yielded.
   */
  lemma OtherErrorPropagates(script: seq<ConnectOutcome>, body: BodyOutcome, k: nat)
    requires |script| >= Attempts && k < Attempts
    requires forall j :: 0 <= j < k ==> script[j] == Refused
    requires script[k] == OtherError
    ensures Session(script, body) == Run(Backoff(k) + [Attempt(k + 1)], Raised(ConnectError))
    ensures k == 0 ==> Session(script, body).trace == [Attempt(1)]
  {
  }
}
