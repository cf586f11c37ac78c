/**
 * Heartbeat liveness detection: a receiver that counts consecutive missed
 * HEARTBEAT messages and reports the link as "Connected" until five in a row
 * have been missed.
 */
module Heartbeat {
  import opened Wrappers
  import opened Mavlink

  /** Consecutive misses at which the link is declared down. */
  const MAX_MISSED: nat := 5

  const CONNECTED: string := "Connected"
  const DISCONNECTED: string := "Disconnected"

  /** A call the receiver makes on its logger. */
  datatype LogEvent = Info(text: string) | Error(text: string)

  /** The receiver's two fields, as one value. */
  datatype Liveness = Liveness(missed: nat, connected: bool)

  /** The state a new receiver starts in. */
  const Initial: Liveness := Liveness(0, false)

  /** What one tick produces: the next state, the status returned and the log calls made. */
  datatype Tick = Tick(next: Liveness, status: string, events: seq<LogEvent>)

  /** One tick of the receiver, given what the receive with a one-second timeout yielded. */
  function Step(s: Liveness, received: Option<Message>): (t: Tick)
    // the status is one of exactly two strings, and it is "Disconnected"
    // exactly when the counter has reached the threshold
    ensures t.status == CONNECTED || t.status == DISCONNECTED
    ensures t.status == DISCONNECTED <==> t.next.missed >= MAX_MISSED
    // a heartbeat resets the counter and connects
    ensures received.Some? ==> t.next == Liveness(0, true) && t.status == CONNECTED
    // a miss counts exactly one more
    ensures received.None? ==> t.next.missed == s.missed + 1
    // inside the grace window a miss reports "Connected" and leaves the flag alone
    ensures received.None? && s.missed + 1 < MAX_MISSED ==>
              t.status == CONNECTED && t.next.connected == s.connected
    // at or past the threshold a miss reports "Disconnected" and disconnects
    ensures received.None? && s.missed + 1 >= MAX_MISSED ==>
              t.status == DISCONNECTED && !t.next.connected
    // the logger is called only on a change of the flag, at most once per tick
    ensures |t.events| <= 1
    ensures t.events == [Info(CONNECTED)] <==> !s.connected && t.next.connected
    ensures t.events == [Error(DISCONNECTED)] <==> s.connected && !t.next.connected
    ensures t.events == [] <==> s.connected == t.next.connected
  {
    if received.Some? then
      Tick(Liveness(0, true), CONNECTED, if s.connected then [] else [Info(CONNECTED)])
    else
      var missed := s.missed + 1;
      if missed >= MAX_MISSED then
        Tick(Liveness(missed, false), DISCONNECTED, if s.connected then [Error(DISCONNECTED)] else [])
      else
        Tick(Liveness(missed, s.connected), CONNECTED, [])
  }

  /** The state after one tick per element of `inputs`, in order. */
  function After(s: Liveness, inputs: seq<Option<Message>>): Liveness
    decreases |inputs|
  {
    if inputs == [] then s
    else Step(After(s, inputs[..|inputs| - 1]), inputs[|inputs| - 1]).next
  }

  /** The status returned by the last of the ticks in `inputs`. */
  function LastStatus(s: Liveness, inputs: seq<Option<Message>>): string
    requires inputs != []
  {
    Step(After(s, inputs[..|inputs| - 1]), inputs[|inputs| - 1]).status
  }

  /** Everything the ticks in `inputs` write to the logger, in order. */
  function Log(s: Liveness, inputs: seq<Option<Message>>): seq<LogEvent>
    decreases |inputs|
  {
    if inputs == [] then []
    else Log(s, inputs[..|inputs| - 1]) + Step(After(s, inputs[..|inputs| - 1]), inputs[|inputs| - 1]).events
  }

  /** Whether any tick of `inputs` received a heartbeat. */
  function HeardAny(inputs: seq<Option<Message>>): bool
    decreases |inputs|
  {
    inputs != [] && (inputs[|inputs| - 1].Some? || HeardAny(inputs[..|inputs| - 1]))
  }

  /** The number of missed ticks at the end of `inputs`, since its last heartbeat. */
  function TrailingMisses(inputs: seq<Option<Message>>): nat
    decreases |inputs|
  {
    if inputs == [] || inputs[|inputs| - 1].Some? then 0
    else 1 + TrailingMisses(inputs[..|inputs| - 1])
  }

  /** `n` ticks in a row that all time out. */
  function Silence(n: nat): (q: seq<Option<Message>>)
    ensures |q| == n
  {
    seq(n, _ => None)
  }

  /**
   * A receiver is connected only while its counter is below the threshold:
   * true of the initial state and of every state a tick produces.
   */
  predicate Coherent(s: Liveness)
  {
    s.connected ==> s.missed < MAX_MISSED
  }

  lemma StepCoherent(s: Liveness, received: Option<Message>)
    ensures Coherent(Step(s, received).next)
  {
  }

  /**
   * Over any run of ticks, the counter is the length of the current streak
   * of misses, counted on from the starting counter while no heartbeat has
   * come yet.
   */
  lemma {:induction false} AfterMissed(s: Liveness, inputs: seq<Option<Message>>)
    ensures After(s, inputs).missed ==
              if HeardAny(inputs) then TrailingMisses(inputs) else s.missed + |inputs|
    decreases |inputs|
  {
    if inputs != [] {
      var prefix, last := inputs[..|inputs| - 1], inputs[|inputs| - 1];
      AfterMissed(s, prefix);
      if last.None? {
        assert HeardAny(inputs) == HeardAny(prefix);
        assert TrailingMisses(inputs) == TrailingMisses(prefix) + 1;
      }
    }
  }

  /**
   * Over any run of ticks from a coherent state, the flag is set exactly
   * when a heartbeat has come and the streak of misses since it is shorter
   * than the threshold, or, with no heartbeat yet, when the starting flag
   * was set and the counter has stayed below the threshold.
   */
  lemma {:induction false} AfterConnected(s: Liveness, inputs: seq<Option<Message>>)
    requires Coherent(s)
    ensures After(s, inputs).connected ==
              if HeardAny(inputs) then TrailingMisses(inputs) < MAX_MISSED
              else s.connected && s.missed + |inputs| < MAX_MISSED
    decreases |inputs|
  {
    if inputs != [] {
      var prefix, last := inputs[..|inputs| - 1], inputs[|inputs| - 1];
      AfterConnected(s, prefix);
      AfterMissed(s, prefix);
      if last.None? {
        assert HeardAny(inputs) == HeardAny(prefix);
        assert TrailingMisses(inputs) == TrailingMisses(prefix) + 1;
      }
    }
  }

  /**
   * The grace window: a tick reports "Disconnected" exactly when it ends a
   * streak of at least five misses since the last heartbeat (from the
   * initial state, with no heartbeat yet, the first five ticks count).
   */
  lemma GraceWindow(s: Liveness, inputs: seq<Option<Message>>)
    requires inputs != []
    ensures LastStatus(s, inputs) == DISCONNECTED <==>
              (if HeardAny(inputs) then TrailingMisses(inputs) else s.missed + |inputs|) >= MAX_MISSED
  {
    AfterMissed(s, inputs);
  }

  lemma {:induction false} SilenceHearsNothing(n: nat)
    ensures !HeardAny(Silence(n))
  {
    if n > 0 {
      assert Silence(n)[..n - 1] == Silence(n - 1);
      SilenceHearsNothing(n - 1);
    }
  }

  /**
   * After a reset (the initial state, or any tick that received a
   * heartbeat), the n-th consecutive miss reports "Disconnected" exactly
   * when n is at least five, and the receiver is then disconnected.
   */
  lemma MissStreak(s: Liveness, n: nat)
    requires s.missed == 0
    requires n >= 1
    ensures LastStatus(s, Silence(n)) == DISCONNECTED <==> n >= MAX_MISSED
    ensures n >= MAX_MISSED ==> !After(s, Silence(n)).connected
    ensures n < MAX_MISSED ==> After(s, Silence(n)).connected == s.connected
  {
    SilenceHearsNothing(n);
    AfterMissed(s, Silence(n));
    AfterConnected(s, Silence(n));
  }

  /**
   * The log of a receiver alternates "Connected", "Disconnected", ... and
   * its flag is set exactly when the log has an odd number of entries.
   */
  ghost predicate LogAgrees(s: Liveness, log: seq<LogEvent>)
  {
    && (forall i | 0 <= i < |log| :: log[i] == if i % 2 == 0 then Info(CONNECTED) else Error(DISCONNECTED))
    && (s.connected <==> |log| % 2 == 1)
  }

  /** Each tick keeps the log alternating and in step with the flag. */
  lemma StepKeepsLog(s: Liveness, log: seq<LogEvent>, received: Option<Message>)
    requires LogAgrees(s, log)
    ensures LogAgrees(Step(s, received).next, log + Step(s, received).events)
  {
  }

  /**
   * From the initial state, whatever the ticks receive, the log alternates
   * between the two transitions, starting with "Connected".
   */
  lemma {:induction false} LogAlternates(inputs: seq<Option<Message>>)
    ensures LogAgrees(After(Initial, inputs), Log(Initial, inputs))
    decreases |inputs|
  {
    if inputs != [] {
      var prefix := inputs[..|inputs| - 1];
      LogAlternates(prefix);
      StepKeepsLog(After(Initial, prefix), Log(Initial, prefix), inputs[|inputs| - 1]);
    }
  }

  /** The receiver itself: its counter, its flag, and what it has logged. */
  class HeartbeatReceiver {
    var missedHeartbeats: nat
    var connected: bool
    var log: seq<LogEvent>

    function State(): Liveness
      reads this
    {
      Liveness(missedHeartbeats, connected)
    }

    ghost predicate Valid()
      reads this
    {
      Coherent(State()) && LogAgrees(State(), log)
    }

    constructor ()
      ensures Valid()
      ensures State() == Initial && log == []
    {
      missedHeartbeats := 0;
      connected := false;
      log := [];
    }

    /** One tick, given the result of the receive (a message, or `None` on timeout). */
    method Run(received: Option<Message>) returns (status: string)
      requires Valid()
      modifies this
      ensures Valid()
      ensures State() == Step(old(State()), received).next
      ensures status == Step(old(State()), received).status
      ensures log == old(log) + Step(old(State()), received).events
    {
      StepKeepsLog(State(), log, received);
      StepCoherent(State(), received);
      if received.Some? {
        missedHeartbeats := 0;
        if !connected {
          connected := true;
          log := log + [Info(CONNECTED)];
        }
        return CONNECTED;
      }
      missedHeartbeats := missedHeartbeats + 1;
      if missedHeartbeats >= MAX_MISSED {
        if connected {
          connected := false;
          log := log + [Error(DISCONNECTED)];
        }
        return DISCONNECTED;
      }
      return CONNECTED;
    }
  }
}
