/**
 * Telemetry fusion: keeps the latest LOCAL_POSITION_NED and the latest
 * ATTITUDE, and once both have arrived builds one combined record per
 * received message.
 */
module Telemetry {
  import opened Wrappers
  import opened Mavlink

  /** The fused record handed on to the decision logic. */
  datatype TelemetryData = TelemetryData(
    timeSinceBoot: int,
    x: real, y: real, z: real,
    xVelocity: real, yVelocity: real, zVelocity: real,
    roll: real, pitch: real, yaw: real,
    rollSpeed: real, pitchSpeed: real, yawSpeed: real)

  /** The two slots of a fuser, as one value. */
  datatype Slots = Slots(position: Option<LocalPositionNed>, attitude: Option<Attitude>)

  /** The slots of a new fuser. */
  const Empty: Slots := Slots(None, None)

  /** What one tick produces: the new slots and the record returned, if any. */
  datatype Tick = Tick(slots: Slots, output: Option<TelemetryData>)

  function Max(a: int, b: int): int
  {
    if a >= b then a else b
  }

  /**
   * The record built from a position and an attitude: the later of the two
   * boot times, the position and velocity of the one, the angles and rates
   * of the other.
   */
  function Fuse(p: LocalPositionNed, a: Attitude): (d: TelemetryData)
    ensures d.timeSinceBoot >= p.timeBootMs && d.timeSinceBoot >= a.timeBootMs
    ensures d.timeSinceBoot == p.timeBootMs || d.timeSinceBoot == a.timeBootMs
    ensures (d.x, d.y, d.z, d.xVelocity, d.yVelocity, d.zVelocity) == (p.x, p.y, p.z, p.vx, p.vy, p.vz)
    ensures (d.roll, d.pitch, d.yaw, d.rollSpeed, d.pitchSpeed, d.yawSpeed)
            == (a.roll, a.pitch, a.yaw, a.rollspeed, a.pitchspeed, a.yawspeed)
  {
    TelemetryData(
      Max(p.timeBootMs, a.timeBootMs),
      p.x, p.y, p.z, p.vx, p.vy, p.vz,
      a.roll, a.pitch, a.yaw, a.rollspeed, a.pitchspeed, a.yawspeed)
  }

  /** One tick of the fuser, given what the receive with a one-second timeout yielded. */
  function Step(s: Slots, received: Option<Message>): (t: Tick)
    // a timeout returns nothing and touches no slot
    ensures received.None? ==> t == Tick(s, None)
    // each message overwrites its own slot only; any other message neither
    ensures received.Some? && received.value.LocalPositionNedMsg? ==>
              t.slots == Slots(Some(received.value.position), s.attitude)
    ensures received.Some? && received.value.AttitudeMsg? ==>
              t.slots == Slots(s.position, Some(received.value.attitude))
    ensures received.Some? && received.value.HeartbeatMsg? ==> t.slots == s
    // a slot once filled stays filled
    ensures s.position.Some? ==> t.slots.position.Some?
    ensures s.attitude.Some? ==> t.slots.attitude.Some?
    // after a message, a record comes back exactly when both slots are filled,
    // and it is built from what they now hold
    ensures received.Some? ==>
              (t.output.Some? <==> t.slots.position.Some? && t.slots.attitude.Some?)
    ensures t.output.Some? ==>
              t.slots.position.Some? && t.slots.attitude.Some? &&
              t.output.value == Fuse(t.slots.position.value, t.slots.attitude.value)
  {
    match received
    case None => Tick(s, None)
    case Some(msg) =>
      var slots := match msg
        case LocalPositionNedMsg(p) => s.(position := Some(p))
        case AttitudeMsg(a) => s.(attitude := Some(a))
        case HeartbeatMsg => s;
      if slots.position.Some? && slots.attitude.Some? then
        Tick(slots, Some(Fuse(slots.position.value, slots.attitude.value)))
      else
        Tick(slots, None)
  }

  /** The slots after one tick per element of `inputs`, in order. */
  function After(s: Slots, inputs: seq<Option<Message>>): Slots
    decreases |inputs|
  {
    if inputs == [] then s
    else Step(After(s, inputs[..|inputs| - 1]), inputs[|inputs| - 1]).slots
  }

  /** What the last of the ticks in `inputs` returned. */
  function LastOutput(s: Slots, inputs: seq<Option<Message>>): Option<TelemetryData>
    requires inputs != []
  {
    Step(After(s, inputs[..|inputs| - 1]), inputs[|inputs| - 1]).output
  }

  /** The most recent LOCAL_POSITION_NED among `inputs`, if any. */
  function LatestPosition(inputs: seq<Option<Message>>): Option<LocalPositionNed>
    decreases |inputs|
  {
    if inputs == [] then None
    else
      var last := inputs[|inputs| - 1];
      if last.Some? && last.value.LocalPositionNedMsg? then Some(last.value.position)
      else LatestPosition(inputs[..|inputs| - 1])
  }

  /** The most recent ATTITUDE among `inputs`, if any. */
  function LatestAttitude(inputs: seq<Option<Message>>): Option<Attitude>
    decreases |inputs|
  {
    if inputs == [] then None
    else
      var last := inputs[|inputs| - 1];
      if last.Some? && last.value.AttitudeMsg? then Some(last.value.attitude)
      else LatestAttitude(inputs[..|inputs| - 1])
  }

  /**
   * Each slot holds the most recent message of its kind received so far,
   * or what it held before if none of that kind has come.
   */
  lemma {:induction false} AfterHoldsLatest(s: Slots, inputs: seq<Option<Message>>)
    ensures After(s, inputs).position ==
              if LatestPosition(inputs).Some? then LatestPosition(inputs) else s.position
    ensures After(s, inputs).attitude ==
              if LatestAttitude(inputs).Some? then LatestAttitude(inputs) else s.attitude
    decreases |inputs|
  {
    if inputs != [] {
      AfterHoldsLatest(s, inputs[..|inputs| - 1]);
    }
  }

  /**
   * From a new fuser, a tick that receives a message returns a record
   * exactly when a position and an attitude have each arrived at least once
   * (on this tick or before), and the record's time is the later of the two
   * latest boot times.
   */
  lemma FusesLatestPair(inputs: seq<Option<Message>>)
    requires inputs != [] && inputs[|inputs| - 1].Some?
    ensures LastOutput(Empty, inputs).Some? <==>
              LatestPosition(inputs).Some? && LatestAttitude(inputs).Some?
    ensures LastOutput(Empty, inputs).Some? ==>
              LastOutput(Empty, inputs).value ==
                Fuse(LatestPosition(inputs).value, LatestAttitude(inputs).value)
    ensures LastOutput(Empty, inputs).Some? ==>
              LastOutput(Empty, inputs).value.timeSinceBoot ==
                Max(LatestPosition(inputs).value.timeBootMs, LatestAttitude(inputs).value.timeBootMs)
  {
    AfterHoldsLatest(Empty, inputs);
  }

  /** Nothing is returned before both kinds have arrived, on any tick. */
  lemma NothingBeforeBoth(inputs: seq<Option<Message>>)
    requires inputs != []
    requires LatestPosition(inputs).None? || LatestAttitude(inputs).None?
    ensures LastOutput(Empty, inputs).None?
  {
    AfterHoldsLatest(Empty, inputs);
  }

  /** Slots are never cleared: once both are filled they stay filled. */
  lemma {:induction false} StaysFull(s: Slots, inputs: seq<Option<Message>>)
    requires s.position.Some? && s.attitude.Some?
    ensures After(s, inputs).position.Some? && After(s, inputs).attitude.Some?
    decreases |inputs|
  {
    if inputs != [] {
      StaysFull(s, inputs[..|inputs| - 1]);
    }
  }

  /** Once both slots have been filled, every received message yields a record. */
  lemma AlwaysFusesOnceFull(s: Slots, inputs: seq<Option<Message>>)
    requires s.position.Some? && s.attitude.Some?
    requires inputs != [] && inputs[|inputs| - 1].Some?
    ensures LastOutput(s, inputs).Some?
  {
    StaysFull(s, inputs[..|inputs| - 1]);
  }

  /** The fuser itself: its two slots. */
  class Telemetry {
    var lastPosition: Option<LocalPositionNed>
    var lastAttitude: Option<Attitude>

    function State(): Slots
      reads this
    {
      Slots(lastPosition, lastAttitude)
    }

    constructor ()
      ensures State() == Empty
    {
      lastPosition := None;
      lastAttitude := None;
    }

    /** One tick, given the result of the receive (a message, or `None` on timeout). */
    method Run(received: Option<Message>) returns (data: Option<TelemetryData>)
      modifies this
      ensures State() == Step(old(State()), received).slots
      ensures data == Step(old(State()), received).output
    {
      if received.None? {
        return None;
      }
      match received.value {
        case LocalPositionNedMsg(p) => lastPosition := Some(p);
        case AttitudeMsg(a) => lastAttitude := Some(a);
        case HeartbeatMsg =>
      }
      if lastPosition.Some? && lastAttitude.Some? {
        return Some(Fuse(lastPosition.value, lastAttitude.value));
      }
      return None;
    }
  }
}
