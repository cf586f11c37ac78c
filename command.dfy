/**
 * The decision logic: from a fused telemetry record and a fixed target,
 * at most one COMMAND_LONG, altitude first, then yaw. It keeps no state
 * between calls, so it is a function of the target and the record.
 */
module Command {
  import opened Wrappers
  import opened Mavlink
  import opened Telemetry

  /** A point in the local frame, in metres. */
  datatype Position = Position(x: real, y: real, z: real)

  /** Altitude error in metres up to which no altitude command is sent. */
  const ALTITUDE_DEADZONE: real := 0.5
  /** Yaw error in degrees up to which no yaw command is sent. */
  const YAW_DEADZONE_DEG: real := 5.0
  /** The climb rate sent with an altitude change. */
  const CLIMB_RATE: real := 1.0
  /** The turn rate, in degrees per second, sent with a yaw change. */
  const YAW_RATE: real := 5.0
  /** `math.pi`, written out as a real. */
  const PI: real := 3.141592653589793

  /**
   * The library routines the decision calls and that are not modelled:
   * `math.atan2(y, x)`, and the text a float is formatted to.
   */
  datatype Host = Host(atan2: (real, real) -> real, floatText: real -> string)

  /** What one call produces: the command sent, if any, and the text returned. */
  datatype Decision = Decision(sent: Option<CommandLong>, result: Option<string>)

  function Abs(x: real): real
  {
    if x < 0.0 then -x else x
  }

  /**
   * Python's `%` on floats with a positive divisor: a remainder in [0, m)
   * that differs from `a` by a whole multiple of `m`.
   */
  function FloorMod(a: real, m: real): (r: real)
    requires m > 0.0
    ensures 0.0 <= r < m
    ensures ((a - r) / m).Floor as real == (a - r) / m
  {
    var k := (a / m).Floor;
    assert m * (a / m) == a;
    assert k as real * m <= a < (k as real + 1.0) * m by {
      var below, above := a / m - k as real, k as real + 1.0 - a / m;
      assert below >= 0.0 && above > 0.0;
      assert below * m >= 0.0 && above * m > 0.0;
      assert below * m == a - k as real * m;
      assert above * m == (k as real + 1.0) * m - a;
    }
    var r := a - m * k as real;
    assert (a - r) / m == k as real;
    r
  }

  /** A yaw error brought into [-pi, pi) by whole turns. */
  function NormalizeAngle(e: real): (r: real)
    ensures -PI <= r < PI
    ensures ((e - r) / (2.0 * PI)).Floor as real == (e - r) / (2.0 * PI)
  {
    FloorMod(e + PI, 2.0 * PI) - PI
  }

  /** `math.degrees`. */
  function Degrees(rad: real): real
  {
    rad * (180.0 / PI)
  }

  /**
   * The heading error towards the target, in degrees, in [-180, 180): the
   * raw difference between the bearing to the target and the heading,
   * brought into range by whole turns of 360 degrees.
   */
  function YawErrorDeg(target: Position, data: TelemetryData, host: Host): (deg: real)
    ensures -180.0 <= deg < 180.0
    ensures var raw := Degrees(host.atan2(target.y - data.y, target.x - data.x) - data.yaw);
            ((raw - deg) / 360.0).Floor as real == (raw - deg) / 360.0
  {
    var e := host.atan2(target.y - data.y, target.x - data.x) - data.yaw;
    var r := NormalizeAngle(e);
    var k := (e - r) / (2.0 * PI);
    assert e - r == k * (2.0 * PI);
    assert Degrees(e) - Degrees(r) == (e - r) * (180.0 / PI);
    assert (Degrees(e) - Degrees(r)) / 360.0 == k;
    Degrees(r)
  }

  /** One decision for one telemetry record. */
  function Run(target: Position, data: TelemetryData, host: Host): (d: Decision)
    // a text is returned exactly when a command is sent
    ensures d.sent.Some? <==> d.result.Some?
    // altitude first: outside its deadzone, one altitude change to the
    // target altitude at the fixed climb rate, and the direction as text
    ensures Abs(target.z - data.z) > ALTITUDE_DEADZONE ==>
              && d.sent == Some(CommandLong(1, 0, MAV_CMD_CONDITION_CHANGE_ALT, 0,
                                            CLIMB_RATE, 0.0, 0.0, 0.0, 0.0, 0.0, target.z))
              && d.result == Some(if target.z - data.z > 0.0 then "CHANGE_ALTITUDE: 1"
                                 else "CHANGE_ALTITUDE: -1")
    // within the altitude deadzone (its bound included) only a yaw change can be sent
    ensures Abs(target.z - data.z) <= ALTITUDE_DEADZONE ==>
              d.sent.None? || d.sent.value.command == MAV_CMD_CONDITION_YAW
    // then yaw: outside its deadzone, one relative turn by the size of the
    // error in its direction at the fixed turn rate, and the error as text
    ensures Abs(target.z - data.z) <= ALTITUDE_DEADZONE &&
            Abs(YawErrorDeg(target, data, host)) > YAW_DEADZONE_DEG ==>
              var deg := YawErrorDeg(target, data, host);
              && d.sent.Some?
              && d.sent.value.targetSystem == 1 && d.sent.value.targetComponent == 0
              && d.sent.value.command == MAV_CMD_CONDITION_YAW
              && d.sent.value.confirmation == 0
              && YAW_DEADZONE_DEG < d.sent.value.param1 <= 180.0
              && d.sent.value.param1 == Abs(deg)
              && d.sent.value.param2 == YAW_RATE
              && (d.sent.value.param3 == 1.0 || d.sent.value.param3 == -1.0)
              && d.sent.value.param3 * d.sent.value.param1 == deg
              && d.sent.value.param4 == 1.0
              && d.sent.value.param5 == d.sent.value.param6 == d.sent.value.param7 == 0.0
              && d.result == Some("CHANGE YAW: " + host.floatText(deg))
    // on target in both respects: nothing is sent and nothing is returned
    ensures Abs(target.z - data.z) <= ALTITUDE_DEADZONE &&
            Abs(YawErrorDeg(target, data, host)) <= YAW_DEADZONE_DEG ==>
              d == Decision(None, None)
  {
    var dz := target.z - data.z;
    if Abs(dz) > ALTITUDE_DEADZONE then
      var cmd := CommandLong(1, 0, MAV_CMD_CONDITION_CHANGE_ALT, 0,
                             CLIMB_RATE, 0.0, 0.0, 0.0, 0.0, 0.0, target.z);
      Decision(Some(cmd), Some(if dz > 0.0 then "CHANGE_ALTITUDE: 1" else "CHANGE_ALTITUDE: -1"))
    else
      var yawErrorDeg := YawErrorDeg(target, data, host);
      if Abs(yawErrorDeg) > YAW_DEADZONE_DEG then
        var direction := if yawErrorDeg > 0.0 then 1.0 else -1.0;
        var cmd := CommandLong(1, 0, MAV_CMD_CONDITION_YAW, 0,
                               Abs(yawErrorDeg), YAW_RATE, direction, 1.0, 0.0, 0.0, 0.0);
        Decision(Some(cmd), Some("CHANGE YAW: " + host.floatText(yawErrorDeg)))
      else
        Decision(None, None)
  }

  /** The navigation target the system flies to. */
  const TARGET: Position := Position(10.0, 20.0, 30.0)

  /** One metre below the target altitude: climb. */
  lemma ClimbScenario(data: TelemetryData, host: Host)
    requires data.z == 29.0
    ensures Run(TARGET, data, host).result == Some("CHANGE_ALTITUDE: 1")
    ensures Run(TARGET, data, host).sent.Some?
    ensures Run(TARGET, data, host).sent.value.param7 == 30.0
  {
  }

  /**
   * Within the altitude deadzone at the origin with heading 0: a turn of
   * about 63.43 degrees towards the target, given the value `math.atan2`
   * returns for (20, 10).
   */
  lemma TurnScenario(data: TelemetryData, host: Host)
    requires data.z == 30.2 && data.x == 0.0 && data.y == 0.0 && data.yaw == 0.0
    requires host.atan2(20.0, 10.0) == 1.1071487177940904
    ensures Run(TARGET, data, host).sent.Some?
    ensures Run(TARGET, data, host).sent.value.command == MAV_CMD_CONDITION_YAW
    ensures Run(TARGET, data, host).sent.value.param3 == 1.0
    ensures 63.43 < Run(TARGET, data, host).sent.value.param1 < 63.44
  {
  }

  /** At the target, facing it: nothing to do. */
  lemma OnTargetScenario(data: TelemetryData, host: Host)
    requires data.x == 10.0 && data.y == 20.0 && data.z == 30.0 && data.yaw == 0.0
    requires host.atan2(0.0, 0.0) == 0.0
    ensures Run(TARGET, data, host) == Decision(None, None)
  {
  }
}
