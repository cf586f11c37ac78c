/**
 * The MAVLink common-set messages and commands the on-board logic touches,
 * as the values a receive on the connection yields.
 */
module Mavlink {
  /** `time_boot_ms` is a uint32 on the wire. */
  type Uint32 = x: int | 0 <= x < 0x1_0000_0000

  /** LOCAL_POSITION_NED (message id 32): position and velocity in the local frame. */
  datatype LocalPositionNed = LocalPositionNed(
    timeBootMs: Uint32,
    x: real, y: real, z: real,
    vx: real, vy: real, vz: real)

  /** ATTITUDE (message id 30): Euler angles and their rates. */
  datatype Attitude = Attitude(
    timeBootMs: Uint32,
    roll: real, pitch: real, yaw: real,
    rollspeed: real, pitchspeed: real, yawspeed: real)

  /**
   * A received message. HEARTBEAT (message id 0) carries fields that nothing
   * here reads, so it has no payload.
   */
  datatype Message =
    | HeartbeatMsg
    | AttitudeMsg(attitude: Attitude)
    | LocalPositionNedMsg(position: LocalPositionNed)

  /** MAV_CMD_CONDITION_CHANGE_ALT. */
  const MAV_CMD_CONDITION_CHANGE_ALT: int := 113
  /** MAV_CMD_CONDITION_YAW. */
  const MAV_CMD_CONDITION_YAW: int := 115

  /** A COMMAND_LONG as passed to `command_long_send`. */
  datatype CommandLong = CommandLong(
    targetSystem: int, targetComponent: int, command: int, confirmation: int,
    param1: real, param2: real, param3: real, param4: real,
    param5: real, param6: real, param7: real)
}
