/**
 * Offboard control of the drone: the connector remembers the last position setpoint (north, east, down in
 * metres and yaw in degrees, relative to where offboard control began), `start_offboard_mode` sends it and asks
 * the drone to enter offboard mode, and `move_to_relative` shifts it by the requested amounts and sends it again.
 * Whether the drone accepts a start or stop request is an input (`accepted`): `false` stands for the
 * `OffboardError` the SDK raises.
 */
module Offboard {

  /** The value of a position setpoint. */
  datatype Ned = Ned(north: real, east: real, down: real, yaw: real)

  /** The setpoint a new connector starts from. */
  const Origin := Ned(0.0, 0.0, 0.0, 0.0)

  /** One relative move as requested: right, forward, up and yaw change. */
  datatype Move = Move(lr: real, fb: real, altitude: real, yaw: real)

  /** The setpoint after a move: forward adds to north, right to east, up subtracts from down. */
  function Moved(p: Ned, m: Move): (r: Ned)
    ensures r == p <==> m == Move(0.0, 0.0, 0.0, 0.0)
  {
    Ned(p.north + m.fb, p.east + m.lr, p.down + -m.altitude, p.yaw + m.yaw)
  }

  /** Two moves in a row: their components summed. */
  function Combined(m1: Move, m2: Move): Move {
    Move(m1.lr + m2.lr, m1.fb + m2.fb, m1.altitude + m2.altitude, m1.yaw + m2.yaw)
  }

  /** The move that undoes `m`. */
  function Reverse(m: Move): Move {
    Move(-m.lr, -m.fb, -m.altitude, -m.yaw)
  }

  /** Moving twice is moving once by the combined amounts. */
  lemma MovedCompose(p: Ned, m1: Move, m2: Move)
    ensures Moved(Moved(p, m1), m2) == Moved(p, Combined(m1, m2))
  {
  }

  /** A move followed by its reverse returns to the starting setpoint. */
  lemma MovedReverse(p: Ned, m: Move)
    ensures Moved(Moved(p, m), Reverse(m)) == p
  {
  }

  /** The setpoint after each of `moves` in turn, from `p`. */
  function Track(p: Ned, moves: seq<Move>): Ned
    decreases |moves|
  {
    if |moves| == 0 then p else Track(Moved(p, moves[0]), moves[1..])
  }

  /** All the moves summed into one. */
  function Total(moves: seq<Move>): Move
    decreases |moves|
  {
    if |moves| == 0 then Move(0.0, 0.0, 0.0, 0.0) else Combined(moves[0], Total(moves[1..]))
  }

  /** Successive moves add up: the final setpoint is the start moved once by the sum of the moves. */
  lemma {:induction false} TrackTotal(p: Ned, moves: seq<Move>)
    ensures Track(p, moves) == Moved(p, Total(moves))
    decreases |moves|
  {
    if |moves| > 0 {
      TrackTotal(Moved(p, moves[0]), moves[1..]);
      MovedCompose(p, moves[0], Total(moves[1..]));
    }
  }

  /** Tracking a list of moves in two parts is tracking the first part, then the second from there. */
  lemma {:induction false} TrackAppend(p: Ned, ms1: seq<Move>, ms2: seq<Move>)
    ensures Track(p, ms1 + ms2) == Track(Track(p, ms1), ms2)
    decreases |ms1|
  {
    if |ms1| > 0 {
      assert (ms1 + ms2)[0] == ms1[0];
      assert (ms1 + ms2)[1..] == ms1[1..] + ms2;
      TrackAppend(Moved(p, ms1[0]), ms1[1..], ms2);
    } else {
      assert ms1 + ms2 == ms2;
    }
  }

  /** The SDK's `PositionNedYaw`: a setpoint object whose fields are updated in place. */
  class PositionNedYaw {
    var north_m: real
    var east_m: real
    var down_m: real
    var yaw_deg: real

    constructor(north: real, east: real, down: real, yaw: real)
      ensures Value() == Ned(north, east, down, yaw)
    {
      north_m := north;
      east_m := east;
      down_m := down;
      yaw_deg := yaw;
    }

    function Value(): Ned
      reads this
    {
      Ned(north_m, east_m, down_m, yaw_deg)
    }
  }

  /** A request the server makes of the drone's offboard plugin. */
  datatype OffboardRequest =
    | SetpointRequest(setpoint: Ned)
    | StartRequest
    | StopRequest

  /**
   * The drone's offboard plugin as the server sees it: the requests it has received, in order, and whether
   * offboard mode is active.
   */
  class OffboardPlugin {
    var requests: seq<OffboardRequest>
    var active: bool

    constructor()
      ensures requests == [] && !active
    {
      requests := [];
      active := false;
    }

    /** `set_position_ned`: the drone receives the setpoint's current value. */
    method SetPositionNed(p: PositionNedYaw)
      modifies this
      ensures requests == old(requests) + [SetpointRequest(p.Value())] && active == old(active)
    {
      requests := requests + [SetpointRequest(p.Value())];
    }

    /** `start`: the request reaches the drone; offboard mode is entered when it accepts. */
    method Start(accepted: bool) returns (ok: bool)
      modifies this
      ensures ok == accepted
      ensures requests == old(requests) + [StartRequest]
      ensures active == (old(active) || accepted)
    {
      requests := requests + [StartRequest];
      if accepted {
        active := true;
      }
      ok := accepted;
    }

    /** `stop`: the request reaches the drone; offboard mode is left when it accepts. */
    method Stop(accepted: bool) returns (ok: bool)
      modifies this
      ensures ok == accepted
      ensures requests == old(requests) + [StopRequest]
      ensures active == (old(active) && !accepted)
    {
      requests := requests + [StopRequest];
      if accepted {
        active := false;
      }
      ok := accepted;
    }
  }

  /** The server's connection context: the drone's offboard plugin and the last offboard setpoint. */
  class MAVLinkConnector {
    const offboard: OffboardPlugin
    const lastOffboardPosition: PositionNedYaw

    /** A new connector's setpoint is the origin, held in an object of its own. */
    constructor(offboard: OffboardPlugin)
      ensures this.offboard == offboard
      ensures fresh(lastOffboardPosition) && lastOffboardPosition.Value() == Origin
    {
      this.offboard := offboard;
      lastOffboardPosition := new PositionNedYaw(0.0, 0.0, 0.0, 0.0);
    }

    /** The last setpoint, as a value. */
    function Setpoint(): Ned
      reads this, lastOffboardPosition
    {
      lastOffboardPosition.Value()
    }
  }

  /**
   * `start_offboard_mode`: the stored setpoint is sent first, whatever the drone then answers; the result says
   * whether offboard mode was entered, and the stored setpoint is left as it was.
   */
  method StartOffboardMode(connector: MAVLinkConnector, accepted: bool) returns (ok: bool)
    modifies connector.offboard
    ensures ok == accepted
    ensures connector.offboard.requests ==
      old(connector.offboard.requests) + [SetpointRequest(old(connector.Setpoint())), StartRequest]
    ensures connector.offboard.active == (old(connector.offboard.active) || accepted)
    ensures connector.Setpoint() == old(connector.Setpoint())
  {
    connector.offboard.SetPositionNed(connector.lastOffboardPosition);
    ok := connector.offboard.Start(accepted);
  }

  /** `stop_offboard_mode`: sends the stop request and no setpoint, and reports whether offboard mode was left. */
  method StopOffboardMode(connector: MAVLinkConnector, accepted: bool) returns (ok: bool)
    modifies connector.offboard
    ensures ok == accepted
    ensures connector.offboard.requests == old(connector.offboard.requests) + [StopRequest]
    ensures connector.offboard.active == (old(connector.offboard.active) && !accepted)
    ensures connector.Setpoint() == old(connector.Setpoint())
  {
    ok := connector.offboard.Stop(accepted);
  }

  /**
   * `move_to_relative`: starts offboard mode (sending the stored setpoint); when that fails, returns false with
   * the stored setpoint unchanged. Otherwise the stored setpoint is moved in place and sent again, so the drone's
   * last setpoint is exactly the stored one.
   */
  method MoveToRelative(connector: MAVLinkConnector, lr: real, fb: real, altitude: real, yaw: real, accepted: bool)
    returns (ok: bool)
    modifies connector.offboard, connector.lastOffboardPosition
    ensures ok == accepted
    ensures !accepted ==> connector.Setpoint() == old(connector.Setpoint())
    ensures !accepted ==> (connector.offboard.requests ==
      old(connector.offboard.requests) + [SetpointRequest(old(connector.Setpoint())), StartRequest])
    ensures accepted ==> connector.Setpoint() == Moved(old(connector.Setpoint()), Move(lr, fb, altitude, yaw))
    ensures accepted ==> (connector.offboard.requests == old(connector.offboard.requests) +
      [SetpointRequest(old(connector.Setpoint())), StartRequest, SetpointRequest(connector.Setpoint())])
    ensures connector.offboard.active == (old(connector.offboard.active) || accepted)
  {
    var started := StartOffboardMode(connector, accepted);
    if !started {
      return false;
    }
    var p := connector.lastOffboardPosition;
    p.north_m := p.north_m + fb;
    p.east_m := p.east_m + lr;
    p.down_m := p.down_m + -altitude;
    p.yaw_deg := p.yaw_deg + yaw;
    connector.offboard.SetPositionNed(p);
    return true;
  }
}
