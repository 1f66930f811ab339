/** The relay process itself (src/app.ts): the cache seed, the fan-out of
    packets to sessions, the per-packet command router, the piloting-axis
    update, the snapshot sent to a newly connected peer, and the supervisor
    that reacts to the vehicle link dropping. The vehicle SDK is seen only
    through the commands issued to it; peers only through the packets handed
    to them. */
module App {
  import opened Packets
  import V = Validation
  import FC = FlightCache
  import U = Users
  import FE = FlightEvents

  // ------------------------------------------------------------ the seed

  /** The flying-state code the client shows as "landed". */
  const Landed: real := 0.0

  /** The values the shared cache starts from. */
  function Defaults(): (m: map<string, Json>)
    ensures "canTakeOff" in m && m["canTakeOff"] == Bool(false)
    ensures "takeOffAt" in m && m["takeOffAt"] == Num(-1.0)
    ensures "lastHardwareStatus" in m && m["lastHardwareStatus"] == Bool(true)
    ensures forall k :: k in FE.WrittenKeys ==> k in m && m[k] == Bool(false)
  {
    map[
      "gpsFixed" := Bool(false),
      "altitude" := Num(0.0),
      "flyingState" := Num(Landed),
      "canTakeOff" := Bool(false),
      "cameraMaxTiltSpeed" := Num(0.0),
      "cameraMaxPanSpeed" := Num(0.0),
      "defaultCameraTilt" := Num(0.0),
      "defaultCameraPan" := Num(0.0),
      "lastCalibrationStatus" := Bool(false),
      "lastHardwareStatus" := Bool(true),
      "lastHomeTypeStatus" := Bool(false),
      "lastRTHStatus" := Bool(false),
      "takeOffAt" := Num(-1.0)
    ]
  }

  // ------------------------------------------------- reading a parsed packet

  /** Reading a property would throw on these. */
  predicate Nullish(j: Json) {
    j.Null? || j.Undefined?
  }

  /** The value under the last occurrence of `key` (JSON.parse keeps the last
      duplicate). */
  function LastValue(fields: seq<(string, Json)>, key: string): (v: Json)
    ensures v == Undefined || exists i :: 0 <= i < |fields| && fields[i] == (key, v)
  {
    if fields == [] then Undefined
    else if fields[|fields| - 1].0 == key then fields[|fields| - 1].1
    else LastValue(fields[..|fields| - 1], key)
  }

  /** A key that no later field repeats reads as its own value. */
  lemma {:induction false} LastValueAt(fields: seq<(string, Json)>, i: nat)
    requires i < |fields|
    requires forall k :: i < k < |fields| ==> fields[k].0 != fields[i].0
    ensures LastValue(fields, fields[i].0) == fields[i].1
    decreases |fields|
  {
    if i < |fields| - 1 {
      LastValueAt(fields[..|fields| - 1], i);
    }
  }

  /** `j.key` on a non-nullish value. Strings, numbers and booleans have none
      of the properties the relay reads, so they read as undefined. */
  function Field(j: Json, key: string): Json {
    match j
    case Obj(fields) => LastValue(fields, key)
    case Flags(m) => if key in m then Bool(m[key]) else Undefined
    case _ => Undefined
  }

  // --------------------------------------------------------- vehicle side

  /** A command issued to the vehicle SDK. */
  datatype Command =
    | Circle(direction: string)
    | CameraMoveTo(tilt: Json, pan: Json)
    | CameraMove(tilt: Json, pan: Json)
    | ReturnToHome
    | StopReturnToHome
    | UserTakeOff
    | MoveTo(lat: real, lon: real, alt: real)
      /** starts the plan file named by the value followed by ".mavlink" */
    | MavlinkStart(plan: Json)
    | ResetHome
    | SetHomeLocation(lat: real, lon: real, alt: real)
    | SendControllerGPS(lat: real, lon: real, alt: real, horizontalAccuracy: real, verticalAccuracy: real)
    | SetHomeType(homeType: int)
    | EnableVideoStream

  /** The SDK's piloting record: three axes and the "moving" flag. */
  datatype Axes = Axes(pitch: Json, roll: Json, gaz: Json, flag: int)

  const Still := Axes(Num(0.0), Num(0.0), Num(0.0), 0)

  /** A provided axis value asks for motion unless it is exactly 0. */
  predicate Pushes(v: Json) {
    v != Undefined && v != Num(0.0)
  }

  /** `Validation.axis` applied to whatever arrived: numbers are clamped; a
      value the comparisons cannot order passes through unchanged. */
  function Clamped(v: Json): (r: Json)
    ensures v.Num? ==> r == Num(V.Axis(v.n))
    ensures !v.Num? ==> r == v
  {
    if v.Num? then Num(V.Axis(v.n)) else v
  }

  /** The new value of one axis when the packet moves the vehicle: an absent
      axis keeps its value, 0 stays 0, anything else is clamped. */
  function NewAxis(current: Json, v: Json): Json {
    if v == Undefined then current
    else if v == Num(0.0) then Num(0.0)
    else Clamped(v)
  }

  /** What a `move` packet leaves in the piloting record: when some provided
      axis pushes, each axis is updated on its own and the flag is 1;
      otherwise every axis and the flag are 0. */
  function Steer(a: Axes, pitch: Json, roll: Json, throttle: Json): (r: Axes)
    ensures r.flag == 0 || r.flag == 1
    ensures r.flag == 0 ==> r.pitch == Num(0.0) && r.roll == Num(0.0) && r.gaz == Num(0.0)
    ensures r.flag == 1 <==> Pushes(pitch) || Pushes(roll) || Pushes(throttle)
  {
    if Pushes(pitch) || Pushes(roll) || Pushes(throttle) then
      Axes(NewAxis(a.pitch, pitch), NewAxis(a.roll, roll), NewAxis(a.gaz, throttle), 1)
    else
      Still
  }

  /** Every numeric axis lies in [-75, 75] and the flag is 0 or 1. */
  predicate Safe(a: Axes) {
    InRange(a.pitch) && InRange(a.roll) && InRange(a.gaz) && (a.flag == 0 || a.flag == 1)
  }

  predicate InRange(v: Json) {
    v.Num? ==> -V.AxisLimit <= v.n <= V.AxisLimit
  }

  lemma NewAxisInRange(current: Json, v: Json)
    requires InRange(current)
    ensures InRange(NewAxis(current, v))
  {
    if v.Num? && v != Num(0.0) {
      assert NewAxis(current, v) == Num(V.Axis(v.n));
    }
  }

  /** Steering keeps the record safe. */
  lemma SteerStaysSafe(a: Axes, pitch: Json, roll: Json, throttle: Json)
    requires Safe(a)
    ensures Safe(Steer(a, pitch, roll, throttle))
  {
    NewAxisInRange(a.pitch, pitch);
    NewAxisInRange(a.roll, roll);
    NewAxisInRange(a.gaz, throttle);
  }

  /** The flag is 1 exactly when some provided axis is non-zero, and then each
      provided axis holds its clamped value (0 for a provided 0) while absent
      ones keep theirs. */
  lemma SteerFlag(a: Axes, pitch: Json, roll: Json, throttle: Json)
    ensures var r := Steer(a, pitch, roll, throttle);
      && (r.flag == 1 <==> Pushes(pitch) || Pushes(roll) || Pushes(throttle))
      && (r.flag == 1 ==>
            && r.pitch == (if pitch == Undefined then a.pitch else if pitch == Num(0.0) then Num(0.0) else Clamped(pitch))
            && r.roll == (if roll == Undefined then a.roll else if roll == Num(0.0) then Num(0.0) else Clamped(roll))
            && r.gaz == (if throttle == Undefined then a.gaz else if throttle == Num(0.0) then Num(0.0) else Clamped(throttle)))
  {
  }

  /** A packet with no pushing axis stops the vehicle, absent axes included. */
  lemma SteerStops(a: Axes, pitch: Json, roll: Json, throttle: Json)
    requires !Pushes(pitch) && !Pushes(roll) && !Pushes(throttle)
    ensures Steer(a, pitch, roll, throttle) == Still
  {
  }

  /** `disco.pilotingData`, updated in place by the `move` handler. */
  class PilotingData {
    var pitch: Json
    var roll: Json
    var gaz: Json
    var flag: int

    constructor ()
      ensures Current() == Still
    {
      pitch, roll, gaz, flag := Num(0.0), Num(0.0), Num(0.0), 0;
    }

    function Current(): Axes
      reads this
    {
      Axes(pitch, roll, gaz, flag)
    }

    /** The `move` handler body: each axis in turn, tracking `isMoving`. */
    method ApplyMove(pitchIn: Json, rollIn: Json, throttleIn: Json)
      modifies this
      ensures Current() == Steer(old(Current()), pitchIn, rollIn, throttleIn)
      ensures Safe(old(Current())) ==> Safe(Current())
    {
      if Safe(Current()) {
        SteerStaysSafe(Current(), pitchIn, rollIn, throttleIn);
      }
      var pitchMoved, rollMoved, gazMoved;
      pitch, pitchMoved := MoveAxis(pitch, pitchIn);
      roll, rollMoved := MoveAxis(roll, rollIn);
      gaz, gazMoved := MoveAxis(gaz, throttleIn);
      var isMoving := if pitchMoved || rollMoved || gazMoved then 1 else 0;
      if isMoving == 0 {
        pitch := Num(0.0);
        roll := Num(0.0);
        gaz := Num(0.0);
      }
      flag := isMoving;
    }

    /** One axis of the `move` handler: an absent value leaves the axis, 0
        resets it, anything else is clamped and counts as motion. */
    static method MoveAxis(current: Json, v: Json) returns (next: Json, moved: bool)
      ensures next == NewAxis(current, v)
      ensures moved <==> Pushes(v)
    {
      next, moved := current, false;
      if v != Undefined {
        if v != Num(0.0) {
          next := Clamped(v);
          moved := true;
        } else {
          next := Num(0.0);
        }
      }
    }
  }

  // ------------------------------------------------------------ permissions

  /** Any one piloting axis is enough to circle and to move. */
  predicate CanPilot(p: map<string, bool>) {
    U.Granted(p, "canPilotingPitch") || U.Granted(p, "canPilotingRoll") || U.Granted(p, "canPilotingThrottle")
  }

  /** The capability each vehicle command needs when a packet asks for it. */
  predicate Permits(p: map<string, bool>, c: Command) {
    match c
    case Circle(_) => CanPilot(p)
    case CameraMoveTo(_, _) => U.Granted(p, "canMoveCamera")
    case CameraMove(_, _) => U.Granted(p, "canMoveCamera")
    case ReturnToHome => U.Granted(p, "canUseAutonomy")
    case StopReturnToHome => U.Granted(p, "canUseAutonomy")
    case EnableVideoStream => false
    case _ => U.Granted(p, "isSuperUser")
  }

  // ---------------------------------------------------------------- routing

  /** A packet the router hands out: to the sender's own peer, or through the
      fan-out. */
  datatype Send = Reply(packet: Packet) | Broadcast(packet: Packet, onlyAuthorized: bool)

  /** What one inbound packet does: the commands issued, the new piloting
      record if it changes, the packets sent, the permission set an `init`
      grants, and whether the handler throws before doing anything. */
  datatype Outcome = Outcome(
    commands: seq<Command>,
    steer: Option<Axes>,
    sends: seq<Send>,
    grant: Option<map<string, bool>>,
    throws: bool)

  const Quiet := Outcome([], None, [], None, false)
  const Fault := Outcome([], None, [], None, true)

  function Issue(commands: seq<Command>): Outcome {
    Quiet.(commands := commands)
  }

  /** The circle handler, corrected: a string direction that
      `circleDirection` recognises is normalised and flown; anything else is
      refused. */
  function CircleRoute(data: Json): (r: Outcome)
    ensures !r.throws && r.steer.None? && r.sends == [] && r.grant.None?
    ensures |r.commands| == 1 <==> data.Str? && V.IsCircleDirection(data.s)
    ensures |r.commands| <= 1
    ensures |r.commands| == 1 ==> r.commands[0] == Circle(V.CircleDirection(data.s))
    ensures |r.commands| == 1 ==> (r.commands[0].direction == "CCW" <==> V.ToLower(data.s) == "ccw")
  {
    if data.Str? && V.IsCircleDirection(data.s) then Issue([Circle(V.CircleDirection(data.s))])
    else Quiet
  }

  /** The circle handler as written: it calls a validator that does not
      exist, so the call throws before any command is issued. */
  function CircleRouteAsWritten(data: Json): (r: Outcome)
    ensures r.throws && r.commands == []
  {
    Fault
  }

  /** Asking to circle clockwise: the handler as written flies nothing,
      the corrected one circles "CW". */
  lemma CircleFinding()
    ensures CircleRouteAsWritten(Str("cw")).commands == []
    ensures CircleRoute(Str("cw")).commands == [Circle("CW")]
  {
    assert V.ToLower("cw") == "cw";
    assert V.ToUpper("cw") == "CW";
  }

  /** The piloting block: `circle` and `move`. */
  function PilotRoute(action: Json, data: Json, a: Axes): (r: Outcome)
    ensures forall c :: c in r.commands ==> c.Circle?
    ensures r.sends == [] && r.grant.None?
    ensures r.steer.Some? <==> action == Str("move") && !Nullish(data)
  {
    if action == Str("circle") then CircleRoute(data)
    else if action == Str("move") then
      if Nullish(data) then Fault
      else Quiet.(steer := Some(Steer(a, Field(data, "pitch"), Field(data, "roll"), Field(data, "throttle"))))
    else Quiet
  }

  /** `{ action: 'camera', data: { currentSpeed: { tilt, pan } } }` */
  function CameraSpeed(tilt: Json, pan: Json): Packet {
    Message("camera", Obj([("currentSpeed", Obj([("tilt", tilt), ("pan", pan)]))]))
  }

  /** The camera block: recentre on the cached defaults, or move absolutely or
      by degrees; a move by degrees is echoed to the authorized sessions. */
  function CameraRoute(action: Json, data: Json, cache: map<string, Json>): (r: Outcome)
    ensures forall c :: c in r.commands ==> c.CameraMoveTo? || c.CameraMove?
    ensures forall s :: s in r.sends ==> s == Broadcast(CameraSpeed(Field(data, "tilt"), Field(data, "pan")), true)
    ensures r.steer.None? && r.grant.None?
  {
    if action == Str("camera-center") then
      Issue([CameraMoveTo(FC.Lookup(cache, "defaultCameraTilt"), FC.Lookup(cache, "defaultCameraPan"))])
    else if action == Str("camera") then
      if Nullish(data) then Fault
      else
        var kind, tilt, pan := Field(data, "type"), Field(data, "tilt"), Field(data, "pan");
        if kind == Str("absolute") then Issue([CameraMoveTo(tilt, pan)])
        else if kind == Str("degrees") then
          Issue([CameraMove(tilt, pan)]).(sends := [Broadcast(CameraSpeed(tilt, pan), true)])
        else Quiet
    else Quiet
  }

  /** The autonomy block: a truthy `rth` starts the return home, a falsy one
      cancels it; the sender is told either way. */
  function AutonomyRoute(action: Json, data: Json): (r: Outcome)
    ensures forall c :: c in r.commands ==> c.ReturnToHome? || c.StopReturnToHome?
    ensures forall s :: s in r.sends ==> s.Reply?
    ensures r.steer.None? && r.grant.None? && !r.throws
  {
    if action == Str("rth") then
      if Truthy(data) then
        Issue([ReturnToHome]).(sends := [Reply(Alert("info", "Returning to home"))])
      else
        Issue([StopReturnToHome]).(sends := [Reply(Alert("warning", "Returning to home stopped"))])
    else Quiet
  }

  /** The super-user block: take-off, flight plans, the landing plan and the
      home-position test sequence. */
  function SuperUserRoute(action: Json, data: Json, force: Json, cache: map<string, Json>): (r: Outcome)
    ensures forall c :: c in r.commands ==> !(c.Circle? || c.CameraMoveTo? || c.CameraMove? || c.ReturnToHome? || c.StopReturnToHome? || c.EnableVideoStream?)
    ensures UserTakeOff in r.commands ==> Truthy(FC.Lookup(cache, "canTakeOff"))
    ensures forall s :: s in r.sends ==> s.Reply?
    ensures r.steer.None? && r.grant.None? && !r.throws
  {
    if action == Str("takeOff") then
      if Truthy(FC.Lookup(cache, "canTakeOff")) then Issue([UserTakeOff]) else Quiet
    else if action == Str("flightPlanStart") then FlightPlanRoute(data, force, cache)
    else if action == Str("emergency") then
      if data == Str("landingFlightPlan") then Issue([MavlinkStart(Str("land"))]) else Quiet
    else if action == Str("test") then Issue(HomeTestCommands)
    else Quiet
  }

  /** `flightPlanStart`: allowed when the vehicle can take off or the start
      is forced; the "test" plan flies to a fixed point, any other plan is
      started from its file, and a refused start is reported. */
  function FlightPlanRoute(data: Json, force: Json, cache: map<string, Json>): (r: Outcome)
    ensures forall c :: c in r.commands ==> c.MoveTo? || c.MavlinkStart?
    ensures forall s :: s in r.sends ==> s.Reply?
    ensures r.steer.None? && r.grant.None? && !r.throws
  {
    if Truthy(FC.Lookup(cache, "canTakeOff")) || force == Bool(true) then
      if data == Str("test") then Issue([MoveTo(53.353077, 17.64584, 80.0)])
      else Issue([MavlinkStart(data)]).(sends := [Reply(Alert("success", "Flight plan started"))])
    else
      Quiet.(sends := [Reply(Alert("danger", "Flight plan failed"))])
  }

  /** The home-position test sequence, in the order it is sent. */
  const HomeTestCommands := [ResetHome,
                             SetHomeLocation(53.34877, 17.64075, 50.0),
                             SendControllerGPS(53.34877, 17.64075, 50.0, 2.0, 2.0),
                             SetHomeType(1)]

  /** `takeOffAt < 0 ? 0 : now - takeOffAt`; a non-numeric value gives NaN,
      which is sent as null. */
  function FlyingTime(takeOffAt: Json, now: real): (r: Json)
    ensures r.Num? || r == Null
    ensures r.Num? <==> takeOffAt.Num?
    ensures takeOffAt.Num? && takeOffAt.n < 0.0 ==> r.n == 0.0
    ensures takeOffAt.Num? && takeOffAt.n >= 0.0 ==> takeOffAt.n + r.n == now
  {
    if takeOffAt.Num? then Num(if takeOffAt.n < 0.0 then 0.0 else now - takeOffAt.n)
    else Null
  }

  /** `now - time`, NaN (null) for a non-numeric time. */
  function Latency(now: real, time: Json): (r: Json)
    ensures r.Num? || r == Null
    ensures r.Num? <==> time.Num?
    ensures time.Num? ==> time.n + r.n == now
  {
    if time.Num? then Num(now - time.n) else Null
  }

  /** The token catalogue's verdict: a string token it lists, with the
      capability set it grants. */
  function TokenGrant(catalog: map<string, map<string, bool>>, token: Json): (g: Option<map<string, bool>>)
    ensures g.Some? <==> token.Str? && token.s in catalog
    ensures g.Some? ==> g.value == catalog[token.s]
  {
    if token.Str? && token.s in catalog then Some(catalog[token.s]) else None
  }

  /** `pong`: the latency and the flying time, both to the sender. Reading
      `time` off a nullish `data` throws inside the guarded block, so nothing
      is sent. */
  function PongRoute(data: Json, cache: map<string, Json>, now: real): (r: Outcome)
    ensures r.commands == [] && r.steer.None? && r.grant.None? && !r.throws
    ensures forall s :: s in r.sends ==> s.Reply?
    ensures |r.sends| == if Nullish(data) then 0 else 2
  {
    if Nullish(data) then Quiet
    else
      Quiet.(sends := [Reply(Message("latency", Latency(now, Field(data, "time")))),
                       Reply(Message("state", Obj([("flyingTime", FlyingTime(FC.Lookup(cache, "takeOffAt"), now))])))])
  }

  /** `init`: a catalogued token grants its capability set and the sender is
      told; any other token does nothing. */
  function InitRoute(data: Json, catalog: map<string, map<string, bool>>): (r: Outcome)
    ensures r.commands == [] && r.steer.None?
    ensures forall s :: s in r.sends ==> s.Reply?
    ensures r.throws <==> Nullish(data)
    ensures r.grant == if Nullish(data) then None else TokenGrant(catalog, Field(data, "token"))
    ensures r.sends != [] <==> r.grant.Some?
  {
    if Nullish(data) then Fault
    else
      var grant := TokenGrant(catalog, Field(data, "token"));
      if grant.Some? then
        Quiet.(grant := grant,
               sends := [Reply(Message("permission", Flags(grant.value))),
                         Reply(Alert("success", "You got authorized by token"))])
      else Quiet
  }

  /** The block every session reaches, with or without a vehicle: `pong`
      and `init`. */
  function SessionRoute(action: Json, data: Json, cache: map<string, Json>,
                        catalog: map<string, map<string, bool>>, now: real): (r: Outcome)
    ensures r.commands == [] && r.steer.None?
    ensures forall s :: s in r.sends ==> s.Reply?
    ensures r.grant.Some? ==> action == Str("init")
  {
    if action == Str("pong") then PongRoute(data, cache, now)
    else if action == Str("init") then InitRoute(data, catalog)
    else Quiet
  }

  predicate PilotAction(action: Json) { action == Str("circle") || action == Str("move") }
  predicate CameraAction(action: Json) { action == Str("camera-center") || action == Str("camera") }
  predicate SuperUserAction(action: Json) {
    action == Str("takeOff") || action == Str("flightPlanStart") || action == Str("emergency") || action == Str("test")
  }

  /** An action one of the vehicle blocks answers. */
  predicate VehicleAction(action: Json) {
    PilotAction(action) || CameraAction(action) || action == Str("rth") || SuperUserAction(action)
  }

  /** The vehicle blocks, each reached only with its capability. */
  function VehicleRoute(p: map<string, bool>, cache: map<string, Json>, a: Axes,
                        action: Json, data: Json, force: Json): (r: Outcome)
    requires VehicleAction(action)
    ensures r.grant.None?
  {
    if PilotAction(action) then
      if CanPilot(p) then PilotRoute(action, data, a) else Quiet
    else if CameraAction(action) then
      if U.Granted(p, "canMoveCamera") then CameraRoute(action, data, cache) else Quiet
    else if action == Str("rth") then
      if U.Granted(p, "canUseAutonomy") then AutonomyRoute(action, data) else Quiet
    else
      if U.Granted(p, "isSuperUser") then SuperUserRoute(action, data, force, cache) else Quiet
  }

  /** What the data handler does with one parsed packet from a session with
      capabilities `p`. The vehicle blocks are reached only with the vehicle
      attached; `pong` and `init` are always reached. */
  function Route(noDisco: bool, p: map<string, bool>, cache: map<string, Json>, a: Axes,
                 catalog: map<string, map<string, bool>>, now: real, packet: Json): (r: Outcome)
    ensures Nullish(packet) ==> r == Fault
    ensures noDisco ==> r.commands == [] && r.steer.None?
    ensures r.grant.Some? ==> Field(packet, "action") == Str("init")
    ensures !Nullish(packet) && !VehicleAction(Field(packet, "action")) ==>
      forall s :: s in r.sends ==> s.Reply?
  {
    if Nullish(packet) then Fault
    else
      var action, data := Field(packet, "action"), Field(packet, "data");
      if VehicleAction(action) then
        if noDisco then Quiet else VehicleRoute(p, cache, a, action, data, Field(packet, "force"))
      else SessionRoute(action, data, cache, catalog, now)
  }

  /** Every vehicle command is one the capabilities `p` allow, the piloting
      record moves only for a pilot, and only the camera echo is fanned out,
      and only to authorized sessions. */
  predicate Gated(p: map<string, bool>, r: Outcome) {
    && (forall c :: c in r.commands ==> Permits(p, c))
    && (r.steer.Some? ==> CanPilot(p))
    && (forall s :: s in r.sends && s.Broadcast? ==> s.onlyAuthorized && U.Granted(p, "canMoveCamera"))
  }

  /** Whatever packet a session sends, what it causes is gated by its
      capabilities. */
  lemma RouteIsGated(noDisco: bool, p: map<string, bool>, cache: map<string, Json>, a: Axes,
                     catalog: map<string, map<string, bool>>, now: real, packet: Json)
    ensures Gated(p, Route(noDisco, p, cache, a, catalog, now, packet))
  {
    if !Nullish(packet) && !noDisco && VehicleAction(Field(packet, "action")) {
      VehicleRouteIsGated(p, cache, a, Field(packet, "action"), Field(packet, "data"), Field(packet, "force"));
    }
  }

  /** Each vehicle block is reached only with the capability it needs. */
  lemma VehicleRouteIsGated(p: map<string, bool>, cache: map<string, Json>, a: Axes,
                            action: Json, data: Json, force: Json)
    requires VehicleAction(action)
    ensures Gated(p, VehicleRoute(p, cache, a, action, data, force))
  {
    if PilotAction(action) {
      if CanPilot(p) {
        PilotRouteIsGated(p, action, data, a);
      }
    } else if CameraAction(action) {
      if U.Granted(p, "canMoveCamera") {
        CameraRouteIsGated(p, action, data, cache);
      }
    } else if action == Str("rth") {
      if U.Granted(p, "canUseAutonomy") {
        AutonomyRouteIsGated(p, action, data);
      }
    } else if U.Granted(p, "isSuperUser") {
      SuperUserRouteIsGated(p, action, data, force, cache);
    }
  }

  lemma PilotRouteIsGated(p: map<string, bool>, action: Json, data: Json, a: Axes)
    requires CanPilot(p)
    ensures Gated(p, PilotRoute(action, data, a))
  {
    var r := PilotRoute(action, data, a);
    assert forall c :: c in r.commands ==> c.Circle?;
  }

  lemma CameraRouteIsGated(p: map<string, bool>, action: Json, data: Json, cache: map<string, Json>)
    requires U.Granted(p, "canMoveCamera")
    ensures Gated(p, CameraRoute(action, data, cache))
  {
    var r := CameraRoute(action, data, cache);
    assert forall c :: c in r.commands ==> c.CameraMoveTo? || c.CameraMove?;
  }

  lemma AutonomyRouteIsGated(p: map<string, bool>, action: Json, data: Json)
    requires U.Granted(p, "canUseAutonomy")
    ensures Gated(p, AutonomyRoute(action, data))
  {
    var r := AutonomyRoute(action, data);
    assert forall c :: c in r.commands ==> c.ReturnToHome? || c.StopReturnToHome?;
  }

  lemma SuperUserRouteIsGated(p: map<string, bool>, action: Json, data: Json, force: Json, cache: map<string, Json>)
    requires U.Granted(p, "isSuperUser")
    ensures Gated(p, SuperUserRoute(action, data, force, cache))
  {
    var r := SuperUserRoute(action, data, force, cache);
    assert forall c :: c in r.commands ==> !(c.Circle? || c.CameraMoveTo? || c.CameraMove? || c.ReturnToHome? || c.StopReturnToHome? || c.EnableVideoStream?);
  }

  /** Without a vehicle no command is issued, the piloting record is left
      alone and nothing is fanned out; only `pong` and `init` answer. */
  lemma NoDiscoIssuesNothing(p: map<string, bool>, cache: map<string, Json>, a: Axes,
                             catalog: map<string, map<string, bool>>, now: real, packet: Json)
    ensures var r := Route(true, p, cache, a, catalog, now, packet);
      && r.commands == [] && r.steer.None?
      && (r.sends != [] ==> !Nullish(packet) && Field(packet, "action") in {Str("pong"), Str("init")})
  {
  }

  /** A take-off command is issued only when the cache says the vehicle can
      take off. */
  lemma TakeOffNeedsCanTakeOff(noDisco: bool, p: map<string, bool>, cache: map<string, Json>, a: Axes,
                               catalog: map<string, map<string, bool>>, now: real, packet: Json)
    requires UserTakeOff in Route(noDisco, p, cache, a, catalog, now, packet).commands
    ensures Truthy(FC.Lookup(cache, "canTakeOff")) && U.Granted(p, "isSuperUser") && !noDisco
  {
  }

  /** A flight plan starts only when the vehicle can take off or the start is
      forced; the "test" plan flies to a fixed point and reports nothing, any
      other plan is started from its file and reported; a refused start only
      reports the failure. */
  lemma FlightPlanStartRule(p: map<string, bool>, cache: map<string, Json>, a: Axes,
                            catalog: map<string, map<string, bool>>, now: real, name: Json, force: Json)
    requires U.Granted(p, "isSuperUser")
    ensures var r := Route(false, p, cache, a, catalog, now,
                           Obj([("action", Str("flightPlanStart")), ("data", name), ("force", force)]));
      var go := Truthy(FC.Lookup(cache, "canTakeOff")) || force == Bool(true);
      && (go && name == Str("test") ==> r.commands == [MoveTo(53.353077, 17.64584, 80.0)] && r.sends == [])
      && (go && name != Str("test") ==> r.commands == [MavlinkStart(name)] && r.sends == [Reply(Alert("success", "Flight plan started"))])
      && (!go ==> r.commands == [] && r.sends == [Reply(Alert("danger", "Flight plan failed"))])
  {
    var fields := [("action", Str("flightPlanStart")), ("data", name), ("force", force)];
    LastValueAt(fields, 0);
    LastValueAt(fields, 1);
    LastValueAt(fields, 2);
    var action := Str("flightPlanStart");
    assert Field(Obj(fields), "action") == action && Field(Obj(fields), "data") == name;
    assert Field(Obj(fields), "force") == force;
    assert !PilotAction(action) && !CameraAction(action) && action != Str("rth") && SuperUserAction(action);
    assert VehicleRoute(p, cache, a, action, name, force) == SuperUserRoute(action, name, force, cache);
    assert Route(false, p, cache, a, catalog, now, Obj(fields)) == VehicleRoute(p, cache, a, action, name, force);
  }

  /** `init` grants exactly when the token is in the catalogue, and then
      replaces the capability set with the catalogue's and tells the
      sender; an unknown token changes nothing and sends nothing. */
  lemma InitGrantsIffKnownToken(noDisco: bool, p: map<string, bool>, cache: map<string, Json>, a: Axes,
                                catalog: map<string, map<string, bool>>, now: real, token: Json)
    ensures var r := Route(noDisco, p, cache, a, catalog, now,
                           Obj([("action", Str("init")), ("data", Obj([("token", token)]))]));
      && (r.grant.Some? <==> token.Str? && token.s in catalog)
      && (r.grant.Some? ==> r.grant.value == catalog[token.s]
                            && r.sends == [Reply(Message("permission", Flags(catalog[token.s]))),
                                           Reply(Alert("success", "You got authorized by token"))])
      && (r.grant.None? ==> r.sends == [] && r.commands == [] && !r.throws)
  {
    var fields := [("action", Str("init")), ("data", Obj([("token", token)]))];
    LastValueAt(fields, 0);
    LastValueAt(fields, 1);
    LastValueAt([("token", token)], 0);
    var action, data := Str("init"), Obj([("token", token)]);
    assert Field(Obj(fields), "action") == action && Field(Obj(fields), "data") == data;
    assert Field(data, "token") == token;
    assert !VehicleAction(action);
    assert SessionRoute(action, data, cache, catalog, now) == InitRoute(data, catalog);
    assert Route(noDisco, p, cache, a, catalog, now, Obj(fields)) == SessionRoute(action, data, cache, catalog, now);
  }

  /** `pong` answers with the latency and the flying time, which is 0 while
      `takeOffAt` is negative. */
  lemma PongReportsFlyingTime(noDisco: bool, p: map<string, bool>, cache: map<string, Json>, a: Axes,
                              catalog: map<string, map<string, bool>>, now: real, time: real)
    requires FC.Lookup(cache, "takeOffAt").Num?
    ensures var r := Route(noDisco, p, cache, a, catalog, now,
                           Obj([("action", Str("pong")), ("data", Obj([("time", Num(time))]))]));
      var t := FC.Lookup(cache, "takeOffAt").n;
      r.sends == [Reply(Message("latency", Num(now - time))),
                  Reply(Message("state", Obj([("flyingTime", Num(if t < 0.0 then 0.0 else now - t))])))]
  {
    var fields := [("action", Str("pong")), ("data", Obj([("time", Num(time))]))];
    LastValueAt(fields, 0);
    LastValueAt(fields, 1);
    LastValueAt([("time", Num(time))], 0);
    var action, data := Str("pong"), Obj([("time", Num(time))]);
    assert Field(Obj(fields), "action") == action && Field(Obj(fields), "data") == data;
    assert Field(data, "time") == Num(time);
    assert !VehicleAction(action);
    assert SessionRoute(action, data, cache, catalog, now) == PongRoute(data, cache, now);
    assert Route(noDisco, p, cache, a, catalog, now, Obj(fields)) == SessionRoute(action, data, cache, catalog, now);
  }

  // ----------------------------------------------------- the initial snapshot

  /** The packets a newly connected peer is sent, in order. `battery` is the
      SDK's last reported battery level. */
  function InitialPackets(cache: map<string, Json>, now: real, isConnected: bool, battery: Json): (r: seq<Packet>)
    ensures |r| == 9
    ensures forall i :: 0 <= i < 9 ==> r[i].Message?
    ensures r[0] == Message("init", Undefined)
  {
    [
      Message("init", Undefined),
      Message("state", Obj([
        ("flyingTime", FlyingTime(FC.Lookup(cache, "takeOffAt"), now)),
        ("flyingState", FC.Lookup(cache, "flyingState")),
        ("canTakeOff", FC.Lookup(cache, "canTakeOff")),
        ("isDiscoConnected", Bool(isConnected))])),
      Message("battery", Obj([("percent", battery)])),
      Message("gps", Obj([("isFixed", FC.Lookup(cache, "gpsFixed"))])),
      Message("altitude", FC.Lookup(cache, "altitude")),
      Message("flyingState", FC.Lookup(cache, "flyingState")),
      Message("canTakeOff", FC.Lookup(cache, "canTakeOff")),
      Message("camera", Obj([("maxSpeed", Obj([
        ("maxTiltSpeed", FC.Lookup(cache, "cameraMaxTiltSpeed")),
        ("maxPanSpeed", FC.Lookup(cache, "cameraMaxPanSpeed"))]))])),
      Message("check", Obj([
        ("lastRTHStatus", FC.Lookup(cache, "lastRTHStatus")),
        ("lastHomeTypeStatus", FC.Lookup(cache, "lastHomeTypeStatus")),
        ("lastCalibrationStatus", FC.Lookup(cache, "lastCalibrationStatus")),
        ("lastHardwareStatus", FC.Lookup(cache, "lastHardwareStatus"))]))
    ]
  }

  /** The snapshot's actions, in the order the client receives them. */
  lemma InitialPacketOrder(cache: map<string, Json>, now: real, isConnected: bool, battery: Json)
    ensures var r := InitialPackets(cache, now, isConnected, battery);
      [r[0].action, r[1].action, r[2].action, r[3].action, r[4].action, r[5].action, r[6].action, r[7].action, r[8].action]
        == ["init", "state", "battery", "gps", "altitude", "flyingState", "canTakeOff", "camera", "check"]
  {
  }

  /** The seeded `canTakeOff`, `takeOffAt` and `lastHardwareStatus` survive
      any stream of vehicle events: no handler writes them. */
  lemma {:induction false} SeedFlagsSurvive(events: seq<FE.VehicleEvent>)
    ensures FC.Lookup(FE.Replay(Defaults(), events), "canTakeOff") == Bool(false)
    ensures FC.Lookup(FE.Replay(Defaults(), events), "takeOffAt") == Num(-1.0)
    ensures FC.Lookup(FE.Replay(Defaults(), events), "lastHardwareStatus") == Bool(true)
  {
    FE.ReplayKeepsUnwrittenKeys(Defaults(), events, "canTakeOff");
    FE.ReplayKeepsUnwrittenKeys(Defaults(), events, "takeOffAt");
    FE.ReplayKeepsUnwrittenKeys(Defaults(), events, "lastHardwareStatus");
  }

  /** The snapshot reports the cache as it stands and the link as it is. */
  lemma SnapshotMirrorsCache(cache: map<string, Json>, now: real, isConnected: bool, battery: Json)
    ensures var r := InitialPackets(cache, now, isConnected, battery);
      && r[1].data.fields == [("flyingTime", FlyingTime(FC.Lookup(cache, "takeOffAt"), now)),
                              ("flyingState", FC.Lookup(cache, "flyingState")),
                              ("canTakeOff", FC.Lookup(cache, "canTakeOff")),
                              ("isDiscoConnected", Bool(isConnected))]
      && r[2].data == Obj([("percent", battery)])
      && r[3].data == Obj([("isFixed", FC.Lookup(cache, "gpsFixed"))])
      && r[4].data == FC.Lookup(cache, "altitude")
      && r[5].data == FC.Lookup(cache, "flyingState")
      && r[6].data == FC.Lookup(cache, "canTakeOff")
      && r[8].data.fields == [("lastRTHStatus", FC.Lookup(cache, "lastRTHStatus")),
                              ("lastHomeTypeStatus", FC.Lookup(cache, "lastHomeTypeStatus")),
                              ("lastCalibrationStatus", FC.Lookup(cache, "lastCalibrationStatus")),
                              ("lastHardwareStatus", FC.Lookup(cache, "lastHardwareStatus"))]
  {
  }

  /** A peer that connects while the cache still holds the seeded take-off
      state is told it cannot take off, has been flying for 0 ms, and sees
      the hardware check as passed. */
  predicate Grounded(snapshot: seq<Packet>) {
    && |snapshot| == 9
    && snapshot[1].data.Obj? && |snapshot[1].data.fields| == 4
    && snapshot[1].data.fields[0] == ("flyingTime", Num(0.0))
    && snapshot[1].data.fields[2] == ("canTakeOff", Bool(false))
    && snapshot[6].data == Bool(false)
    && snapshot[8].data.Obj? && |snapshot[8].data.fields| == 4
    && snapshot[8].data.fields[3] == ("lastHardwareStatus", Bool(true))
  }

  lemma SnapshotOfSeededCache(cache: map<string, Json>, now: real, isConnected: bool, battery: Json)
    requires FC.Lookup(cache, "canTakeOff") == Bool(false)
    requires FC.Lookup(cache, "takeOffAt") == Num(-1.0)
    requires FC.Lookup(cache, "lastHardwareStatus") == Bool(true)
    ensures Grounded(InitialPackets(cache, now, isConnected, battery))
  {
    SnapshotMirrorsCache(cache, now, isConnected, battery);
  }

  /** Whatever the vehicle has reported since start-up, a new peer's snapshot
      is grounded. */
  lemma {:induction false} SnapshotAfterEvents(events: seq<FE.VehicleEvent>, now: real, isConnected: bool, battery: Json)
    ensures Grounded(InitialPackets(FE.Replay(Defaults(), events), now, isConnected, battery))
  {
    SeedFlagsSurvive(events);
    SnapshotOfSeededCache(FE.Replay(Defaults(), events), now, isConnected, battery);
  }

  /** Whatever the vehicle has reported since start-up, no packet makes the
      relay issue a take-off: nothing in the relay ever sets `canTakeOff`. */
  lemma {:induction false} TakeOffNeverIssued(events: seq<FE.VehicleEvent>, noDisco: bool, p: map<string, bool>,
                                              a: Axes, catalog: map<string, map<string, bool>>, now: real, packet: Json)
    ensures UserTakeOff !in Route(noDisco, p, FE.Replay(Defaults(), events), a, catalog, now, packet).commands
  {
    SeedFlagsSurvive(events);
    if UserTakeOff in Route(noDisco, p, FE.Replay(Defaults(), events), a, catalog, now, packet).commands {
      TakeOffNeedsCanTakeOff(noDisco, p, FE.Replay(Defaults(), events), a, catalog, now, packet);
    }
  }

  // ----------------------------------------------------------------- fan-out

  /** The sessions `sendPacketToEveryone` walks, in registry order. */
  function Targets(ids: seq<string>, users: map<string, U.User>, onlyAuthorized: bool): seq<string> {
    if onlyAuthorized then U.AuthorizedIds(ids, users) else ids
  }

  /** One packet handed to each target in turn; a target whose send throws is
      skipped and the walk goes on. */
  function Deliveries(targets: seq<string>, down: set<string>, p: Packet): seq<Delivery>
    decreases |targets|
  {
    if targets == [] then []
    else
      var last := targets[|targets| - 1];
      Deliveries(targets[..|targets| - 1], down, p) + (if last in down then [] else [Delivery(last, p)])
  }

  /** Walking one more target appends its delivery, if its send succeeds. */
  lemma DeliveriesStep(targets: seq<string>, i: nat, down: set<string>, p: Packet)
    requires i < |targets|
    ensures Deliveries(targets[..i + 1], down, p)
         == Deliveries(targets[..i], down, p) + (if targets[i] in down then [] else [Delivery(targets[i], p)])
  {
    assert targets[..i + 1][..i] == targets[..i];
  }

  /** Exactly the reachable targets receive the packet, and nothing else is
      delivered. */
  lemma {:induction false} DeliveredIff(targets: seq<string>, down: set<string>, p: Packet, d: Delivery)
    ensures d in Deliveries(targets, down, p) <==> d.packet == p && d.to in targets && d.to !in down
    decreases |targets|
  {
    if targets != [] {
      var init := targets[..|targets| - 1];
      DeliveredIff(init, down, p, d);
      assert targets == init + [targets[|targets| - 1]];
    }
  }

  /** A packet fanned out from a consistent registry reaches every reachable
      session (every authorized one when restricted) and no other. */
  lemma FanOutReaches(ids: seq<string>, users: map<string, U.User>, onlyAuthorized: bool,
                      down: set<string>, p: Packet, to: string)
    requires forall id :: id in users <==> id in ids
    ensures Delivery(to, p) in Deliveries(Targets(ids, users, onlyAuthorized), down, p)
        <==> to in users && to !in down && (onlyAuthorized ==> users[to].isAuthorized)
  {
    DeliveredIff(Targets(ids, users, onlyAuthorized), down, p, Delivery(to, p));
  }

  /** Several packets fanned out one after the other. */
  function Broadcasts(targets: seq<string>, down: set<string>, ps: seq<Packet>): seq<Delivery>
    decreases |ps|
  {
    if ps == [] then []
    else Broadcasts(targets, down, ps[..|ps| - 1]) + Deliveries(targets, down, ps[|ps| - 1])
  }

  /** Fanning out one more packet appends its deliveries. */
  lemma BroadcastsSnoc(targets: seq<string>, down: set<string>, ps: seq<Packet>, p: Packet)
    ensures Broadcasts(targets, down, ps + [p]) == Broadcasts(targets, down, ps) + Deliveries(targets, down, p)
  {
    assert (ps + [p])[..|ps|] == ps;
  }

  /** Fanning out the next packet of a sequence extends the log of its
      prefix. */
  lemma BroadcastsStep(ids: seq<string>, down: set<string>, ps: seq<Packet>, i: nat,
                       start: seq<Delivery>, before: seq<Delivery>, after: seq<Delivery>)
    requires i < |ps|
    requires before == start + Broadcasts(ids, down, ps[..i])
    requires after == before + Deliveries(ids, down, ps[i])
    ensures after == start + Broadcasts(ids, down, ps[..i + 1])
  {
    var q := ps[..i + 1];
    assert q[..|q| - 1] == ps[..i];
    assert Broadcasts(ids, down, q) == Broadcasts(ids, down, ps[..i]) + Deliveries(ids, down, ps[i]);
  }

  /** Packets handed, in order, to one session's peer. */
  function Addressed(id: string, ps: seq<Packet>): (r: seq<Delivery>)
    ensures |r| == |ps|
    ensures forall k :: 0 <= k < |r| ==> r[k] == Delivery(id, ps[k])
  {
    seq(|ps|, k requires 0 <= k < |ps| => Delivery(id, ps[k]))
  }

  /** The deliveries of a router outcome's packets for the session `id`. */
  function Deliver(sends: seq<Send>, id: string, down: set<string>,
                   ids: seq<string>, users: map<string, U.User>): seq<Delivery>
    decreases |sends|
  {
    if sends == [] then []
    else
      var first := match sends[0]
        case Reply(p) => if id in down then [] else [Delivery(id, p)]
        case Broadcast(p, onlyAuthorized) => Deliveries(Targets(ids, users, onlyAuthorized), down, p);
      first + Deliver(sends[1..], id, down, ids, users)
  }

  /** Writing one key twice leaves only the second write. */
  lemma UpdateTwice(m: map<string, U.User>, k: string, a: U.User, b: U.User)
    ensures m[k := a][k := b] == m[k := b]
  {
  }

  /** Two replies reach the session in order, or neither does. */
  lemma TwoReplies(first: Packet, second: Packet, id: string, down: set<string>,
                   ids: seq<string>, users: map<string, U.User>)
    ensures Deliver([Reply(first), Reply(second)], id, down, ids, users)
         == if id in down then [] else [Delivery(id, first), Delivery(id, second)]
  {
    var one, two := [Reply(second)], [Reply(first), Reply(second)];
    assert one[1..] == [] && two[1..] == one;
    assert Deliver(one, id, down, ids, users) == if id in down then [] else [Delivery(id, second)];
    assert Deliver(two, id, down, ids, users)
        == (if id in down then [] else [Delivery(id, first)]) + Deliver(one, id, down, ids, users);
  }

  /** Replies to a session whose peer fails to send are all lost. */
  lemma {:induction false} RepliesToDownPeer(sends: seq<Send>, id: string, down: set<string>,
                                             ids: seq<string>, users: map<string, U.User>)
    requires id in down
    requires forall s :: s in sends ==> s.Reply?
    ensures Deliver(sends, id, down, ids, users) == []
    decreases |sends|
  {
    if sends != [] {
      assert sends[0] in sends;
      assert forall s :: s in sends[1..] ==> s in sends;
      RepliesToDownPeer(sends[1..], id, down, ids, users);
    }
  }

  // ---------------------------------------------------------- link supervisor

  /** `{ action: 'state', data: { isDiscoConnected } }` */
  function LinkState(connected: bool): Packet {
    Message("state", Obj([("isDiscoConnected", Bool(connected))]))
  }

  /** How rediscovery went, as told to every session: the link back up and a
      success alert, or a danger alert. */
  function RediscoveryReport(discovered: bool): (r: seq<Packet>)
    ensures |r| == if discovered then 2 else 1
  {
    if discovered then [LinkState(true), Alert("success", "Disco connected")]
    else [Alert("danger", "Disco not discovered")]
  }

  /** The broadcasts of the disconnect handler after the first: the warning
      that the link is being re-established, then the report. */
  function RediscoveryPackets(discovered: bool): (r: seq<Packet>)
    ensures |r| == if discovered then 3 else 2
  {
    [Alert("warning", "Disco disconnected, reconnecting..")] + RediscoveryReport(discovered)
  }

  /** The warning, then the report, make up the rediscovery broadcasts. */
  lemma RediscoveryBroadcasts(ids: seq<string>, down: set<string>, discovered: bool,
                              start: seq<Delivery>, warned: seq<Delivery>, end: seq<Delivery>)
    requires warned == start + Broadcasts(ids, down, [Alert("warning", "Disco disconnected, reconnecting..")])
    requires end == warned + Broadcasts(ids, down, RediscoveryReport(discovered))
    ensures end == start + Broadcasts(ids, down, RediscoveryPackets(discovered))
  {
    BroadcastsAppend(ids, down, [Alert("warning", "Disco disconnected, reconnecting..")], RediscoveryReport(discovered));
  }

  /** Every broadcast of the disconnect handler, in order: sessions learn the
      link is down, then how rediscovery went. */
  function ReconnectPackets(discovered: bool): (r: seq<Packet>)
    ensures |r| == if discovered then 4 else 3
    ensures r[0] == LinkState(false)
    ensures r[1] == Alert("warning", "Disco disconnected, reconnecting..")
    ensures discovered <==> LinkState(true) in r
    ensures discovered <==> r[|r| - 1] == Alert("success", "Disco connected")
  {
    [LinkState(false)] + RediscoveryPackets(discovered)
  }

  /** Fanning out two lists one after the other is fanning out their
      concatenation. */
  lemma {:induction false} BroadcastsAppend(targets: seq<string>, down: set<string>, xs: seq<Packet>, ys: seq<Packet>)
    ensures Broadcasts(targets, down, xs + ys) == Broadcasts(targets, down, xs) + Broadcasts(targets, down, ys)
    decreases |ys|
  {
    if ys == [] {
      assert xs + ys == xs;
    } else {
      var init, last := ys[..|ys| - 1], ys[|ys| - 1];
      assert xs + ys == (xs + init) + [last];
      assert ys == init + [last];
      BroadcastsSnoc(targets, down, xs + init, last);
      BroadcastsSnoc(targets, down, init, last);
      BroadcastsAppend(targets, down, xs, init);
    }
  }

  /** The disconnect handler's fan-out, in two steps: link down, then the
      rediscovery packets. */
  lemma DisconnectBroadcasts(ids: seq<string>, down: set<string>, discovered: bool,
                             start: seq<Delivery>, afterDown: seq<Delivery>, end: seq<Delivery>)
    requires afterDown == start + Broadcasts(ids, down, [LinkState(false)])
    requires end == afterDown + Broadcasts(ids, down, RediscoveryPackets(discovered))
    ensures end == start + Broadcasts(ids, down, ReconnectPackets(discovered))
  {
    BroadcastsAppend(ids, down, [LinkState(false)], RediscoveryPackets(discovered));
  }

  /** Every record given the one new stream. */
  function WithStream(users: map<string, U.User>, s: U.StreamId): (r: map<string, U.User>)
    ensures r.Keys == users.Keys
    ensures forall id :: id in r ==> r[id] == users[id].(stream := Some(s))
  {
    map id | id in users :: users[id].(stream := Some(s))
  }

  /** The capability set a new session starts with: everything denied. */
  function NoPermissions(): (p: map<string, bool>)
    ensures forall k :: k in p ==> !p[k]
    ensures |p.Keys| == 6
  {
    var p := map["isSuperUser" := false, "canPilotingPitch" := false, "canPilotingRoll" := false,
                 "canPilotingThrottle" := false, "canMoveCamera" := false, "canUseAutonomy" := false];
    assert p.Keys == {"isSuperUser", "canPilotingPitch", "canPilotingRoll",
                      "canPilotingThrottle", "canMoveCamera", "canUseAutonomy"};
    p
  }

  /** A new session can do nothing until the admin or a token grants it. */
  lemma NewSessionCannotCommand(cache: map<string, Json>, a: Axes, catalog: map<string, map<string, bool>>,
                                now: real, packet: Json)
    ensures Route(false, NoPermissions(), cache, a, catalog, now, packet).commands == []
    ensures Route(false, NoPermissions(), cache, a, catalog, now, packet).steer.None?
  {
    RouteIsGated(false, NoPermissions(), cache, a, catalog, now, packet);
    var r := Route(false, NoPermissions(), cache, a, catalog, now, packet);
    assert forall c :: !Permits(NoPermissions(), c);
  }

  /** The relay process: the registry, the shared cache with the vehicle-event
      handlers bound to it, the piloting record, the link flags, and the logs
      of vehicle commands and of packets handed to peers. */
  class Relay {
    const startWithoutDisco: bool
    /** Which tokens authorize a session, and with which capabilities. */
    const catalog: map<string, map<string, bool>>
    const clients: U.Users
    const localCache: FC.FlightCache
    const events: FE.FlightEvents
    const piloting: PilotingData
    var isConnected: bool
    var reconnecting: bool
    var streamRunning: bool
    var commands: seq<Command>
    var outbox: seq<Delivery>

    ghost predicate Valid()
      reads clients, events
    {
      clients.Valid() && events.localCache == localCache
    }

    constructor (startWithoutDisco: bool, catalog: map<string, map<string, bool>>)
      ensures Valid() && fresh(clients) && fresh(localCache) && fresh(events) && fresh(piloting)
      ensures this.startWithoutDisco == startWithoutDisco && this.catalog == catalog
      ensures localCache.cache == Defaults() && clients.users == map[] && piloting.Current() == Still
      ensures !isConnected && !reconnecting && !streamRunning && commands == [] && outbox == []
    {
      this.startWithoutDisco := startWithoutDisco;
      this.catalog := catalog;
      clients := new U.Users();
      var cache := new FC.FlightCache(Defaults());
      localCache := cache;
      events := new FE.FlightEvents(cache);
      piloting := new PilotingData();
      isConnected, reconnecting, streamRunning := false, false, false;
      commands, outbox := [], [];
    }

    /** Start-up: unless running without a vehicle, connect; a failed connect
        ends the process, a successful one enables the video stream. */
    method Start(connected: bool) returns (exits: bool)
      modifies this`isConnected, this`commands, this`streamRunning
      ensures startWithoutDisco ==> !exits && unchanged(this)
      ensures !startWithoutDisco ==> isConnected == connected && exits == !connected
      ensures !startWithoutDisco && connected ==> commands == old(commands) + [EnableVideoStream] && streamRunning
    {
      exits := false;
      if !startWithoutDisco {
        isConnected := connected;
        if !isConnected {
          return true;
        }
        commands := commands + [EnableVideoStream];
        streamRunning := true;
      }
    }

    /** Hands a packet to one session's peer, unless its send throws. */
    method SendTo(id: string, p: Packet, down: set<string>) returns (ok: bool)
      modifies this`outbox
      ensures ok <==> id !in down
      ensures outbox == old(outbox) + (if ok then [Delivery(id, p)] else [])
    {
      ok := id !in down;
      if ok {
        outbox := outbox + [Delivery(id, p)];
      }
    }

    /** `sendPacketToEveryone` */
    method SendPacketToEveryone(packet: Packet, onlyAuthorized: bool, down: set<string>)
      requires Valid()
      modifies this`outbox
      ensures outbox == old(outbox) + Deliveries(Targets(clients.ids, clients.users, onlyAuthorized), down, packet)
    {
      var targets := clients.ids;
      if onlyAuthorized {
        var _, order := clients.GetAuthorizedUsers();
        targets := order;
      }
      DeliverEach(targets, down, packet);
    }

    /** The walk over the chosen sessions: each send is attempted in turn and
        one that throws is skipped. */
    method DeliverEach(targets: seq<string>, down: set<string>, packet: Packet)
      modifies this`outbox
      ensures outbox == old(outbox) + Deliveries(targets, down, packet)
    {
      var i := 0;
      while i < |targets|
        invariant 0 <= i <= |targets|
        invariant outbox == old(outbox) + Deliveries(targets[..i], down, packet)
      {
        DeliveriesStep(targets, i, down, packet);
        if targets[i] !in down {
          outbox := outbox + [Delivery(targets[i], packet)];
        }
        i := i + 1;
      }
      assert targets[..i] == targets;
    }

    /** A vehicle event: its handler updates the cache, and each packet it
        emits is fanned out to all sessions. */
    method OnVehicleEvent(e: FE.VehicleEvent, down: set<string>)
      requires Valid()
      modifies localCache, events, this`outbox
      ensures Valid()
      ensures localCache.cache == FE.Written(old(localCache.cache), FE.React(e).writes)
      ensures outbox == old(outbox) + Broadcasts(clients.ids, down, FE.React(e).packets)
    {
      events.Handle(e);
      BroadcastAll(FE.React(e).packets, down);
    }

    /** Each packet in turn through `sendPacketToEveryone`. */
    method BroadcastAll(packets: seq<Packet>, down: set<string>)
      requires Valid()
      modifies this`outbox
      ensures outbox == old(outbox) + Broadcasts(clients.ids, down, packets)
    {
      var i := 0;
      while i < |packets|
        invariant 0 <= i <= |packets|
        invariant outbox == old(outbox) + Broadcasts(clients.ids, down, packets[..i])
      {
        ghost var before := outbox;
        SendPacketToEveryone(packets[i], false, down);
        BroadcastsStep(clients.ids, down, packets, i, old(outbox), before, outbox);
        i := i + 1;
      }
      assert packets[..i] == packets;
    }

    /** `io.on('connection')`: a new session with every capability denied. */
    method OnConnection(id: string, address: string, stream: U.StreamId)
      requires Valid()
      modifies clients
      ensures Valid()
      ensures clients.users == old(clients.users)[id := U.User(id, address, NoPermissions(), Some(stream), false)]
    {
      clients.Create(id, address, NoPermissions(), Some(stream));
    }

    /** `peer.on('connect')`: the snapshot, packet by packet; the sends are
        not guarded, so a failing peer stops the handler at the first one. */
    method OnPeerConnect(id: string, now: real, battery: Json, down: set<string>) returns (faulted: bool)
      modifies this`outbox
      ensures faulted <==> id in down
      ensures outbox == old(outbox) +
        if faulted then [] else Addressed(id, InitialPackets(localCache.cache, now, isConnected, battery))
    {
      var packets := InitialPackets(localCache.cache, now, isConnected, battery);
      var i := 0;
      while i < |packets|
        invariant 0 <= i <= |packets|
        invariant i > 0 ==> id !in down
        invariant outbox == old(outbox) + Addressed(id, packets[..i])
      {
        var ok := SendTo(id, packets[i], down);
        if !ok {
          return true;
        }
        assert Addressed(id, packets[..i + 1]) == Addressed(id, packets[..i]) + [Delivery(id, packets[i])];
        i := i + 1;
      }
      assert packets[..i] == packets;
      faulted := false;
    }

    /** `socket.on('disconnect')`: the session is forgotten; nothing else
        changes. */
    method OnSocketDisconnect(id: string)
      requires Valid()
      modifies clients
      ensures Valid()
      ensures clients.users == old(clients.users) - {id}
      ensures clients.ids == U.Without(old(clients.ids), id)
    {
      clients.Delete(id);
    }

    /** `disco.on('disconnected')`, run to completion. `discovered` is what
        rediscovery reports, `newStream` the stream built afterwards. */
    method OnDisconnected(discovered: bool, newStream: U.StreamId, down: set<string>)
      requires Valid()
      modifies this`isConnected, this`reconnecting, this`streamRunning, this`commands, this`outbox, clients
      ensures Valid() && clients.ids == old(clients.ids)
      ensures old(reconnecting) ==>
        && !isConnected && reconnecting && streamRunning == old(streamRunning)
        && commands == old(commands) && clients.users == old(clients.users)
        && outbox == old(outbox) + Broadcasts(clients.ids, down, [LinkState(false)])
      ensures !old(reconnecting) ==>
        && !reconnecting
        && isConnected == discovered && streamRunning == discovered
        && commands == old(commands) + (if discovered then [EnableVideoStream] else [])
        && clients.users == (if discovered then WithStream(old(clients.users), newStream) else old(clients.users))
        && outbox == old(outbox) + Broadcasts(clients.ids, down, ReconnectPackets(discovered))
    {
      LinkDown(down);
      if !reconnecting {
        ghost var afterDown := outbox;
        Reconnect(discovered, newStream, down);
        DisconnectBroadcasts(clients.ids, down, discovered, old(outbox), afterDown, outbox);
      }
    }

    /** The first step of the disconnect handler: the link is marked down and
        every session is told. */
    method LinkDown(down: set<string>)
      requires Valid()
      modifies this`isConnected, this`outbox
      ensures !isConnected
      ensures outbox == old(outbox) + Broadcasts(clients.ids, down, [LinkState(false)])
    {
      isConnected := false;
      SendPacketToEveryone(LinkState(false), false, down);
      BroadcastsSnoc(clients.ids, down, [], LinkState(false));
      assert [] + [LinkState(false)] == [LinkState(false)];
    }

    /** The rest of the disconnect handler: stop the stream, warn, rediscover,
        and either restore the link and give every session the new stream, or
        report the failure. */
    method Reconnect(discovered: bool, newStream: U.StreamId, down: set<string>)
      requires Valid()
      modifies this`isConnected, this`reconnecting, this`streamRunning, this`commands, this`outbox, clients
      ensures Valid() && clients.ids == old(clients.ids)
      ensures !reconnecting && isConnected == (old(isConnected) || discovered) && streamRunning == discovered
      ensures commands == old(commands) + (if discovered then [EnableVideoStream] else [])
      ensures clients.users == (if discovered then WithStream(old(clients.users), newStream) else old(clients.users))
      ensures outbox == old(outbox) + Broadcasts(clients.ids, down, RediscoveryPackets(discovered))
    {
      streamRunning := false;
      ghost var start := outbox;
      BroadcastAll([Alert("warning", "Disco disconnected, reconnecting..")], down);
      ghost var warned := outbox;
      reconnecting := true;
      if discovered {
        Restore(newStream, down);
      } else {
        BroadcastAll(RediscoveryReport(false), down);
      }
      RediscoveryBroadcasts(clients.ids, down, discovered, start, warned, outbox);
      reconnecting := false;
    }

    /** The vehicle was found again: the link is back, the video stream is
        enabled and restarted, and every session is given the new stream. */
    method Restore(newStream: U.StreamId, down: set<string>)
      requires Valid()
      modifies this`isConnected, this`streamRunning, this`commands, this`outbox, clients
      ensures Valid() && clients.ids == old(clients.ids)
      ensures isConnected && streamRunning
      ensures commands == old(commands) + [EnableVideoStream]
      ensures clients.users == WithStream(old(clients.users), newStream)
      ensures outbox == old(outbox) + Broadcasts(clients.ids, down, RediscoveryReport(true))
    {
      isConnected := true;
      BroadcastAll(RediscoveryReport(true), down);
      commands := commands + [EnableVideoStream];
      streamRunning := true;
      GiveStream(newStream);
    }

    /** The loop over `getUsers()` that hands every session the new stream. */
    method GiveStream(newStream: U.StreamId)
      requires Valid()
      modifies clients
      ensures Valid() && clients.ids == old(clients.ids)
      ensures clients.users == WithStream(old(clients.users), newStream)
    {
      var i := 0;
      while i < |clients.ids|
        invariant 0 <= i <= |clients.ids|
        invariant Valid() && clients.ids == old(clients.ids)
        invariant clients.users.Keys == old(clients.users).Keys
        invariant forall id :: id in clients.users ==>
          clients.users[id] == if id in clients.ids[..i] then old(clients.users)[id].(stream := Some(newStream)) else old(clients.users)[id]
      {
        var id := clients.ids[i];
        assert clients.ids[..i + 1] == clients.ids[..i] + [id];
        assert id !in clients.ids[..i];
        clients.SetStream(id, newStream);
        i := i + 1;
      }
      assert clients.ids[..i] == clients.ids;
    }

    /** `peer.on('data')` for the session `id`, with the sessions whose
        peers fail to send named in `down`. */
    method HandlePacket(id: string, packet: Json, now: real, down: set<string>) returns (faulted: bool)
      requires Valid() && id in clients.users
      modifies this`commands, this`outbox, clients, piloting
      ensures Valid() && clients.ids == old(clients.ids)
      ensures var r := Route(startWithoutDisco, old(clients.users)[id].permissions, localCache.cache,
                             old(piloting.Current()), catalog, now, packet);
        && commands == old(commands) + r.commands
        && piloting.Current() == (if r.steer.Some? then r.steer.value else old(piloting.Current()))
        && clients.users == (if r.grant.Some? then
                               old(clients.users)[id := old(clients.users)[id].(permissions := r.grant.value, isAuthorized := true)]
                             else old(clients.users))
        && outbox == old(outbox) + Deliver(r.sends, id, down, old(clients.ids), old(clients.users))
        && faulted == (r.throws || (r.grant.Some? && id in down))
    {
      var p := clients.GetPermissions(id);
      var permissions := p.value;
      ghost var r := Route(startWithoutDisco, permissions, localCache.cache, piloting.Current(), catalog, now, packet);
      if Nullish(packet) {
        return true;
      }
      var action, data := Field(packet, "action"), Field(packet, "data");
      if VehicleAction(action) {
        if !startWithoutDisco {
          faulted := VehicleBlocks(permissions, action, data, Field(packet, "force"), id, down);
        } else {
          faulted := false;
        }
      } else {
        faulted := SessionBlock(action, data, id, now, down);
      }
    }

    /** The blocks guarded by the vehicle being attached; each runs only for
        a session holding its capability. */
    method VehicleBlocks(permissions: map<string, bool>, action: Json, data: Json, force: Json,
                         id: string, down: set<string>) returns (faulted: bool)
      requires Valid() && VehicleAction(action)
      modifies this`commands, this`outbox, piloting
      ensures var r := VehicleRoute(permissions, localCache.cache, old(piloting.Current()), action, data, force);
        && commands == old(commands) + r.commands
        && piloting.Current() == (if r.steer.Some? then r.steer.value else old(piloting.Current()))
        && outbox == old(outbox) + Deliver(r.sends, id, down, clients.ids, clients.users)
        && faulted == r.throws
    {
      if PilotAction(action) {
        if CanPilot(permissions) {
          faulted := PilotBlock(action, data);
        } else {
          faulted := false;
        }
      } else if CameraAction(action) {
        if U.Granted(permissions, "canMoveCamera") {
          faulted := CameraBlock(action, data, id, down);
        } else {
          faulted := false;
        }
      } else if action == Str("rth") {
        if U.Granted(permissions, "canUseAutonomy") {
          AutonomyBlock(data, id, down);
        }
        faulted := false;
      } else {
        if U.Granted(permissions, "isSuperUser") {
          SuperUserBlock(action, data, force, id, down);
        }
        faulted := false;
      }
    }

    method PilotBlock(action: Json, data: Json) returns (faulted: bool)
      requires PilotAction(action)
      modifies this`commands, piloting
      ensures var r := PilotRoute(action, data, old(piloting.Current()));
        && commands == old(commands) + r.commands
        && piloting.Current() == (if r.steer.Some? then r.steer.value else old(piloting.Current()))
        && r.sends == [] && r.grant.None? && faulted == r.throws
    {
      if action == Str("circle") {
        if data.Str? && V.IsCircleDirection(data.s) {
          commands := commands + [Circle(V.CircleDirection(data.s))];
        }
        return false;
      }
      if Nullish(data) {
        return true;
      }
      piloting.ApplyMove(Field(data, "pitch"), Field(data, "roll"), Field(data, "throttle"));
      faulted := false;
    }

    method CameraBlock(action: Json, data: Json, id: string, down: set<string>) returns (faulted: bool)
      requires Valid() && CameraAction(action)
      modifies this`commands, this`outbox
      ensures var r := CameraRoute(action, data, localCache.cache);
        && commands == old(commands) + r.commands
        && outbox == old(outbox) + Deliver(r.sends, id, down, clients.ids, clients.users)
        && r.steer.None? && r.grant.None? && faulted == r.throws
    {
      if action == Str("camera-center") {
        var tilt := localCache.Get("defaultCameraTilt");
        var pan := localCache.Get("defaultCameraPan");
        commands := commands + [CameraMoveTo(tilt, pan)];
        return false;
      }
      if Nullish(data) {
        return true;
      }
      var kind, tilt, pan := Field(data, "type"), Field(data, "tilt"), Field(data, "pan");
      if kind == Str("absolute") {
        commands := commands + [CameraMoveTo(tilt, pan)];
      } else if kind == Str("degrees") {
        commands := commands + [CameraMove(tilt, pan)];
        SendPacketToEveryone(CameraSpeed(tilt, pan), true, down);
      }
      faulted := false;
    }

    method AutonomyBlock(data: Json, id: string, down: set<string>)
      modifies this`commands, this`outbox
      ensures var r := AutonomyRoute(Str("rth"), data);
        && commands == old(commands) + r.commands
        && outbox == old(outbox) + Deliver(r.sends, id, down, clients.ids, clients.users)
        && r.steer.None? && r.grant.None? && !r.throws
    {
      if Truthy(data) {
        commands := commands + [ReturnToHome];
        var _ := SendTo(id, Alert("info", "Returning to home"), down);
      } else {
        commands := commands + [StopReturnToHome];
        var _ := SendTo(id, Alert("warning", "Returning to home stopped"), down);
      }
    }

    method SuperUserBlock(action: Json, data: Json, force: Json, id: string, down: set<string>)
      requires SuperUserAction(action)
      modifies this`commands, this`outbox
      ensures var r := SuperUserRoute(action, data, force, localCache.cache);
        && commands == old(commands) + r.commands
        && outbox == old(outbox) + Deliver(r.sends, id, down, clients.ids, clients.users)
        && r.steer.None? && r.grant.None? && !r.throws
    {
      if action == Str("takeOff") {
        var canTakeOff := localCache.Get("canTakeOff");
        if Truthy(canTakeOff) {
          commands := commands + [UserTakeOff];
        }
      } else if action == Str("flightPlanStart") {
        FlightPlanStart(data, force, id, down);
      } else if action == Str("emergency") {
        if data == Str("landingFlightPlan") {
          commands := commands + [MavlinkStart(Str("land"))];
        }
      } else {
        HomeTest();
      }
    }

    method FlightPlanStart(data: Json, force: Json, id: string, down: set<string>)
      modifies this`commands, this`outbox
      ensures var r := FlightPlanRoute(data, force, localCache.cache);
        && commands == old(commands) + r.commands
        && outbox == old(outbox) + Deliver(r.sends, id, down, clients.ids, clients.users)
    {
      var canTakeOff := localCache.Get("canTakeOff");
      if Truthy(canTakeOff) || force == Bool(true) {
        if data == Str("test") {
          commands := commands + [MoveTo(53.353077, 17.64584, 80.0)];
        } else {
          commands := commands + [MavlinkStart(data)];
          var _ := SendTo(id, Alert("success", "Flight plan started"), down);
        }
      } else {
        var _ := SendTo(id, Alert("danger", "Flight plan failed"), down);
      }
    }

    /** `test`: the four SDK calls of the home-position test, one by one. */
    method HomeTest()
      modifies this`commands
      ensures commands == old(commands) + HomeTestCommands
    {
      commands := commands + [ResetHome];
      commands := commands + [SetHomeLocation(53.34877, 17.64075, 50.0)];
      commands := commands + [SendControllerGPS(53.34877, 17.64075, 50.0, 2.0, 2.0)];
      commands := commands + [SetHomeType(1)];
    }

    method SessionBlock(action: Json, data: Json, id: string, now: real, down: set<string>) returns (faulted: bool)
      requires Valid() && id in clients.users
      modifies this`outbox, clients
      ensures Valid() && clients.ids == old(clients.ids)
      ensures var r := SessionRoute(action, data, localCache.cache, catalog, now);
        && clients.users == (if r.grant.Some? then
                               old(clients.users)[id := old(clients.users)[id].(permissions := r.grant.value, isAuthorized := true)]
                             else old(clients.users))
        && outbox == old(outbox) + Deliver(r.sends, id, down, old(clients.ids), old(clients.users))
        && r.commands == [] && r.steer.None?
        && faulted == (r.throws || (r.grant.Some? && id in down))
    {
      if action == Str("pong") {
        Pong(data, id, now, down);
        faulted := false;
      } else if action == Str("init") {
        faulted := Init(data, id, down);
      } else {
        faulted := false;
      }
    }

    /** `pong`: the latency and the flying time, in one guarded block. */
    method Pong(data: Json, id: string, now: real, down: set<string>)
      modifies this`outbox
      ensures outbox == old(outbox) + Deliver(PongRoute(data, localCache.cache, now).sends,
                                              id, down, clients.ids, clients.users)
    {
      if Nullish(data) {
        return;
      }
      var latency := Message("latency", Latency(now, Field(data, "time")));
      var ok := SendTo(id, latency, down);
      if !ok {
        RepliesToDownPeer(PongRoute(data, localCache.cache, now).sends, id, down, clients.ids, clients.users);
      } else {
        var takeOffAt := localCache.Get("takeOffAt");
        var state := Message("state", Obj([("flyingTime", FlyingTime(takeOffAt, now))]));
        TwoReplies(latency, state, id, down, clients.ids, clients.users);
        ok := SendTo(id, state, down);
      }
    }

    /** `init`: a catalogued token replaces the session's capabilities and
        marks it authorized, then the session is told; these two sends are not
        guarded. */
    method Init(data: Json, id: string, down: set<string>) returns (faulted: bool)
      requires Valid() && id in clients.users
      modifies this`outbox, clients
      ensures Valid() && clients.ids == old(clients.ids)
      ensures var r := InitRoute(data, catalog);
        && clients.users == (if r.grant.Some? then
                               old(clients.users)[id := old(clients.users)[id].(permissions := r.grant.value, isAuthorized := true)]
                             else old(clients.users))
        && outbox == old(outbox) + Deliver(r.sends, id, down, old(clients.ids), old(clients.users))
        && faulted == (r.throws || (r.grant.Some? && id in down))
    {
      if Nullish(data) {
        return true;
      }
      var grant := TokenGrant(catalog, Field(data, "token"));
      if grant.Some? {
        var permission := Message("permission", Flags(grant.value));
        var authorized := Alert("success", "You got authorized by token");
        TwoReplies(permission, authorized, id, down, clients.ids, clients.users);
        Authorize(id, grant.value);
        var ok := SendBoth(id, permission, authorized, down);
        if !ok {
          return true;
        }
      }
      faulted := false;
    }

    /** Two sends in a row to one peer; when the first throws the second is
        never reached. */
    method SendBoth(id: string, first: Packet, second: Packet, down: set<string>) returns (ok: bool)
      modifies this`outbox
      ensures ok <==> id !in down
      ensures outbox == old(outbox) + (if ok then [Delivery(id, first), Delivery(id, second)] else [])
    {
      ok := SendTo(id, first, down);
      if ok {
        ok := SendTo(id, second, down);
      }
    }

    /** The two registry writes of a granted `init`: the new capability set,
        then the authorized flag. */
    method Authorize(id: string, permissions: map<string, bool>)
      requires Valid() && id in clients.users
      modifies clients
      ensures Valid() && clients.ids == old(clients.ids)
      ensures clients.users == old(clients.users)[id := old(clients.users)[id].(permissions := permissions, isAuthorized := true)]
    {
      ghost var before := clients.users;
      clients.SetPermissions(id, permissions);
      clients.SetAuthorized(id, true);
      UpdateTwice(before, id, before[id].(permissions := permissions),
                  before[id].(permissions := permissions, isAuthorized := true));
    }
  }
}
