/** Translation of the vehicle's named events into cache writes and packets
    broadcast to every session (src/modules/FlightEvents.module.ts). */
module FlightEvents {
  import opened Packets
  import FC = FlightCache

  /** The events the relay subscribes to, with the payload fields the handlers
      use. Fields the handlers only concatenate into text are carried as the
      text JavaScript's string conversion gives; `json` fields are
      JSON.stringify of the whole payload. */
  datatype VehicleEvent =
    | VideoStateChangedV2(state: string)
    | VideoStateChanged(state: string)
    | VibrationLevelChanged(stateText: string)
    | MoveToChanged(statusText: string)
    | MissonItemExecuted(idxText: string)
    | NavigateHomeStateChanged(json: string)
    | AlertStateChanged(json: string)
    | MavlinkFilePlayingStateChanged(state: string, json: string)
    | HomeChanged(json: string)
    | HomeTypeAvailabilityChanged(json: string)
    | MagnetoCalibrationRequiredState(required: int)
    | HomeTypeChosenChanged(homeType: string)
    | HomeTypeChanged(homeType: string)
    | AirSpeedChanged(airSpeed: Json)
    | AltitudeAboveGroundChanged(altitude: Json)
    | GPSFixStateChanged(fixed: int)
    | NumberOfSatelliteChanged(numberOfSatellite: Json)
    | BatteryStateChanged(percent: Json)
    | MavlinkPlayErrorStateChanged(data: Json)

  /** What one event does: the cache writes, in order, and the packets handed
      to `sendPacketToEveryone`, in order. */
  datatype Reaction = Reaction(writes: seq<(string, Json)>, packets: seq<Packet>)

  /** The only cache keys vehicle events ever write. */
  const WrittenKeys: set<string> :=
    {"lastCalibrationStatus", "lastRTHStatus", "lastHomeTypeStatus", "gpsFixed"}

  /** A cache after a list of writes. */
  function Written(m: map<string, Json>, writes: seq<(string, Json)>): map<string, Json>
    decreases |writes|
  {
    if writes == [] then m else Written(m[writes[0].0 := writes[0].1], writes[1..])
  }

  /** VideoStateChanged and VideoStateChangedV2 (both announce themselves as
      "(V2)"): an alert for "started" and for "stopped", nothing otherwise. */
  function RecordingAlert(state: string): (r: seq<Packet>)
    ensures |r| <= 1
    ensures |r| == 1 <==> state == "started" || state == "stopped"
    ensures forall p :: p in r ==> p.Message? && p.action == "alert"
    ensures |r| == 1 ==> r[0] == Alert("info", if state == "started" then "Recording has been started (V2)"
                                               else "Recording has been stopped (V2)")
  {
    if state == "started" then [Alert("info", "Recording has been started (V2)")]
    else if state == "stopped" then [Alert("info", "Recording has been stopped (V2)")]
    else []
  }

  /** MavlinkFilePlayingStateChanged: the raw alert always comes first, then
      one levelled alert for playing, paused or stopped. */
  function FlightPlanAlerts(state: string, json: string): (r: seq<Packet>)
    ensures 1 <= |r| <= 2
    ensures r[0] == AlertText("MavlinkFilePlayingStateChanged to " + json)
    ensures |r| == 2 <==> state in {"playing", "paused", "stopped"}
    ensures |r| == 2 ==> r[1].Message? && r[1].action == "alert" && r[1].data.Obj?
  {
    var raw := AlertText("MavlinkFilePlayingStateChanged to " + json);
    if state == "playing" then [raw, Alert("success", "Flight plan start confirmed")]
    else if state == "paused" then [raw, Alert("info", "Flight plan paused")]
    else if state == "stopped" then [raw, Alert("info", "Flight plan stopped")]
    else [raw]
  }

  /** MagnetoCalibrationRequiredState: the calibration status is "ok" exactly
      when no calibration is required; the danger alert follows the check
      packet only when calibration is required. */
  function CalibrationCheck(required: int): (r: Reaction)
    ensures r.writes == [("lastCalibrationStatus", Bool(required == 0))]
    ensures |r.packets| >= 1 && r.packets[0] == Check("lastCalibrationStatus", Bool(required == 0))
    ensures Alert("danger", "Magneto need calibration") in r.packets <==> required == 1
    ensures forall p :: p in r.packets && p.Message? && p.action == "check" ==> p == Check("lastCalibrationStatus", Bool(required == 0))
  {
    var ok := Bool(required == 0);
    Reaction([("lastCalibrationStatus", ok)],
             [Check("lastCalibrationStatus", ok)]
             + (if required == 1 then [Alert("danger", "Magneto need calibration")] else []))
  }

  /** HomeTypeChosenChanged and HomeTypeChanged: the status key becomes true
      exactly for the take-off home type; the check packet precedes the raw
      alert naming the event. */
  function HomeTypeCheck(key: string, prefix: string, homeType: string): (r: Reaction)
    ensures r.writes == [(key, Bool(homeType == "TAKEOFF"))]
    ensures |r.packets| == 2
    ensures r.packets[0] == Check(key, Bool(homeType == "TAKEOFF"))
    ensures r.packets[1] == AlertText(prefix + homeType)
  {
    var isTakeOff := Bool(homeType == "TAKEOFF");
    Reaction([(key, isTakeOff)], [Check(key, isTakeOff), AlertText(prefix + homeType)])
  }

  /** The events createChecks subscribes to. */
  predicate IsCheckEvent(e: VehicleEvent) {
    e.MagnetoCalibrationRequiredState? || e.HomeTypeChosenChanged? || e.HomeTypeChanged?
  }

  /** The events createTelemetry subscribes to. */
  predicate IsTelemetryEvent(e: VehicleEvent) {
    e.AirSpeedChanged? || e.AltitudeAboveGroundChanged? || e.GPSFixStateChanged?
    || e.NumberOfSatelliteChanged? || e.BatteryStateChanged? || e.MavlinkPlayErrorStateChanged?
  }

  /** The packets of the handlers registered by createAlerts, which write
      nothing. */
  function AlertPackets(e: VehicleEvent): (r: seq<Packet>)
    requires !IsCheckEvent(e) && !IsTelemetryEvent(e)
    ensures forall p :: p in r ==> p.Message? && p.action == "alert"
  {
    match e
    case VideoStateChangedV2(state) => RecordingAlert(state)
    case VideoStateChanged(state) => RecordingAlert(state)
    case VibrationLevelChanged(state) => [AlertText("VibrationLevelChanged changed to " + state)]
    case MoveToChanged(status) => [Alert("success", "MoveTo got " + status)]
    case MissonItemExecuted(idx) =>
      [AlertText("MissonItemExecuted changed to " + idx), Alert("success", "Executed waypoint #" + idx)]
    case NavigateHomeStateChanged(json) => [AlertText("NavigateHomeStateChanged got " + json)]
    case AlertStateChanged(json) => [AlertText("AlertStateChanged got " + json)]
    case MavlinkFilePlayingStateChanged(state, json) => FlightPlanAlerts(state, json)
    case HomeChanged(json) => [AlertText("HomeChanged to " + json)]
    case HomeTypeAvailabilityChanged(json) => [AlertText("HomeTypeAvailabilityChanged to " + json)]
  }

  /** The handlers registered by createChecks: one flag written, and a check
      packet carrying it. */
  function CheckReaction(e: VehicleEvent): (r: Reaction)
    requires IsCheckEvent(e)
    ensures |r.writes| == 1 && r.writes[0].0 in WrittenKeys
    ensures forall p :: p in r.packets && p.Message? && p.action == "check" ==> p == Check(r.writes[0].0, r.writes[0].1)
  {
    match e
    case MagnetoCalibrationRequiredState(required) => CalibrationCheck(required)
    case HomeTypeChosenChanged(homeType) =>
      HomeTypeCheck("lastRTHStatus", "HomeTypeChosenChanged got ", homeType)
    case HomeTypeChanged(homeType) =>
      HomeTypeCheck("lastHomeTypeStatus", "HomeTypeChanged got ", homeType)
  }

  /** The handlers registered by createTelemetry: one packet each; only the
      GPS fix is cached. */
  function TelemetryReaction(e: VehicleEvent): (r: Reaction)
    requires IsTelemetryEvent(e)
    ensures |r.packets| == 1 && !(r.packets[0].Message? && r.packets[0].action == "check")
    ensures r.writes == if e.GPSFixStateChanged? then [("gpsFixed", Bool(e.fixed == 1))] else []
  {
    match e
    case AirSpeedChanged(airSpeed) => Reaction([], [Message("airspeed", airSpeed)])
    case AltitudeAboveGroundChanged(altitude) => Reaction([], [Message("groundaltitude", altitude)])
    case GPSFixStateChanged(fixed) =>
      Reaction([("gpsFixed", Bool(fixed == 1))], [Message("gps", Obj([("isFixed", Bool(fixed == 1))]))])
    case NumberOfSatelliteChanged(satellites) => Reaction([], [Message("gps", Obj([("satellites", satellites)]))])
    case BatteryStateChanged(percent) => Reaction([], [Message("battery", Obj([("percent", percent)]))])
    case MavlinkPlayErrorStateChanged(data) => Reaction([], [Event("MavlinkPlayErrorStateChanged", data)])
  }

  /** The reaction to each event, as the handlers registered by
      createAlerts, createChecks and createTelemetry produce it. */
  function React(e: VehicleEvent): (r: Reaction)
    ensures forall w :: w in r.writes ==> w.0 in WrittenKeys
    ensures |r.writes| <= 1
    ensures forall p :: p in r.packets && p.Message? && p.action == "check" ==>
              |r.writes| == 1 && p == Check(r.writes[0].0, r.writes[0].1)
  {
    if IsCheckEvent(e) then CheckReaction(e)
    else if IsTelemetryEvent(e) then TelemetryReaction(e)
    else Reaction([], AlertPackets(e))
  }

  /** Pure telemetry is forwarded as exactly one packet and never cached. */
  predicate ForwardOnly(e: VehicleEvent) {
    e.AirSpeedChanged? || e.AltitudeAboveGroundChanged? || e.NumberOfSatelliteChanged?
    || e.BatteryStateChanged? || e.MavlinkPlayErrorStateChanged?
  }

  lemma ForwardOnlyWritesNothing(e: VehicleEvent)
    requires ForwardOnly(e)
    ensures React(e).writes == [] && |React(e).packets| == 1
  {
  }

  /** GPSFixStateChanged: the cached fix and the broadcast fix agree. */
  lemma GpsFixMirrored(fixed: int)
    ensures React(GPSFixStateChanged(fixed)).writes == [("gpsFixed", Bool(fixed == 1))]
    ensures React(GPSFixStateChanged(fixed)).packets
         == [Message("gps", Obj([("isFixed", Bool(fixed == 1))]))]
  {
  }

  /** Every check packet an event sends carries the value that same event has
      just written to the cache under that key. */
  lemma {:induction false} ChecksMirrorCache(e: VehicleEvent, m: map<string, Json>)
    ensures forall p :: p in React(e).packets && p.Message? && p.action == "check" ==>
              p.data.Obj? && |p.data.fields| == 1 &&
              FC.Lookup(Written(m, React(e).writes), p.data.fields[0].0) == p.data.fields[0].1
  {
    var r := React(e);
    if |r.writes| == 1 {
      assert Written(m, r.writes) == m[r.writes[0].0 := r.writes[0].1] by {
        assert r.writes[1..] == [];
      }
    }
  }

  /** A cache after a stream of vehicle events. */
  function Replay(m: map<string, Json>, events: seq<VehicleEvent>): map<string, Json>
    decreases |events|
  {
    if events == [] then m else Replay(Written(m, React(events[0]).writes), events[1..])
  }

  lemma {:induction false} WrittenKeepsOtherKeys(m: map<string, Json>, writes: seq<(string, Json)>, key: string)
    requires forall w :: w in writes ==> w.0 != key
    ensures FC.Lookup(Written(m, writes), key) == FC.Lookup(m, key)
    decreases |writes|
  {
    if writes != [] {
      assert writes[0] in writes;
      assert forall w :: w in writes[1..] ==> w in writes;
      WrittenKeepsOtherKeys(m[writes[0].0 := writes[0].1], writes[1..], key);
    }
  }

  /** No stream of vehicle events touches a key outside WrittenKeys (such as
      canTakeOff or takeOffAt): it keeps whatever value it started with. */
  lemma {:induction false} ReplayKeepsUnwrittenKeys(m: map<string, Json>, events: seq<VehicleEvent>, key: string)
    requires key !in WrittenKeys
    ensures FC.Lookup(Replay(m, events), key) == FC.Lookup(m, key)
    decreases |events|
  {
    if events != [] {
      var r := React(events[0]);
      WrittenKeepsOtherKeys(m, r.writes, key);
      ReplayKeepsUnwrittenKeys(Written(m, r.writes), events[1..], key);
    }
  }

  /** The handlers, bound to the shared cache; `sent` is the sequence of
      packets handed to `sendPacketToEveryone` (to all sessions). */
  class FlightEvents {
    const localCache: FC.FlightCache
    var sent: seq<Packet>

    constructor (localCache: FC.FlightCache)
      ensures this.localCache == localCache && sent == []
    {
      this.localCache := localCache;
      sent := [];
    }

    method SendToEveryone(p: Packet)
      modifies this`sent
      ensures sent == old(sent) + [p]
    {
      sent := sent + [p];
    }

    /** Writes a flag, then broadcasts it as read back from the cache. */
    method SetAndCheck(key: string, value: Json)
      modifies localCache, this`sent
      ensures localCache.cache == old(localCache.cache)[key := value]
      ensures sent == old(sent) + [Check(key, value)]
    {
      localCache.Set(key, value);
      var v := localCache.Get(key);
      SendToEveryone(Check(key, v));
    }

    /** Runs the handler registered for the event. */
    method Handle(e: VehicleEvent)
      modifies localCache, this`sent
      ensures localCache.cache == Written(old(localCache.cache), React(e).writes)
      ensures sent == old(sent) + React(e).packets
    {
      if IsCheckEvent(e) {
        HandleCheck(e);
      } else if IsTelemetryEvent(e) {
        HandleTelemetry(e);
      } else {
        HandleAlert(e);
      }
    }

    /** The handlers registered by createChecks. */
    method HandleCheck(e: VehicleEvent)
      requires IsCheckEvent(e)
      modifies localCache, this`sent
      ensures localCache.cache == Written(old(localCache.cache), CheckReaction(e).writes)
      ensures sent == old(sent) + CheckReaction(e).packets
    {
      match e
      case MagnetoCalibrationRequiredState(required) =>
        SetAndCheck("lastCalibrationStatus", Bool(required == 0));
        if required == 1 {
          SendToEveryone(Alert("danger", "Magneto need calibration"));
        }
      case HomeTypeChosenChanged(homeType) =>
        SetAndCheck("lastRTHStatus", Bool(homeType == "TAKEOFF"));
        SendToEveryone(AlertText("HomeTypeChosenChanged got " + homeType));
      case HomeTypeChanged(homeType) =>
        SetAndCheck("lastHomeTypeStatus", Bool(homeType == "TAKEOFF"));
        SendToEveryone(AlertText("HomeTypeChanged got " + homeType));
    }

    /** The handlers registered by createTelemetry. */
    method HandleTelemetry(e: VehicleEvent)
      requires IsTelemetryEvent(e)
      modifies localCache, this`sent
      ensures localCache.cache == Written(old(localCache.cache), TelemetryReaction(e).writes)
      ensures sent == old(sent) + TelemetryReaction(e).packets
    {
      match e
      case AirSpeedChanged(airSpeed) =>
        SendToEveryone(Message("airspeed", airSpeed));
      case AltitudeAboveGroundChanged(altitude) =>
        SendToEveryone(Message("groundaltitude", altitude));
      case GPSFixStateChanged(fixed) =>
        var isFixed := fixed == 1;
        localCache.Set("gpsFixed", Bool(isFixed));
        SendToEveryone(Message("gps", Obj([("isFixed", Bool(isFixed))])));
      case NumberOfSatelliteChanged(satellites) =>
        SendToEveryone(Message("gps", Obj([("satellites", satellites)])));
      case BatteryStateChanged(percent) =>
        SendToEveryone(Message("battery", Obj([("percent", percent)])));
      case MavlinkPlayErrorStateChanged(data) =>
        SendToEveryone(Event("MavlinkPlayErrorStateChanged", data));
    }

    /** The handlers registered by createAlerts: they only broadcast. */
    method HandleAlert(e: VehicleEvent)
      requires !IsCheckEvent(e) && !IsTelemetryEvent(e)
      modifies this`sent
      ensures sent == old(sent) + AlertPackets(e)
    {
      match e
      case VideoStateChangedV2(state) =>
        AnnounceRecording(state);
      case VideoStateChanged(state) =>
        AnnounceRecording(state);
      case VibrationLevelChanged(state) =>
        SendToEveryone(AlertText("VibrationLevelChanged changed to " + state));
      case MoveToChanged(status) =>
        SendToEveryone(Alert("success", "MoveTo got " + status));
      case MissonItemExecuted(idx) =>
        SendToEveryone(AlertText("MissonItemExecuted changed to " + idx));
        SendToEveryone(Alert("success", "Executed waypoint #" + idx));
      case NavigateHomeStateChanged(json) =>
        SendToEveryone(AlertText("NavigateHomeStateChanged got " + json));
      case AlertStateChanged(json) =>
        SendToEveryone(AlertText("AlertStateChanged got " + json));
      case MavlinkFilePlayingStateChanged(state, json) =>
        AnnounceFlightPlan(state, json);
      case HomeChanged(json) =>
        SendToEveryone(AlertText("HomeChanged to " + json));
      case HomeTypeAvailabilityChanged(json) =>
        SendToEveryone(AlertText("HomeTypeAvailabilityChanged to " + json));
    }

    /** The recording handlers' body. */
    method AnnounceRecording(state: string)
      modifies this`sent
      ensures sent == old(sent) + RecordingAlert(state)
    {
      if state == "started" {
        SendToEveryone(Alert("info", "Recording has been started (V2)"));
      } else if state == "stopped" {
        SendToEveryone(Alert("info", "Recording has been stopped (V2)"));
      }
    }

    /** The plan-playing handler's body: the raw alert, then the levelled one. */
    method AnnounceFlightPlan(state: string, json: string)
      modifies this`sent
      ensures sent == old(sent) + FlightPlanAlerts(state, json)
    {
      SendToEveryone(AlertText("MavlinkFilePlayingStateChanged to " + json));
      if state == "playing" {
        SendToEveryone(Alert("success", "Flight plan start confirmed"));
      } else if state == "paused" {
        SendToEveryone(Alert("info", "Flight plan paused"));
      } else if state == "stopped" {
        SendToEveryone(Alert("info", "Flight plan stopped"));
      }
    }
  }
}
