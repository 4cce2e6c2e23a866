/**
 * The `initiate_mission` tool: each mission point (a dictionary in the request) is checked and turned into a
 * mission item, in order; the first point that is missing a required field or has a coordinate out of range
 * stops the tool with an error, and only when every point is good is the return-to-launch setting sent, the
 * mission uploaded and started.
 */
module Mission {
  import opened Wrappers

  /** A Python float as far as the range checks see it: a comparison with NaN or an infinity never passes them. */
  datatype Float = Finite(value: real) | Infinite(negative: bool) | NaN

  /** `lo <= f <= hi` on a Python float. */
  predicate InRange(f: Float, lo: real, hi: real) {
    f.Finite? && lo <= f.value <= hi
  }

  /** `MissionItem.CameraAction`; `NoCameraAction` is the SDK's `NONE`. */
  datatype CameraAction =
    | NoCameraAction | TakePhoto | StartPhotoInterval | StopPhotoInterval
    | StartVideo | StopVideo | StartPhotoDistance | StopPhotoDistance

  /** `MissionItem.VehicleAction`; `NoVehicleAction` is the SDK's `NONE`. */
  datatype VehicleAction = NoVehicleAction | Takeoff | Land | TransitionToFw | TransitionToMc

  /** A mission point as given: each key of the dictionary may be absent. */
  datatype MissionPoint = MissionPoint(
    latitudeDeg: Option<Float>,
    longitudeDeg: Option<Float>,
    relativeAltitudeM: Option<Float>,
    speedMS: Option<Float>,
    isFlyThrough: Option<bool>,
    gimbalPitchDeg: Option<Float>,
    gimbalYawDeg: Option<Float>,
    cameraAction: Option<CameraAction>,
    loiterTimeS: Option<Float>,
    cameraPhotoIntervalS: Option<Float>,
    acceptanceRadiusM: Option<Float>,
    yawDeg: Option<Float>,
    cameraPhotoDistanceM: Option<Float>,
    vehicleAction: Option<VehicleAction>)

  /** The mission item built from a point. */
  datatype MissionItem = MissionItem(
    latitudeDeg: Float,
    longitudeDeg: Float,
    relativeAltitudeM: Float,
    speedMS: Float,
    isFlyThrough: bool,
    gimbalPitchDeg: Float,
    gimbalYawDeg: Float,
    cameraAction: CameraAction,
    loiterTimeS: Float,
    cameraPhotoIntervalS: Float,
    acceptanceRadiusM: Float,
    yawDeg: Float,
    cameraPhotoDistanceM: Float,
    vehicleAction: VehicleAction)

  const LatitudeKey := "latitude_deg"
  const LongitudeKey := "longitude_deg"
  const RelativeAltitudeKey := "relative_altitude_m"
  const SpeedKey := "speed_m_s"
  const FlyThroughKey := "is_fly_through"

  /** Why a point was refused; each one surfaces as a `ValueError`. */
  datatype MissionError =
    | InvalidLatitude(latitude: Float)
    | InvalidLongitude(longitude: Float)
    | MissingField(key: string)

  /** `point.get(key, default)`. */
  function Get<T>(field: Option<T>, default: T): (v: T)
    ensures field.Some? ==> v == field.value
    ensures field.None? ==> v == default
  {
    match field
    case Some(x) => x
    case None => default
  }

  /**
   * One point checked and converted, in the order the tool reads it: the latitude (key, then range), the
   * longitude (key, then range), then the remaining required keys in argument order; the optional keys
   * default to NaN or `NONE`.
   */
  function ValidatePoint(p: MissionPoint): (r: Result<MissionItem, MissionError>)
    ensures r.Success? <==> Acceptable(p)
    ensures p.latitudeDeg.None? ==> r == Failure(MissingField(LatitudeKey))
    ensures r.Failure? && r.error.InvalidLatitude? ==>
      p.latitudeDeg == Some(r.error.latitude) && !InRange(r.error.latitude, -90.0, 90.0)
    ensures r.Failure? && r.error.InvalidLongitude? ==>
      && p.latitudeDeg.Some? && InRange(p.latitudeDeg.value, -90.0, 90.0)
      && p.longitudeDeg == Some(r.error.longitude) && !InRange(r.error.longitude, -180.0, 180.0)
    ensures r.Failure? && r.error.MissingField? ==> Lacks(p, r.error.key)
    ensures r.Failure? && r.error.MissingField? && r.error.key != LatitudeKey && r.error.key != LongitudeKey ==>
      && p.latitudeDeg.Some? && InRange(p.latitudeDeg.value, -90.0, 90.0)
      && p.longitudeDeg.Some? && InRange(p.longitudeDeg.value, -180.0, 180.0)
    ensures p.latitudeDeg.Some? && !InRange(p.latitudeDeg.value, -90.0, 90.0) ==>
      r == Failure(InvalidLatitude(p.latitudeDeg.value))
    ensures p.latitudeDeg.Some? && InRange(p.latitudeDeg.value, -90.0, 90.0) ==>
      && (p.longitudeDeg.None? ==> r == Failure(MissingField(LongitudeKey)))
      && (p.longitudeDeg.Some? && !InRange(p.longitudeDeg.value, -180.0, 180.0) ==>
            r == Failure(InvalidLongitude(p.longitudeDeg.value)))
    ensures (&& p.latitudeDeg.Some? && InRange(p.latitudeDeg.value, -90.0, 90.0)
             && p.longitudeDeg.Some? && InRange(p.longitudeDeg.value, -180.0, 180.0)) ==>
      && (p.relativeAltitudeM.None? ==> r == Failure(MissingField(RelativeAltitudeKey)))
      && (p.relativeAltitudeM.Some? && p.speedMS.None? ==> r == Failure(MissingField(SpeedKey)))
      && (p.relativeAltitudeM.Some? && p.speedMS.Some? && p.isFlyThrough.None? ==>
            r == Failure(MissingField(FlyThroughKey)))
  {
    match p.latitudeDeg
    case None => Failure(MissingField(LatitudeKey))
    case Some(lat) =>
      if !InRange(lat, -90.0, 90.0) then Failure(InvalidLatitude(lat))
      else match p.longitudeDeg
        case None => Failure(MissingField(LongitudeKey))
        case Some(lon) =>
          if !InRange(lon, -180.0, 180.0) then Failure(InvalidLongitude(lon))
          else if p.relativeAltitudeM.None? then Failure(MissingField(RelativeAltitudeKey))
          else if p.speedMS.None? then Failure(MissingField(SpeedKey))
          else if p.isFlyThrough.None? then Failure(MissingField(FlyThroughKey))
          else Success(MissionItem(
            lat,
            lon,
            p.relativeAltitudeM.value,
            p.speedMS.value,
            p.isFlyThrough.value,
            Get(p.gimbalPitchDeg, NaN),
            Get(p.gimbalYawDeg, NaN),
            Get(p.cameraAction, NoCameraAction),
            Get(p.loiterTimeS, NaN),
            Get(p.cameraPhotoIntervalS, NaN),
            Get(p.acceptanceRadiusM, NaN),
            Get(p.yawDeg, NaN),
            Get(p.cameraPhotoDistanceM, NaN),
            Get(p.vehicleAction, NoVehicleAction)))
  }

  /** The point has no value under the required key `key`. */
  predicate Lacks(p: MissionPoint, key: string) {
    || (key == LatitudeKey && p.latitudeDeg.None?)
    || (key == LongitudeKey && p.longitudeDeg.None?)
    || (key == RelativeAltitudeKey && p.relativeAltitudeM.None?)
    || (key == SpeedKey && p.speedMS.None?)
    || (key == FlyThroughKey && p.isFlyThrough.None?)
  }

  /** A point the tool accepts: the five required keys present and both coordinates within their ranges. */
  predicate Acceptable(p: MissionPoint) {
    && p.latitudeDeg.Some? && p.longitudeDeg.Some?
    && p.relativeAltitudeM.Some? && p.speedMS.Some? && p.isFlyThrough.Some?
    && InRange(p.latitudeDeg.value, -90.0, 90.0)
    && InRange(p.longitudeDeg.value, -180.0, 180.0)
  }

  /** The point that carries every field of an item. */
  function PointOf(item: MissionItem): MissionPoint {
    MissionPoint(
      Some(item.latitudeDeg), Some(item.longitudeDeg), Some(item.relativeAltitudeM), Some(item.speedMS),
      Some(item.isFlyThrough), Some(item.gimbalPitchDeg), Some(item.gimbalYawDeg), Some(item.cameraAction),
      Some(item.loiterTimeS), Some(item.cameraPhotoIntervalS), Some(item.acceptanceRadiusM), Some(item.yawDeg),
      Some(item.cameraPhotoDistanceM), Some(item.vehicleAction))
  }

  /** An item with coordinates in range is rebuilt exactly from the point that spells out all its fields. */
  lemma ValidatePointOfItem(item: MissionItem)
    requires InRange(item.latitudeDeg, -90.0, 90.0) && InRange(item.longitudeDeg, -180.0, 180.0)
    ensures ValidatePoint(PointOf(item)) == Success(item)
  {
  }

  /** Every key the point gives is carried into the item unchanged. */
  predicate Carries(p: MissionPoint, item: MissionItem) {
    var q := PointOf(item);
    && (p.latitudeDeg.Some? ==> p.latitudeDeg == q.latitudeDeg)
    && (p.longitudeDeg.Some? ==> p.longitudeDeg == q.longitudeDeg)
    && (p.relativeAltitudeM.Some? ==> p.relativeAltitudeM == q.relativeAltitudeM)
    && (p.speedMS.Some? ==> p.speedMS == q.speedMS)
    && (p.isFlyThrough.Some? ==> p.isFlyThrough == q.isFlyThrough)
    && (p.gimbalPitchDeg.Some? ==> p.gimbalPitchDeg == q.gimbalPitchDeg)
    && (p.gimbalYawDeg.Some? ==> p.gimbalYawDeg == q.gimbalYawDeg)
    && (p.cameraAction.Some? ==> p.cameraAction == q.cameraAction)
    && (p.loiterTimeS.Some? ==> p.loiterTimeS == q.loiterTimeS)
    && (p.cameraPhotoIntervalS.Some? ==> p.cameraPhotoIntervalS == q.cameraPhotoIntervalS)
    && (p.acceptanceRadiusM.Some? ==> p.acceptanceRadiusM == q.acceptanceRadiusM)
    && (p.yawDeg.Some? ==> p.yawDeg == q.yawDeg)
    && (p.cameraPhotoDistanceM.Some? ==> p.cameraPhotoDistanceM == q.cameraPhotoDistanceM)
    && (p.vehicleAction.Some? ==> p.vehicleAction == q.vehicleAction)
  }

  /** Every optional key the point leaves out is NaN, or `NONE` for the two actions, in the item. */
  predicate Defaults(p: MissionPoint, item: MissionItem) {
    && (p.gimbalPitchDeg.None? ==> item.gimbalPitchDeg == NaN)
    && (p.gimbalYawDeg.None? ==> item.gimbalYawDeg == NaN)
    && (p.cameraAction.None? ==> item.cameraAction == NoCameraAction)
    && (p.loiterTimeS.None? ==> item.loiterTimeS == NaN)
    && (p.cameraPhotoIntervalS.None? ==> item.cameraPhotoIntervalS == NaN)
    && (p.acceptanceRadiusM.None? ==> item.acceptanceRadiusM == NaN)
    && (p.yawDeg.None? ==> item.yawDeg == NaN)
    && (p.cameraPhotoDistanceM.None? ==> item.cameraPhotoDistanceM == NaN)
    && (p.vehicleAction.None? ==> item.vehicleAction == NoVehicleAction)
  }

  /** The item built from an accepted point carries its keys and fills the missing optional ones with defaults. */
  lemma ValidatePointItem(p: MissionPoint)
    requires Acceptable(p)
    ensures ValidatePoint(p).Success?
    ensures Carries(p, ValidatePoint(p).value) && Defaults(p, ValidatePoint(p).value)
  {
  }

  /**
   * The items for a list of points, built front to back; the first point that fails decides the error.
   * Defined on the last point so that it follows the tool's loop step by step.
   */
  function BuildItems(points: seq<MissionPoint>): (r: Result<seq<MissionItem>, MissionError>)
    decreases |points|
    ensures r.Success? ==> |r.value| == |points|
    ensures r.Failure? ==> |points| > 0
  {
    if |points| == 0 then Success([])
    else
      match BuildItems(points[..|points| - 1])
      case Failure(e) => Failure(e)
      case Success(items) =>
        match ValidatePoint(points[|points| - 1])
        case Failure(e) => Failure(e)
        case Success(item) => Success(items + [item])
  }

  /** All points good: one item per point, in order, each built from its own point. */
  lemma {:induction false} BuildItemsSuccess(points: seq<MissionPoint>)
    requires forall k :: 0 <= k < |points| ==> Acceptable(points[k])
    ensures BuildItems(points).Success?
    ensures |BuildItems(points).value| == |points|
    ensures forall k :: 0 <= k < |points| ==> BuildItems(points).value[k] == ValidatePoint(points[k]).value
    decreases |points|
  {
    if |points| > 0 {
      var init := points[..|points| - 1];
      BuildItemsSuccess(init);
      ValidatePointItem(points[|points| - 1]);
    }
  }

  /** Items are built only when every point is good. */
  lemma {:induction false} BuildItemsAllAcceptable(points: seq<MissionPoint>, k: nat)
    requires BuildItems(points).Success? && k < |points|
    ensures Acceptable(points[k])
    decreases |points|
  {
    var init := points[..|points| - 1];
    if k < |points| - 1 {
      BuildItemsAllAcceptable(init, k);
    }
  }

  /** The first bad point decides the error, whatever comes after it. */
  lemma {:induction false} BuildItemsFirstError(points: seq<MissionPoint>, k: nat)
    requires k < |points| && !Acceptable(points[k])
    requires forall j :: 0 <= j < k ==> Acceptable(points[j])
    ensures BuildItems(points) == Failure(ValidatePoint(points[k]).error)
    decreases |points|
  {
    var init := points[..|points| - 1];
    if k < |points| - 1 {
      assert forall j :: 0 <= j < k ==> init[j] == points[j];
      BuildItemsFirstError(init, k);
    } else {
      assert forall j :: 0 <= j < |init| ==> init[j] == points[j];
      BuildItemsSuccess(init);
    }
  }

  /** Once a prefix of the points fails, the whole list fails with the same error. */
  lemma {:induction false} BuildItemsFailurePrefix(points: seq<MissionPoint>, i: nat)
    requires i <= |points| && BuildItems(points[..i]).Failure?
    ensures BuildItems(points) == BuildItems(points[..i])
    decreases |points|
  {
    if i < |points| {
      var init := points[..|points| - 1];
      assert init[..i] == points[..i];
      BuildItemsFailurePrefix(init, i);
    } else {
      assert points[..i] == points;
    }
  }

  /** The mission plan uploaded: the items in order. */
  datatype MissionPlan = MissionPlan(items: seq<MissionItem>)

  /** A request the tool makes of the drone's mission plugin. */
  datatype MissionCall =
    | SetReturnToLaunchAfterMission(enable: bool)
    | UploadMission(plan: MissionPlan)
    | StartMission

  /** The drone's mission plugin as the server sees it: the requests it has received, in order. */
  class MissionPlugin {
    var calls: seq<MissionCall>

    constructor()
      ensures calls == []
    {
      calls := [];
    }

    method Request(call: MissionCall)
      modifies this
      ensures calls == old(calls) + [call]
    {
      calls := calls + [call];
    }
  }

  /** The tool's loop: validate and convert each point in turn, stopping at the first bad one. */
  method BuildMissionItems(points: seq<MissionPoint>) returns (r: Result<seq<MissionItem>, MissionError>)
    ensures r == BuildItems(points)
  {
    var items: seq<MissionItem> := [];
    for i := 0 to |points|
      invariant BuildItems(points[..i]) == Success(items)
    {
      assert points[..i + 1][..i] == points[..i];
      var v := ValidatePoint(points[i]);
      if v.Failure? {
        BuildItemsFailurePrefix(points, i + 1);
        return Failure(v.error);
      }
      items := items + [v.value];
    }
    assert points[..|points|] == points;
    return Success(items);
  }

  /**
   * `initiate_mission`: builds the items; on the first bad point it raises before asking anything of the drone.
   * Otherwise it sets return-to-launch, uploads the plan and starts the mission, in that order, and returns true.
   */
  method InitiateMission(mission: MissionPlugin, points: seq<MissionPoint>, returnToLaunch: bool)
    returns (r: Result<bool, MissionError>)
    modifies mission
    ensures BuildItems(points).Failure? ==> r == Failure(BuildItems(points).error) && mission.calls == old(mission.calls)
    ensures BuildItems(points).Success? ==> r == Success(true) && mission.calls == old(mission.calls) + [
      SetReturnToLaunchAfterMission(returnToLaunch), UploadMission(MissionPlan(BuildItems(points).value)), StartMission]
  {
    var items := BuildMissionItems(points);
    if items.Failure? {
      return Failure(items.error);
    }
    mission.Request(SetReturnToLaunchAfterMission(returnToLaunch));
    mission.Request(UploadMission(MissionPlan(items.value)));
    mission.Request(StartMission);
    return Success(true);
  }
}
