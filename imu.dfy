/**
 * The `get_imu` tool: it reads IMU samples from the drone's telemetry stream, in the order they arrive,
 * and turns each into a record with x/y/z axes (forward, right, down). It stops after `n` samples, and always
 * after at least one, because the count is tested only after a sample has been appended.
 */
module Imu {

  /** A vector in the body frame: forward, right, down. */
  datatype Frd = Frd(forward: real, right: real, down: real)

  /** One sample of the telemetry stream. */
  datatype ImuSample = ImuSample(
    timestampUs: int,
    accelerationFrd: Frd,
    angularVelocityFrd: Frd,
    magneticFieldFrd: Frd,
    temperatureDegc: real)

  /** A vector as the tool reports it. */
  datatype Xyz = Xyz(x: real, y: real, z: real)

  /** One entry of the tool's result list. */
  datatype ImuRecord = ImuRecord(
    timestampUs: int,
    acceleration: Xyz,
    angularVelocity: Xyz,
    magneticField: Xyz,
    temperatureDegc: real)

  /** Forward becomes x, right becomes y, down becomes z. */
  function Axes(v: Frd): Xyz {
    Xyz(v.forward, v.right, v.down)
  }

  function ToRecord(s: ImuSample): (r: ImuRecord)
    ensures FromRecord(r) == s
  {
    ImuRecord(s.timestampUs, Axes(s.accelerationFrd), Axes(s.angularVelocityFrd), Axes(s.magneticFieldFrd),
              s.temperatureDegc)
  }

  /** The sample a record was made from, read back axis by axis. */
  function FromRecord(r: ImuRecord): ImuSample {
    ImuSample(r.timestampUs,
              Frd(r.acceleration.x, r.acceleration.y, r.acceleration.z),
              Frd(r.angularVelocity.x, r.angularVelocity.y, r.angularVelocity.z),
              Frd(r.magneticField.x, r.magneticField.y, r.magneticField.z),
              r.temperatureDegc)
  }

  /** Distinct samples give distinct records. */
  lemma ToRecordInjective(s1: ImuSample, s2: ImuSample)
    ensures ToRecord(s1) == ToRecord(s2) ==> s1 == s2
  {
  }

  /** How many samples the tool takes when the stream does not run out: `n`, but never fewer than one. */
  function Wanted(n: int): (w: nat)
    ensures w >= 1 && w >= n
    ensures n >= 1 ==> w == n
  {
    if n >= 1 then n else 1
  }

  /**
   * The tool's loop over the stream (`stream` is what the drone delivers, in order). The result holds one
   * record per sample, in stream order, for the first `max(n, 1)` samples, or for all of them when the stream
   * ends first.
   */
  method GetImu(stream: seq<ImuSample>, n: int) returns (data: seq<ImuRecord>)
    ensures |data| == if |stream| < Wanted(n) then |stream| else Wanted(n)
    ensures forall k :: 0 <= k < |data| ==> data[k] == ToRecord(stream[k])
  {
    data := [];
    var count := 0;
    var i := 0;
    while i < |stream|
      invariant 0 <= i <= |stream| && count == i && |data| == i
      invariant i < Wanted(n)
      invariant forall k :: 0 <= k < i ==> data[k] == ToRecord(stream[k])
    {
      data := data + [ToRecord(stream[i])];
      count := count + 1;
      i := i + 1;
      if count >= n {
        break;
      }
    }
  }
}
