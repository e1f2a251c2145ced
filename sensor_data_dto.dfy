/** The record emitted for one synthesized measurement (`SensorDataDto`). */
module Dto {

  /**
   * One sample.  `sensorId` and `timestamp` are Java `long`s (the timestamp in
   * milliseconds since the epoch); the measurements are doubles, modelled as reals.
   */
  datatype SensorDataDto = SensorDataDto(
    sensorId: int,
    timestamp: int,
    temperature: real,
    humidity: real,
    pressure: real,
    value: real,
    anomaly: bool)

  function TimestampOf(d: SensorDataDto): int {
    d.timestamp
  }

  /** The records of `ds` that belong to sensor `id`, in their original order. */
  function OfSensor(ds: seq<SensorDataDto>, id: int): (r: seq<SensorDataDto>)
    ensures |r| <= |ds|
    ensures forall i :: 0 <= i < |r| ==> r[i].sensorId == id
    ensures forall d :: d in r <==> d in ds && d.sensorId == id
  {
    if ds == [] then []
    else if ds[|ds| - 1].sensorId == id then OfSensor(ds[..|ds| - 1], id) + [ds[|ds| - 1]]
    else OfSensor(ds[..|ds| - 1], id)
  }

  /** The ids of `ds`, in order. */
  function SensorIds(ds: seq<SensorDataDto>): (r: seq<int>)
    ensures |r| == |ds|
    ensures forall i :: 0 <= i < |ds| ==> r[i] == ds[i].sensorId
  {
    if ds == [] then [] else SensorIds(ds[..|ds| - 1]) + [ds[|ds| - 1].sensorId]
  }
}
