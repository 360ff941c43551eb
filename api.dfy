/**
  The device's HTTP endpoints, as the two `ApiService` interfaces declare them.
  Only the request each command sends is modelled; the transport is not.
*/
module Api {

  datatype Verb = Get | Post

  datatype Request =
    | GetSensorData
    | SetDesiredMoisture(level: int)
    | SetAutoWatering(enabled: bool)
    | WaterPlant
    | DebugPump
    | SetPumpDuration(duration: int)

  function VerbOf(r: Request): Verb {
    match r
    case GetSensorData => Get
    case DebugPump => Get
    case _ => Post
  }

  /** Paths relative to the base URL; `setPumpDuration` is declared with a leading slash. */
  function PathOf(r: Request): (path: string)
    ensures |path| > 0
  {
    match r
    case GetSensorData => "data"
    case SetDesiredMoisture(_) => "setMoisture"
    case SetAutoWatering(_) => "setAutoWatering"
    case WaterPlant => "waterPlant"
    case DebugPump => "debugPump"
    case SetPumpDuration(_) => "/setPumpDuration"
  }

  /** Each kind of request has its own path, so a path identifies the operation. */
  lemma PathIdentifiesOperation(a: Request, b: Request)
    ensures PathOf(a) == PathOf(b) <==>
      (a.GetSensorData? && b.GetSensorData?) || (a.SetDesiredMoisture? && b.SetDesiredMoisture?)
      || (a.SetAutoWatering? && b.SetAutoWatering?) || (a.WaterPlant? && b.WaterPlant?)
      || (a.DebugPump? && b.DebugPump?) || (a.SetPumpDuration? && b.SetPumpDuration?)
  {
  }
}
