/**
 * The per-pass physics context of src/dynamics/PhysicsContext.h: optional values
 * that environment providers fill in and force generators read.
 */
module Context {
  import opened Wrappers
  import opened Vectors

  /** A snapshot of the nine optional context fields. */
  datatype ContextState = ContextState(
    airDensity: Option<real>,
    airTemperature: Option<real>,
    airPressure: Option<real>,
    airHumidity: Option<real>,
    wind: Option<Vec3>,
    latitude: Option<real>,
    longitude: Option<real>,
    altitude: Option<real>,
    gravity: Option<real>)

  /** Every field empty. */
  const EmptyContext: ContextState :=
    ContextState(None, None, None, None, None, None, None, None, None)

  predicate IsEmpty(s: ContextState) {
    && s.airDensity.None? && s.airTemperature.None? && s.airPressure.None?
    && s.airHumidity.None? && s.wind.None?
    && s.latitude.None? && s.longitude.None? && s.altitude.None?
    && s.gravity.None?
  }

  /** `PhysicsContext`: nine independently settable optional fields. */
  class PhysicsContext {
    var airDensity: Option<real>
    var airTemperature: Option<real>
    var airPressure: Option<real>
    var airHumidity: Option<real>
    var wind: Option<Vec3>
    var latitude: Option<real>
    var longitude: Option<real>
    var altitude: Option<real>
    var gravity: Option<real>

    function State(): ContextState
      reads this
    {
      ContextState(airDensity, airTemperature, airPressure, airHumidity, wind,
                   latitude, longitude, altitude, gravity)
    }

    /** A fresh context: every field empty. */
    constructor ()
      ensures IsEmpty(State())
      ensures State() == EmptyContext
    {
      airDensity, airTemperature, airPressure, airHumidity := None, None, None, None;
      wind := None;
      latitude, longitude, altitude := None, None, None;
      gravity := None;
    }

    /**
     * `reset`: clears every field, whatever was set before. Because the new state
     * does not depend on the old one, resetting twice is the same as resetting once.
     */
    method Reset()
      modifies this
      ensures IsEmpty(State())
      ensures State() == EmptyContext
    {
      airDensity := None;
      airTemperature := None;
      airPressure := None;
      airHumidity := None;
      wind := None;
      latitude := None;
      longitude := None;
      altitude := None;
      gravity := None;
    }
  }

  /** The empty state is the only state with every field empty. */
  lemma EmptyIsUnique(s: ContextState)
    ensures IsEmpty(s) <==> s == EmptyContext
  {
  }
}
