/** The constants of src/Constants.h, src/Config.h and src/math/Constants.h used by the core. */
module Constants {
  import opened Vectors

  // src/Constants.h
  const GRAVITY: Vec3 := Vec3(0.0, -9.80665, 0.0)
  const CELSIUS_TO_KELVIN: real := 273.15
  const TROPOSPHERE_MAX: real := 11000.0
  const BASE_TEMPERATURE: real := 15.0 + CELSIUS_TO_KELVIN
  const BASE_ATMOSPHERIC_PRESSURE: real := 101325.0
  const BASE_ATMOSPHERIC_DENSITY: real := 1.225
  const LAPSE_RATE: real := 0.0065
  const GAS_CONSTANT_DRY_AIR: real := 287.058
  const GAS_CONSTANT_WATER_VAPOR: real := 461.495
  const TETENS_A: real := 17.27
  const TETENS_B: real := 35.85
  const TETENS_C: real := 0.61078
  const EARTH_ANGULAR_SPEED: real := 72.92115e-6
  const DEFAULT_SPHERE_AREA: real := 0.01
  const DEFAULT_SPHERE_CD: real := 0.47

  // src/Config.h
  const FREE_FALL: real := 9.81
  const CONFIG_GRAVITY: Vec3 := Vec3(0.0, -FREE_FALL, 0.0)
  const GROUND: real := 0.0

  // src/math/Constants.h
  const PI: real := 3.14159265358979323846

  // speed thresholds written inline in the force generators
  const DRAG_MIN_SPEED: real := 1.0e-6
  const SPIN_MIN_SPEED: real := 1.0e-3
  const QUADRATIC_MIN_SPEED: real := 0.001
}
