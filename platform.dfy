/**
 * What the engine links against but does not define in the modelled files:
 * the C math library, the geodetic gravity routine of src/geography/Coordinates,
 * the value a floating-point division by zero produces, the constants that
 * the code names but that src/Constants.h does not declare, and what one
 * unchecked read of an empty optional yields.
 *
 * The model treats all of them as a parameter. `Sound()` states the few facts
 * about the math functions that the proofs rely on.
 */
module Platform {

  datatype Platform = Platform(
    sqrt: real -> real,
    exp: real -> real,
    pow: (real, real) -> real,
    sin: real -> real,
    cos: real -> real,
    /** result of `a / 0` (an infinity or NaN in IEEE arithmetic); not interpreted */
    nonFinite: real -> real,
    /** geography::Coordinates::gravitationalAccelerationAtGeodetic(lat, lon, alt) */
    geodeticGravity: (real, real, real) -> real,
    /** constants::SEA_LEVEL_DENSITY */
    seaLevelDensity: real,
    /** constants::SEA_LEVEL_TEMPERATURE */
    seaLevelTemperature: real,
    /** constants::SEA_LEVEL_PRESSURE */
    seaLevelPressure: real,
    /** constants::BASE_SPEED_OF_SOUND */
    speedOfSound: real,
    /** constants::DEFAULT_SPHERE_LINEAR_B */
    linearDragB: real,
    /** constants::DEFAULT_C_M_ALPHA, DEFAULT_C_L_ALPHA, DEFAULT_C_MAG_F */
    defaultCMAlpha: real,
    defaultCLAlpha: real,
    defaultCMagF: real,
    /**
     * whether reading the rifling direction of a projectile without rifling
     * specifications (an empty optional, undefined behaviour) yields RIGHT
     */
    emptyRiflingRight: bool)
  {
    /** The properties of the real functions that the proofs use. */
    ghost predicate Sound() {
      && (forall x :: exp(x) > 0.0)
      && exp(0.0) == 1.0
      && (forall e :: pow(1.0, e) == 1.0)
      && (forall x :: sqrt(x) >= 0.0)
      && (forall x :: x >= 0.0 ==> sqrt(x) * sqrt(x) == x)
    }

    /** The Pythagorean identity of `sin` and `cos`. */
    ghost predicate Trigonometric() {
      forall x :: sin(x) * sin(x) + cos(x) * cos(x) == 1.0
    }

    /** Floating-point division: the real quotient, or an uninterpreted value for a zero divisor. */
    function Div(a: real, b: real): (r: real)
      ensures b != 0.0 ==> r * b == a
    {
      if b != 0.0 then a / b else nonFinite(a)
    }
  }
}
