/** The game's truck: a two-part sprattel mesh (chassis and steering
    handle) whose speed and wheel angle are set from the UI, each clamped
    to a symmetric limit. */
module Trucks {
  import opened Exceptions
  import Meshes

  // ----- Double.coerceIn -----

  /** Kotlin's `Double.coerceIn(lo, hi)`: an empty range throws; otherwise
      the value is moved to the nearest end when it lies outside. */
  function CoerceIn(x: real, lo: real, hi: real): (r: Result<real>)
    ensures r.Err? <==> lo > hi
    ensures r.Err? ==> r.error == IllegalArgument
    ensures r.Ok? ==> lo <= r.value <= hi
    ensures r.Ok? && lo <= x <= hi ==> r.value == x
    ensures r.Ok? && x < lo ==> r.value == lo
    ensures r.Ok? && hi < x ==> r.value == hi
  {
    if lo > hi then Err(IllegalArgument)
    else if x < lo then Ok(lo)
    else if x > hi then Ok(hi)
    else Ok(x)
  }

  /** Clamping a clamped value changes nothing more. */
  lemma CoerceInIdempotent(x: real, lo: real, hi: real)
    requires lo <= hi
    ensures CoerceIn(CoerceIn(x, lo, hi).value, lo, hi) == CoerceIn(x, lo, hi)
  {
    var once := CoerceIn(x, lo, hi).value;
    assert lo <= once <= hi;
  }

  /** The value a setter stores: its argument clamped to `[-limit, limit]`. */
  function Limited(x: real, limit: real): (r: Result<real>)
    ensures r.Err? <==> limit < 0.0
    ensures r.Ok? ==> -limit <= r.value <= limit
  {
    CoerceIn(x, -limit, limit)
  }

  /** The value a percentage setter stores: the fraction `p` of the limit,
      clamped to `[-limit, limit]`. */
  function PercentageOf(p: real, limit: real): (r: Result<real>)
    ensures r.Err? <==> limit < 0.0
  {
    Limited(p * limit, limit)
  }

  /** A fraction in `[-1, 1]` gives exactly that fraction of the limit; any
      larger one saturates at the limit, any smaller one at its negation. */
  lemma PercentageOfLimit(p: real, limit: real)
    requires limit >= 0.0
    ensures -1.0 <= p <= 1.0 ==> PercentageOf(p, limit) == Ok(p * limit)
    ensures p > 1.0 ==> PercentageOf(p, limit) == Ok(limit)
    ensures p < -1.0 ==> PercentageOf(p, limit) == Ok(-limit)
  {
    if -1.0 <= p <= 1.0 {
      ScaledWithin(p, limit);
    } else if p > 1.0 {
      assert (p - 1.0) * limit >= 0.0;
    } else {
      assert (-1.0 - p) * limit >= 0.0;
    }
  }

  lemma ScaledWithin(p: real, limit: real)
    requires limit >= 0.0 && -1.0 <= p <= 1.0
    ensures -limit <= p * limit <= limit
  {
    assert (1.0 - p) * limit >= 0.0;
    assert (1.0 + p) * limit >= 0.0;
  }

  /** The handle rotation for a wheel angle: `(0, 0, 1, -angle)`, a turn of
      `-angle` degrees about the z axis. */
  function HandleRotation(angle: real): (r: seq<real>)
    ensures |r| == 4 && r[3] == -angle
  {
    [0.0, 0.0, 1.0, -angle]
  }

  /** `setWheelAngle` turns the handle by its argument, not by the angle it
      stores: whenever the argument exceeds the limit, the handle shows an
      angle the truck does not steer at. */
  lemma HandleDisagreesBeyondLimit(angle: real, limit: real)
    requires 0.0 <= limit && (angle < -limit || limit < angle)
    ensures Limited(angle, limit).Ok?
    ensures HandleRotation(angle) != HandleRotation(Limited(angle, limit).value)
  {
    assert HandleRotation(angle)[3] != HandleRotation(Limited(angle, limit).value)[3];
  }

  // ----- the truck -----

  class Truck {
    var maxSpeed: real
    var maxWheelAngle: real
    var speed: real
    var wheelAngle: real
    const chassisMesh: Meshes.DynamicMesh
    const handleMesh: Meshes.DynamicMesh
    /** The `SprattelMesh` the truck extends, with its two parts. */
    const body: Meshes.SprattelMesh

    /** A truck with the given limits (the source's defaults are top speed 1
        and a wheel angle limit of 90 degrees), standing still with straight
        wheels. */
    constructor (position: seq<real>, rotation: seq<real>, maxSpeed: real, maxWheelAngle: real,
                 chassisMesh: Meshes.DynamicMesh, handleMesh: Meshes.DynamicMesh)
      ensures this.maxSpeed == maxSpeed && this.maxWheelAngle == maxWheelAngle
      ensures speed == 0.0 && wheelAngle == 0.0
      ensures this.chassisMesh == chassisMesh && this.handleMesh == handleMesh
      ensures fresh(body) && body.position == position && body.rotation == rotation
      ensures body.meshes == [chassisMesh, handleMesh]
      ensures body.meshes[Chassis.Value()] == chassisMesh && body.meshes[Handle.Value()] == handleMesh
    {
      this.maxSpeed := maxSpeed;
      this.maxWheelAngle := maxWheelAngle;
      speed := 0.0;
      wheelAngle := 0.0;
      this.chassisMesh := chassisMesh;
      this.handleMesh := handleMesh;
      body := new Meshes.SprattelMesh(position, rotation, [chassisMesh, handleMesh]);
    }

    /** `setWheelAngle(angle)`: stores the clamped angle and turns the
        handle by the argument itself; throws, changing nothing, when the
        limit is negative. */
    method SetWheelAngle(angle: real) returns (r: Outcome)
      modifies this`wheelAngle, handleMesh`rotation
      ensures r.Fail? <==> maxWheelAngle < 0.0
      ensures r.Fail? ==> r.error == IllegalArgument && wheelAngle == old(wheelAngle)
                          && handleMesh.rotation == old(handleMesh.rotation)
      ensures r.Pass? ==> wheelAngle == Limited(angle, maxWheelAngle).value
                          && handleMesh.rotation == HandleRotation(angle)
    {
      var stored := Limited(angle, maxWheelAngle);
      if stored.Err? {
        return Fail(stored.error);
      }
      wheelAngle := stored.value;
      handleMesh.rotation := HandleRotation(angle);
      r := Pass;
    }

    /** `setWheelAnglePercentage(p)`: stores the fraction `p` of the limit,
        clamped, and turns the handle by the stored angle. */
    method SetWheelAnglePercentage(p: real) returns (r: Outcome)
      modifies this`wheelAngle, handleMesh`rotation
      ensures r.Fail? <==> maxWheelAngle < 0.0
      ensures r.Fail? ==> r.error == IllegalArgument && wheelAngle == old(wheelAngle)
                          && handleMesh.rotation == old(handleMesh.rotation)
      ensures r.Pass? ==> wheelAngle == PercentageOf(p, maxWheelAngle).value
                          && handleMesh.rotation == HandleRotation(wheelAngle)
    {
      var stored := PercentageOf(p, maxWheelAngle);
      if stored.Err? {
        return Fail(stored.error);
      }
      wheelAngle := stored.value;
      handleMesh.rotation := HandleRotation(wheelAngle);
      r := Pass;
    }

    /** `setSpeed(s)`: stores the clamped speed. */
    method SetSpeed(s: real) returns (r: Outcome)
      modifies this`speed
      ensures r.Fail? <==> maxSpeed < 0.0
      ensures r.Fail? ==> r.error == IllegalArgument && speed == old(speed)
      ensures r.Pass? ==> speed == Limited(s, maxSpeed).value
    {
      var stored := Limited(s, maxSpeed);
      if stored.Err? {
        return Fail(stored.error);
      }
      speed := stored.value;
      r := Pass;
    }

    /** `setSpeedPercentage(p)`: stores the fraction `p` of the top speed,
        clamped. */
    method SetSpeedPercentage(p: real) returns (r: Outcome)
      modifies this`speed
      ensures r.Fail? <==> maxSpeed < 0.0
      ensures r.Fail? ==> r.error == IllegalArgument && speed == old(speed)
      ensures r.Pass? ==> speed == PercentageOf(p, maxSpeed).value
    {
      var stored := PercentageOf(p, maxSpeed);
      if stored.Err? {
        return Fail(stored.error);
      }
      speed := stored.value;
      r := Pass;
    }
  }

  // ----- SprattelIndex -----

  /** The parts of the truck's sprattel mesh, by position in its array. */
  datatype SprattelIndex = Chassis | Handle {
    function Value(): (v: int)
      ensures 0 <= v <= 1
    {
      match this
      case Chassis => 0
      case Handle => 1
    }
  }

  /** `SprattelIndex.values()`, in declaration order. */
  const AllIndices: seq<SprattelIndex> := [Chassis, Handle]

  /** `Array.first { it.value == value }`: the first entry with that value,
      or `NoSuchElementException`. */
  function FirstWithValue(entries: seq<SprattelIndex>, value: int): (r: Result<SprattelIndex>)
    ensures r.Ok? ==> r.value in entries && r.value.Value() == value
    ensures r.Err? ==> r.error == NoSuchElement && forall e :: e in entries ==> e.Value() != value
  {
    if |entries| == 0 then Err(NoSuchElement)
    else if entries[0].Value() == value then Ok(entries[0])
    else FirstWithValue(entries[1..], value)
  }

  /** `SprattelIndex.fromInt(value)`. */
  function FromInt(value: int): (r: Result<SprattelIndex>)
    ensures r.Ok? <==> 0 <= value <= 1
    ensures r.Ok? ==> r.value.Value() == value
    ensures r.Err? ==> r.error == NoSuchElement
  {
    assert Chassis in AllIndices && Handle in AllIndices;
    FirstWithValue(AllIndices, value)
  }

  /** Every entry is found again from its value. */
  lemma FromIntValue(i: SprattelIndex)
    ensures FromInt(i.Value()) == Ok(i)
  {
    var r := FromInt(i.Value());
    assert r.value.Value() == i.Value();
  }
}
