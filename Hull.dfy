/**
 * Hull dimensions and their two closed-form properties
 * (src/submarine_sim/hull_generator.py). Mesh generation is not modelled.
 */
module Hull {

  /** The value of `math.pi`; proofs use only that it is positive. */
  const Pi: real := 3.141592653589793

  datatype HullProperties = HullProperties(areaM2: real, volumeM3: real)

  function Square(x: real): real {
    x * x
  }

  /** Frontal area of a circular cross-section: pi times the radius squared. */
  function FrontalArea(diameterM: real): (a: real)
    ensures a >= 0.0
    ensures diameterM != 0.0 ==> a > 0.0
  {
    var radius := diameterM / 2.0;
    assert radius != 0.0 ==> Pi * Square(radius) > 0.0 by {
      if radius != 0.0 {
        SquarePositive(radius);
        PositiveProduct(Pi, Square(radius));
      }
    }
    Pi * Square(radius)
  }

  /** Displaced volume of the prolate spheroid with the given length and diameter. */
  function DisplacedVolume(lengthM: real, diameterM: real): (v: real)
    ensures lengthM > 0.0 && diameterM > 0.0 ==> v > 0.0
  {
    var a := lengthM / 2.0;
    var b := diameterM / 2.0;
    assert a > 0.0 && b > 0.0 ==> (4.0 / 3.0) * Pi * a * Square(b) > 0.0 by {
      if a > 0.0 && b > 0.0 {
        PositiveProduct((4.0 / 3.0) * Pi, a);
        SquarePositive(b);
        PositiveProduct((4.0 / 3.0) * Pi * a, Square(b));
      }
    }
    (4.0 / 3.0) * Pi * a * Square(b)
  }

  lemma PositiveProduct(x: real, y: real)
    requires x > 0.0 && y > 0.0
    ensures x * y > 0.0
  {
  }

  lemma SquarePositive(x: real)
    requires x != 0.0
    ensures Square(x) > 0.0
  {
    var m := if x > 0.0 then x else -x;
    calc {
      Square(x);
      m * m;
    >
      0.0;
    }
  }

  /** The square grows strictly on positive numbers. */
  lemma SquareIncreasing(x: real, y: real)
    requires 0.0 < x < y
    ensures Square(x) < Square(y)
  {
    calc {
      Square(y) - Square(x);
      (y - x) * (y + x);
    >
      0.0;
    }
  }

  /** The volume is two thirds of the length times the frontal area. */
  lemma VolumeIsTwoThirdsLengthTimesArea(lengthM: real, diameterM: real)
    ensures DisplacedVolume(lengthM, diameterM) == (2.0 / 3.0) * lengthM * FrontalArea(diameterM)
  {
    var sq := Square(diameterM / 2.0);
    calc {
      DisplacedVolume(lengthM, diameterM);
      (4.0 / 3.0) * Pi * (lengthM / 2.0) * sq;
      (2.0 / 3.0) * lengthM * (Pi * sq);
      (2.0 / 3.0) * lengthM * FrontalArea(diameterM);
    }
  }

  /** A longer hull of the same positive diameter displaces strictly more. */
  lemma VolumeIncreasesWithLength(l1: real, l2: real, diameterM: real)
    requires l1 < l2 && diameterM > 0.0
    ensures DisplacedVolume(l1, diameterM) < DisplacedVolume(l2, diameterM)
  {
    VolumeIsTwoThirdsLengthTimesArea(l1, diameterM);
    VolumeIsTwoThirdsLengthTimesArea(l2, diameterM);
    var area := FrontalArea(diameterM);
    PositiveProduct((2.0 / 3.0) * (l2 - l1), area);
    calc {
      DisplacedVolume(l2, diameterM) - DisplacedVolume(l1, diameterM);
      (2.0 / 3.0) * l2 * area - (2.0 / 3.0) * l1 * area;
      ((2.0 / 3.0) * (l2 - l1)) * area;
    >
      0.0;
    }
  }

  /** The frontal area grows strictly with a positive diameter. */
  lemma AreaIncreasesWithDiameter(d1: real, d2: real)
    requires 0.0 < d1 < d2
    ensures FrontalArea(d1) < FrontalArea(d2)
  {
    var s1, s2 := Square(d1 / 2.0), Square(d2 / 2.0);
    SquareIncreasing(d1 / 2.0, d2 / 2.0);
    PositiveProduct(Pi, s2 - s1);
    calc {
      FrontalArea(d2) - FrontalArea(d1);
      Pi * s2 - Pi * s1;
      Pi * (s2 - s1);
    >
      0.0;
    }
  }

  /** A wider hull of the same positive length displaces strictly more. */
  lemma VolumeIncreasesWithDiameter(lengthM: real, d1: real, d2: real)
    requires lengthM > 0.0 && 0.0 < d1 < d2
    ensures DisplacedVolume(lengthM, d1) < DisplacedVolume(lengthM, d2)
  {
    VolumeIsTwoThirdsLengthTimesArea(lengthM, d1);
    VolumeIsTwoThirdsLengthTimesArea(lengthM, d2);
    AreaIncreasesWithDiameter(d1, d2);
    var k := (2.0 / 3.0) * lengthM;
    var a1, a2 := FrontalArea(d1), FrontalArea(d2);
    PositiveProduct(k, a2 - a1);
    calc {
      DisplacedVolume(lengthM, d2) - DisplacedVolume(lengthM, d1);
      k * a2 - k * a1;
      k * (a2 - a1);
    >
      0.0;
    }
  }

  /** Keeps the last-set hull dimensions. */
  class HullGenerator {
    var lengthM: real
    var diameterM: real
    var finSurfaceAreaM2: real

    constructor()
      ensures lengthM == 3.0 && diameterM == 0.5 && finSurfaceAreaM2 == 0.08
    {
      lengthM := 3.0;
      diameterM := 0.5;
      finSurfaceAreaM2 := 0.08;
    }

    /** Store new dimensions; the mesh the source rebuilds here is not modelled. */
    method UpdateHull(newLengthM: real, newDiameterM: real, newFinSurfaceAreaM2: real)
      modifies this
      ensures lengthM == newLengthM && diameterM == newDiameterM
      ensures finSurfaceAreaM2 == newFinSurfaceAreaM2
    {
      lengthM := newLengthM;
      diameterM := newDiameterM;
      finSurfaceAreaM2 := newFinSurfaceAreaM2;
    }

    function GetHydroArea(): (a: real)
      reads this
      ensures a == FrontalArea(diameterM)
      ensures diameterM > 0.0 ==> a > 0.0
    {
      FrontalArea(diameterM)
    }

    function GetVolume(): (v: real)
      reads this
      ensures v == (2.0 / 3.0) * lengthM * GetHydroArea()
      ensures lengthM > 0.0 && diameterM > 0.0 ==> v > 0.0
    {
      VolumeIsTwoThirdsLengthTimesArea(lengthM, diameterM);
      DisplacedVolume(lengthM, diameterM)
    }

    /** Area and volume of the stored dimensions. */
    function GetProperties(): (p: HullProperties)
      reads this
      ensures p.areaM2 == FrontalArea(diameterM)
      ensures p.volumeM3 == DisplacedVolume(lengthM, diameterM)
      ensures p.volumeM3 == (2.0 / 3.0) * lengthM * p.areaM2
    {
      HullProperties(GetHydroArea(), GetVolume())
    }
  }
}
