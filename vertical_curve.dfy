/**
  Closed-form geometry of a parabolic vertical curve ("concordância vertical")
  joining two grade lines of a longitudinal profile: a crest ("Convexa") or a
  sag ("Côncava"). Lengths and elevations are in metres, grades are decimal
  fractions after sign assignment; all arithmetic is exact over `real`.

  A is the start of the curve (PCV, x = 0), B its end (PTV, x = L) and I the
  point of intersection of the grade lines (PIV), above or below x = L/2.
*/
module VerticalCurve {
  import opened Wrappers

  /** The two curve types of the form: crest ("Convexa") and sag ("Côncava"). */
  datatype Kind = Crest | Sag

  /** What the form supplies: the curve type, the PIV elevation Z_I, the two
      grade magnitudes in percent (signs come from the kind) and the length L. */
  datatype CurveInput = CurveInput(
    kind: Kind,
    pivElevation: real,
    grade1Percent: real,
    grade2Percent: real,
    length: real)

  /** The bounds the number fields put on the input: no negative grade
      magnitude and a length of at least one metre. */
  predicate ValidInput(inp: CurveInput) {
    inp.grade1Percent >= 0.0 && inp.grade2Percent >= 0.0 && inp.length >= 1.0
  }

  /** The vertex of the parabola: its abscissa x_V measured from A, its rise
      y_V above A and its elevation Z_V. */
  datatype VertexPoint = VertexPoint(x: real, rise: real, z: real)

  function Abs(r: real): real {
    if r < 0.0 then -r else r
  }

  /** The grade break g = i1 - i2: positive when the profile turns down
      (a crest), negative when it turns up (a sag). */
  function GradeBreak(i1: real, i2: real): (g: real)
    ensures g > 0.0 <==> i1 > i2
    ensures g == 0.0 <==> i1 == i2
  {
    i1 - i2
  }

  /** The mid offset e = (L / 8) * g, the vertical distance between the two
      grade lines' intersection and the curve at mid-length. */
  function MidOffset(length: real, g: real): (e: real)
    ensures length > 0.0 ==> (e > 0.0 <==> g > 0.0) && (e == 0.0 <==> g == 0.0)
  {
    (length / 8.0) * g
  }

  /** Sign assignment: a crest climbs then falls, a sag falls then climbs.
      The magnitudes are percent and become decimal grades. */
  function SignedGrades(kind: Kind, grade1Percent: real, grade2Percent: real): (grades: (real, real))
    requires grade1Percent >= 0.0 && grade2Percent >= 0.0
    ensures kind == Crest ==> grades.0 >= 0.0 && grades.1 <= 0.0
    ensures kind == Sag ==> grades.0 <= 0.0 && grades.1 >= 0.0
    ensures 100.0 * Abs(grades.0) == grade1Percent && 100.0 * Abs(grades.1) == grade2Percent
  {
    match kind
    case Crest => (grade1Percent / 100.0, -grade2Percent / 100.0)
    case Sag => (-grade1Percent / 100.0, grade2Percent / 100.0)
  }

  /**
    A vertical curve fixed by its two signed grades, its length and the
    elevation Z_A of its start A. Every other quantity is derived.
  */
  datatype Curve = Curve(i1: real, i2: real, length: real, zA: real) {

    predicate Valid() {
      length > 0.0
    }

    /** g of this curve; the formula is GradeBreak's, which Compute also
        needs before the curve exists. */
    function G(): real {
      GradeBreak(i1, i2)
    }

    /** e of this curve; the formula is MidOffset's, which Compute also needs
        before the curve exists, to place A. */
    function E(): real {
      MidOffset(length, G())
    }

    /** Elevation Z_B of the end B: from A along grade i1 for L/2, then along
        grade i2 for the other L/2. */
    function ZB(): (z: real)
      ensures z == TangentA(length / 2.0) + i2 * (length / 2.0)
    {
      zA + ((i1 + i2) / 2.0) * length
    }

    /** Elevation of the curve below (or above) the PIV: e away from the
        crossing of the grade lines at mid-length. */
    function ZIParab(): (z: real)
      ensures z == TangentA(length / 2.0) - E() && z == TangentB(length / 2.0) - E()
    {
      zA + i1 * (length / 2.0) - E()
    }

    /** The parabola Z(x) = Z_A + i1*x - g/(2L)*x², for every real x. */
    function Elevation(x: real): real
      requires Valid()
    {
      zA + (i1 * x - (G() / (2.0 * length)) * x * x)
    }

    /** The grade line through A. */
    function TangentA(x: real): real {
      zA + i1 * x
    }

    /** The grade line through B. */
    function TangentB(x: real): real {
      ZB() + i2 * (x - length)
    }

    /** The derivative of Elevation, used to state where the curve is tangent
        to the grade lines and where it is level. */
    function Slope(x: real): real
      requires Valid()
    {
      i1 - (G() / length) * x
    }

    /** The vertex, absent when the grade break is zero (a straight profile). */
    function Vertex(): (v: Option<VertexPoint>)
      requires Valid()
      ensures v.Some? <==> G() != 0.0
      ensures v.Some? ==> v.value.z == zA + v.value.rise
    {
      if G() != 0.0 then
        var x := (i1 * length) / G();
        var rise := (i1 * i1 * length) / (2.0 * G());
        Some(VertexPoint(x, rise, zA + rise))
      else
        None
    }
  }

  /** Start elevation as the source writes it: Z_A = Z_I - i1*(L/2) + e. */
  function StartElevation(pivElevation: real, i1: real, length: real, e: real): (z: real)
    ensures z + i1 * (length / 2.0) == pivElevation + e
  {
    pivElevation - i1 * (length / 2.0) + e
  }

  /** The curve the source computes from the form's input. */
  function Compute(inp: CurveInput): (c: Curve)
    requires ValidInput(inp)
    ensures c.Valid() && c.length == inp.length
    ensures 100.0 * Abs(c.i1) == inp.grade1Percent && 100.0 * Abs(c.i2) == inp.grade2Percent
    ensures inp.kind == Crest ==> c.i1 >= 0.0 && c.i2 <= 0.0 && c.G() >= 0.0
    ensures inp.kind == Sag ==> c.i1 <= 0.0 && c.i2 >= 0.0 && c.G() <= 0.0
    ensures c.G() == 0.0 <==> inp.grade1Percent == 0.0 && inp.grade2Percent == 0.0
  {
    var grades := SignedGrades(inp.kind, inp.grade1Percent, inp.grade2Percent);
    var g := GradeBreak(grades.0, grades.1);
    var e := MidOffset(inp.length, g);
    Curve(grades.0, grades.1, inp.length, StartElevation(inp.pivElevation, grades.0, inp.length, e))
  }

  // ---------------------------------------------------------------------
  // Geometry of any curve

  /** The parabola starts at A and ends at B. */
  lemma PassesThroughEnds(c: Curve)
    requires c.Valid()
    ensures c.Elevation(0.0) == c.zA
    ensures c.Elevation(c.length) == c.ZB()
  {
  }

  /** The elevation reported for the PIV is the parabola at mid-length. */
  lemma PivOnCurveIsMidpoint(c: Curve)
    requires c.Valid()
    ensures c.Elevation(c.length / 2.0) == c.ZIParab()
  {
  }

  /** The grade line through A touches the parabola at A, and the curve
      leaves it by a pure square term. */
  lemma TangentAContact(c: Curve, x: real)
    requires c.Valid()
    ensures c.Elevation(x) - c.TangentA(x) == -(c.G() / (2.0 * c.length)) * x * x
  {
  }

  /** The grade line through B touches the parabola at B, and the curve
      leaves it by a pure square term. */
  lemma TangentBContact(c: Curve, x: real)
    requires c.Valid()
    ensures c.Elevation(x) - c.TangentB(x) == -(c.G() / (2.0 * c.length)) * (x - c.length) * (x - c.length)
  {
  }

  /** Slope is the exact derivative of Elevation: the increment over h is
      h * Slope(x) plus a term of second order in h. */
  lemma SlopeIsDerivative(c: Curve, x: real, h: real)
    requires c.Valid()
    ensures c.Elevation(x + h) - c.Elevation(x) == h * c.Slope(x) - (c.G() / (2.0 * c.length)) * h * h
  {
  }

  /** The curve leaves A along grade i1 and arrives at B along grade i2,
      which are the slopes of the two grade lines. */
  lemma EndSlopes(c: Curve)
    requires c.Valid()
    ensures c.Slope(0.0) == c.i1 && c.TangentA(0.0) == c.Elevation(0.0)
    ensures c.Slope(c.length) == c.i2 && c.TangentB(c.length) == c.Elevation(c.length)
  {
  }

  /** The grade lines cross at mid-length (or coincide when g = 0), and the
      curve lies e below their crossing there. */
  lemma TangentsMeetAtMid(c: Curve, x: real)
    requires c.Valid()
    ensures c.TangentA(x) == c.TangentB(x) <==> (x == c.length / 2.0 || c.G() == 0.0)
    ensures c.TangentA(c.length / 2.0) - c.Elevation(c.length / 2.0) == c.E()
  {
    assert c.TangentA(x) - c.TangentB(x) == c.G() * (x - c.length / 2.0);
    PivOnCurveIsMidpoint(c);
  }

  /** A crest curve lies below both grade lines, a sag curve above them. */
  lemma CurveSideOfTangents(c: Curve, x: real)
    requires c.Valid()
    ensures c.G() >= 0.0 ==> c.Elevation(x) <= c.TangentA(x) && c.Elevation(x) <= c.TangentB(x)
    ensures c.G() <= 0.0 ==> c.Elevation(x) >= c.TangentA(x) && c.Elevation(x) >= c.TangentB(x)
  {
    TangentAContact(c, x);
    TangentBContact(c, x);
    var k := c.G() / (2.0 * c.length);
    assert c.G() >= 0.0 ==> k >= 0.0;
    assert c.G() <= 0.0 ==> k <= 0.0;
    SquareNonNegative(x);
    SquareNonNegative(x - c.length);
  }

  lemma SquareNonNegative(y: real)
    ensures y * y >= 0.0
  {
  }

  /** The vertex form of the parabola: it is level at x_V, and anywhere else
      it differs from Z_V by a square. */
  lemma VertexForm(c: Curve, x: real)
    requires c.Valid() && c.G() != 0.0
    ensures c.Vertex().Some?
    ensures c.Elevation(c.Vertex().value.x) == c.Vertex().value.z
    ensures c.Slope(c.Vertex().value.x) == 0.0
    ensures c.Elevation(x)
         == c.Vertex().value.z - (c.G() / (2.0 * c.length)) * (x - c.Vertex().value.x) * (x - c.Vertex().value.x)
  {
  }

  /** The vertex is the highest point of a crest curve and the lowest point
      of a sag curve. */
  lemma VertexIsExtremum(c: Curve, x: real)
    requires c.Valid() && c.G() != 0.0
    ensures c.G() > 0.0 ==> c.Elevation(x) <= c.Vertex().value.z
    ensures c.G() < 0.0 ==> c.Elevation(x) >= c.Vertex().value.z
  {
    VertexForm(c, x);
    var v := c.Vertex().value;
    var k := c.G() / (2.0 * c.length);
    assert c.G() > 0.0 ==> k > 0.0;
    assert c.G() < 0.0 ==> k < 0.0;
    SquareNonNegative(x - v.x);
  }

  // ---------------------------------------------------------------------
  // The curve computed from the form's input

  /** Whatever the kind, the vertex sits at i1_valor * L / (i1_valor + i2_valor)
      from A, and therefore between A and B. */
  lemma VertexWithinCurve(inp: CurveInput)
    requires ValidInput(inp) && Compute(inp).G() != 0.0
    ensures Compute(inp).Vertex().Some?
    ensures var x := Compute(inp).Vertex().value.x;
      && x == inp.grade1Percent * inp.length / (inp.grade1Percent + inp.grade2Percent)
      && 0.0 <= x <= inp.length
  {
    var c := Compute(inp);
    var a, b := inp.grade1Percent, inp.grade2Percent;
    assert c.Vertex().value.x == (c.i1 * c.length) / c.G();
    assert inp.kind == Crest ==> c.i1 == a / 100.0 && c.G() == (a + b) / 100.0;
    assert inp.kind == Sag ==> c.i1 == -a / 100.0 && c.G() == -(a + b) / 100.0;
    AbscissaFromMagnitudes(c.i1, c.G(), a, b, c.length);
  }

  /** The vertex abscissa i1*L/g in terms of the two grade magnitudes, for
      either sign assignment. */
  lemma AbscissaFromMagnitudes(i1: real, g: real, a: real, b: real, L: real)
    requires a >= 0.0 && b >= 0.0 && L > 0.0 && g != 0.0
    requires (i1 == a / 100.0 && g == (a + b) / 100.0) || (i1 == -a / 100.0 && g == -(a + b) / 100.0)
    ensures (i1 * L) / g == a * L / (a + b)
    ensures 0.0 <= (i1 * L) / g <= L
  {
    assert a + b != 0.0;
    assert (i1 * L) / g == (100.0 * i1 * L) / (100.0 * g);
    FractionOfLength(a, b, L);
  }

  lemma FractionOfLength(a: real, b: real, L: real)
    requires a >= 0.0 && b >= 0.0 && a + b > 0.0 && L > 0.0
    ensures 0.0 <= a * L / (a + b) <= L
  {
    var q := a * L / (a + b);
    assert q * (a + b) == a * L;
    assert (L - q) * (a + b) == b * L;
    assert b * L >= 0.0;
    assert a * L >= 0.0;
  }

  /** With a non-zero grade break, the vertex of a crest is its maximum and
      the vertex of a sag its minimum, over every abscissa. */
  lemma ExtremumByKind(inp: CurveInput, x: real)
    requires ValidInput(inp) && Compute(inp).G() != 0.0
    ensures inp.kind == Crest ==> Compute(inp).Elevation(x) <= Compute(inp).Vertex().value.z
    ensures inp.kind == Sag ==> Compute(inp).Elevation(x) >= Compute(inp).Vertex().value.z
  {
    VertexIsExtremum(Compute(inp), x);
  }

  /** The default form values: a crest, Z_I = 200 m, i1 = 2.50 %, i2 = 1.00 %, L = 120 m. */
  const DefaultInput := CurveInput(Crest, 200.0, 2.5, 1.0, 120.0)

  /** The values the source derives for the default form values. */
  lemma DefaultWorkedValues()
    ensures ValidInput(DefaultInput)
    ensures var c := Compute(DefaultInput);
      && c.i1 == 0.025 && c.i2 == -0.01
      && c.G() == 0.035 && c.E() == 0.525
      && c.zA == 199.025 && c.ZB() == 199.925
      && c.ZIParab() == 200.0
      && c.Vertex() == Some(VertexPoint(600.0 / 7.0, 15.0 / 14.0, 199.025 + 15.0 / 14.0))
  {
  }

  // ---------------------------------------------------------------------
  // The start elevation: as written and as intended

  /** As written, the parabola passes through (L/2, Z_I) itself, so the
      reported PIV-on-curve elevation is always the input Z_I, and the grade
      lines meet e above the PIV instead of at it. */
  lemma AsWrittenCurveThroughPiv(inp: CurveInput)
    requires ValidInput(inp)
    ensures var c := Compute(inp);
      && c.ZIParab() == inp.pivElevation
      && c.Elevation(c.length / 2.0) == inp.pivElevation
      && c.TangentA(c.length / 2.0) == inp.pivElevation + c.E()
      && c.TangentB(c.length / 2.0) == inp.pivElevation + c.E()
  {
    var c := Compute(inp);
    PivOnCurveIsMidpoint(c);
    TangentsMeetAtMid(c, c.length / 2.0);
  }

  /** With the default form values the grade lines meet at 200.525 m, not at
      the 200 m entered for the PIV. */
  lemma AsWrittenDefaultsMissPiv()
    ensures ValidInput(DefaultInput)
    ensures Compute(DefaultInput).TangentA(60.0) == 200.525
    ensures Compute(DefaultInput).TangentA(60.0) != DefaultInput.pivElevation
  {
  }

  /** Start elevation with A on the grade line through the PIV: Z_I - i1*(L/2). */
  function IntendedStartElevation(pivElevation: real, i1: real, length: real): (z: real)
    ensures z + i1 * (length / 2.0) == pivElevation
  {
    pivElevation - i1 * (length / 2.0)
  }

  /** The curve with the intended start elevation; grades and length as in Compute. */
  function ComputeIntended(inp: CurveInput): (c: Curve)
    requires ValidInput(inp)
    ensures c.Valid()
    ensures c == Compute(inp).(zA := Compute(inp).zA - Compute(inp).E())
  {
    var grades := SignedGrades(inp.kind, inp.grade1Percent, inp.grade2Percent);
    Curve(grades.0, grades.1, inp.length, IntendedStartElevation(inp.pivElevation, grades.0, inp.length))
  }

  /** With the intended start elevation both grade lines pass through the PIV
      at mid-length, and the curve lies e below (crest) or above (sag) it. */
  lemma IntendedTangentsMeetAtPiv(inp: CurveInput)
    requires ValidInput(inp)
    ensures var c := ComputeIntended(inp);
      && c.TangentA(c.length / 2.0) == inp.pivElevation
      && c.TangentB(c.length / 2.0) == inp.pivElevation
      && c.Elevation(c.length / 2.0) == c.ZIParab() == inp.pivElevation - c.E()
  {
    var c := ComputeIntended(inp);
    PivOnCurveIsMidpoint(c);
    TangentsMeetAtMid(c, c.length / 2.0);
  }
}
