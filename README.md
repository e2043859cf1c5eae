# Vertical curve geometry

A model of the geometry engine of a small profile-design tool: a parabolic
vertical curve ("concordância vertical") joining two grade lines at the
point of intersection of grades (PIV, "I"). The curve is a crest
("Convexa") or a sag ("Côncava"). It starts at A (PCV, x = 0) and ends at
B (PTV, x = L). The tool reads the curve type, the PIV elevation Z_I, two
grade magnitudes in percent and the length L. It derives the signed grades
i1 and i2, the grade break g, the mid offset e, the end elevations Z_A and
Z_B, the vertex (x_V, y_V, Z_V), the curve elevation Z_I_parab below the
PIV, the parabola Z(x) and the two grade lines.

The model is pure, as the source is: straight-line assignments of
arithmetic expressions become functions over exact `real`.

- `wrappers.dfy`: `Option`, standing for the source's NaN fallback when
  there is no vertex.
- `vertical_curve.dfy`, module `VerticalCurve`:
  - `CurveInput` and `ValidInput`: the form's values and their bounds.
  - `SignedGrades`: the sign assignment.
  - `Curve`: a datatype fixed by i1, i2, L and Z_A. Its member functions
    give g, e, Z_B, Z_I_parab, the optional vertex, Z(x), the two grade
    lines and the slope (the derivative of Z).
  - `Compute`: the curve the source builds from the input.
  - Lemmas: the curve's geometry, the vertex, the values for the default
    input, and the start-elevation finding below.

The sampled arrays (`np.linspace` over [0, L], [-L/3, L] and [0, L+L/3])
become functions of `x` that are defined for every real `x`. Every lemma
about a `Curve` takes any valid curve. So it holds for the curve of
`Compute` and for the corrected curve of `ComputeIntended`.

## Model

| member | source | states |
|---|---|---|
| `VerticalCurve.SignedGrades` | app.py:25-30 | a crest gives i1 >= 0 and i2 <= 0, a sag gives i1 <= 0 and i2 >= 0; each decimal grade has magnitude equal to its percent input / 100 |
| `VerticalCurve.Compute` | app.py:20-38 | the computed curve has length L and grades of magnitude i1_valor/100 and i2_valor/100; a crest has i1 >= 0, i2 <= 0 and g >= 0, a sag the opposite signs; g == 0 exactly when both grade magnitudes are 0 |
| `VerticalCurve.GradeBreak` | app.py:33 | definition of g = i1 - i2 (also `Curve.G`); g > 0 exactly when i1 > i2 and g == 0 exactly when i1 == i2; its role is stated by `TangentsMeetAtMid` and `CurveSideOfTangents` |
| `VerticalCurve.MidOffset` | app.py:34 | definition of e = (L/8)*g (also `Curve.E`); for L > 0, e has the sign of g; `TangentsMeetAtMid` proves e is the gap between the grade lines' crossing and the curve |
| `VerticalCurve.StartElevation` | app.py:37 | Z_A as written: going L/2 from A along grade i1 reaches Z_I + e, not Z_I; see `AsWrittenCurveThroughPiv` |
| `VerticalCurve.Curve.ZB` | app.py:38 | definition of Z_B: from A along grade i1 for L/2, then along grade i2 for L/2; `PassesThroughEnds` proves Z(L) == Z_B |
| `VerticalCurve.Curve.ZIParab` | app.py:47 | definition of Z_I_parab: e below the crossing of both grade lines at L/2; `PivOnCurveIsMidpoint` proves it is Z(L/2) |
| `VerticalCurve.Curve.Elevation` | app.py:51-52 | definition of the parabola Z(x) for every real x; its properties are stated by `PassesThroughEnds`, `TangentAContact`, `TangentBContact`, `SlopeIsDerivative` and `VertexForm` |
| `VerticalCurve.Curve.TangentA` | app.py:56 | definition of the grade line through A; `TangentAContact` and `EndSlopes` prove it is the tangent at A |
| `VerticalCurve.Curve.TangentB` | app.py:58 | definition of the grade line through B; `TangentBContact` and `EndSlopes` prove it is the tangent at B |
| `VerticalCurve.Curve.Vertex` | app.py:41-43 | a vertex exists exactly when g != 0, matching the NaN guard; when it exists Z_V == Z_A + y_V; `VertexForm` proves it lies on the parabola |
| `VerticalCurve.PassesThroughEnds` | app.py:37-52 | Z(0) == Z_A and Z(L) == Z_B: the parabola joins A and B |
| `VerticalCurve.PivOnCurveIsMidpoint` | app.py:47-52 | the reported PIV-on-curve elevation Z_I_parab is the parabola at x = L/2 |
| `VerticalCurve.TangentAContact` | app.py:51-56 | for every x, Z(x) - Z_tanA(x) == -(g/(2L))*x², so the grade line through A touches the curve at A |
| `VerticalCurve.TangentBContact` | app.py:51-58 | for every x, Z(x) - Z_tanB(x) == -(g/(2L))*(x-L)², so the grade line through B touches the curve at B |
| `VerticalCurve.SlopeIsDerivative` | app.py:51-52 | Z(x+h) - Z(x) == h*Slope(x) - (g/(2L))*h², so Slope is the exact derivative of the parabola |
| `VerticalCurve.EndSlopes` | app.py:51-58 | the curve's slope is i1 at A and i2 at B, and each grade line meets the curve at its end |
| `VerticalCurve.TangentsMeetAtMid` | app.py:34-58 | the two grade lines meet exactly at x = L/2, unless g == 0 and they coincide; there the crossing is e above the curve |
| `VerticalCurve.CurveSideOfTangents` | app.py:51-58 | for g >= 0 (crest) the curve lies on or below both grade lines for every x; for g <= 0 (sag) on or above them |
| `VerticalCurve.VertexForm` | app.py:41-52 | for g != 0, the vertex lies on the parabola, Z(x_V) == Z_V, the slope is zero at x_V, and Z(x) == Z_V - (g/(2L))*(x - x_V)² for every x |
| `VerticalCurve.VertexIsExtremum` | app.py:41-52 | for g > 0, Z(x) <= Z_V for every x; for g < 0, Z(x) >= Z_V for every x |
| `VerticalCurve.VertexWithinCurve` | app.py:20-41 | for valid input with g != 0, x_V == i1_valor*L/(i1_valor+i2_valor) for both kinds, so 0 <= x_V <= L |
| `VerticalCurve.ExtremumByKind` | app.py:25-52 | for valid input with g != 0, the vertex is the maximum of a crest curve and the minimum of a sag curve |
| `VerticalCurve.DefaultWorkedValues` | app.py:19-47 | the default input gives i1 = 0.025, i2 = -0.01, g = 0.035, e = 0.525, Z_A = 199.025, Z_B = 199.925, Z_I_parab = 200.0 and vertex (600/7, 15/14, 199.025 + 15/14) |
| `VerticalCurve.AsWrittenCurveThroughPiv` | app.py:37-58 | with Z_A as written, the parabola passes through (L/2, Z_I), Z_I_parab == Z_I for every input, and both grade lines cross at Z_I + e |
| `VerticalCurve.AsWrittenDefaultsMissPiv` | app.py:19-56 | with the default input, the grade line through A reaches 200.525 at x = 60, not the 200 entered for the PIV |
| `VerticalCurve.ComputeIntended` | app.py:37 | the corrected curve equals the as-written curve with Z_A lowered by e; grades, length and g are unchanged |
| `VerticalCurve.IntendedStartElevation` | app.py:37 | corrected Z_A: going L/2 from A along grade i1 reaches exactly Z_I, so A lies on the grade line through the PIV |
| `VerticalCurve.IntendedTangentsMeetAtPiv` | app.py:37-58 | with Z_A = Z_I - i1*L/2, both grade lines pass through (L/2, Z_I), and the curve there is Z_I_parab == Z_I - e |

## Left out

- The page, sidebar widgets and result text (app.py:7-22, 108-121) are user interface. Only the widgets' lower bounds (`min_value`) are kept, as `ValidInput`.
- Plotting and the label-placement heuristic (app.py:60-106) are presentation only.
- The PDF report and download button (app.py:123-158) are I/O and calls into foreign libraries.
- Floating-point rounding and NaN propagation are not modelled. Arithmetic is exact over `real`, and a missing vertex is `None`.
- `np.linspace` sampling is not modelled. Z(x) and the grade lines are functions defined for every real x; the sampling ranges and point counts are not kept.
- The curve-type string is not modelled; the two-option select box becomes the datatype `Kind`.

## Findings

| source | as written | input that shows it | evidently intended | confidence | as-written member | corrected member |
|---|---|---|---|---|---|---|
| app.py:37 | `Z_A = Z_I - i1*(L/2) + e`, so the curve itself passes through (L/2, Z_I) and the grade lines cross at Z_I + e | the default input (crest, Z_I = 200, 2.50 %, 1.00 %, L = 120): the grade lines cross at 200.525, and the "PIV on the parabola" is always 200 = Z_I | `Z_A = Z_I - i1*(L/2)`, so the grade lines cross at the PIV and the curve at mid-length is Z_I - e (199.475 for the default input) | medium; not executed | `VerticalCurve.AsWrittenCurveThroughPiv`, `VerticalCurve.AsWrittenDefaultsMissPiv` | `VerticalCurve.ComputeIntended`, `VerticalCurve.IntendedTangentsMeetAtPiv` |
