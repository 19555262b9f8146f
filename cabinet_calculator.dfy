/// The cabinet weight, print-time and cost estimator: material tables, the
/// shell-and-infill panel model, the derived drawer fields, the recomputation
/// of the weight breakdown and production estimates, and the component state
/// that text edits, material choices and the drawer switch update.
module CabinetCalculator {
  import opened JsNumber
  import opened JsString

  function Max(a: real, b: real): (m: real)
    ensures m >= a && m >= b && (m == a || m == b)
  {
    if a >= b then a else b
  }

  // ---------------------------------------------------------------------------
  // Material tables
  // ---------------------------------------------------------------------------

  /** Density in g/cm³ of each material preset offered in the selectors. */
  const MaterialPresets: map<string, real> := map[
    "PLA Basic/Matte" := 1.24,
    "PLA Silk/Metal" := 1.31,
    "PLA-CF" := 1.22,
    "PETG Basic" := 1.27,
    "PETG-CF" := 1.29,
    "ABS" := 1.05,
    "TPU" := 1.21
  ]

  /** The density used for a name the table does not know. */
  const FallbackDensity: real := 1.24

  /** `MATERIAL_PRESETS[material] || 1.24`. */
  function PresetDensity(material: string): (d: real)
    ensures material in MaterialPresets ==> d == MaterialPresets[material]
    ensures material !in MaterialPresets ==> d == FallbackDensity
    ensures d > 0.0 && HasTwoDecimals(d)
  {
    if material in MaterialPresets && MaterialPresets[material] != 0.0 then MaterialPresets[material]
    else FallbackDensity
  }

  /** Recommended printer power in watts: the first rule whose name fragment
      the material contains decides. */
  function PowerForMaterial(material: string): (watts: nat)
    ensures Includes(material, "PLA") ==> watts == 150
    ensures watts == 170 <==> !Includes(material, "PLA") && Includes(material, "PETG")
    ensures watts == 280 <==>
      !Includes(material, "PLA") && !Includes(material, "PETG")
      && (Includes(material, "ABS") || Includes(material, "ASA"))
    ensures watts == 150 || watts == 170 || watts == 280
  {
    if Includes(material, "PLA") then 150
    else if Includes(material, "PETG") then 170
    else if Includes(material, "ABS") || Includes(material, "ASA") then 280
    else if Includes(material, "TPU") then 150
    else 150
  }

  // ---------------------------------------------------------------------------
  // Panel weight model
  // ---------------------------------------------------------------------------

  /** Extrusion line width in mm. */
  const LineWidth: real := 0.42

  /** Thickness printed solid: `wallLoops` perimeter lines on each face. */
  function SolidThickness(wallLoops: real): real {
    wallLoops * LineWidth * 2.0
  }

  /** The fraction of a panel's volume that is plastic: 1 when the perimeter
      shell fills the thickness, else the solid share plus the infill share
      weighted by the infill rate. */
  function DensityFactor(t: real, wallLoops: real, infill: real): (f: real)
    requires t > 0.0
    ensures t <= SolidThickness(wallLoops) ==> f == 1.0
    ensures 0.0 <= wallLoops && 0.0 <= infill ==> f >= 0.0
    ensures 0.0 <= wallLoops && 0.0 <= infill <= 1.0 ==> infill <= f <= 1.0
  {
    var solid := SolidThickness(wallLoops);
    if t > solid then
      var solidRatio := solid / t;
      var infillRatio := (t - solid) / t;
      SplitBounds(t, solid, infill);
      solidRatio * 1.0 + infillRatio * infill
    else 1.0
  }

  /** The solid and infill shares blend to a factor between the infill rate and 1. */
  lemma SplitBounds(t: real, solid: real, infill: real)
    requires solid < t && t > 0.0
    ensures 0.0 <= solid && 0.0 <= infill ==> solid / t * 1.0 + (t - solid) / t * infill >= 0.0
    ensures 0.0 <= solid && 0.0 <= infill <= 1.0 ==>
      infill <= solid / t * 1.0 + (t - solid) / t * infill <= 1.0
  {
    SplitRatio(t, solid);
    ShareBounds(solid / t, (t - solid) / t, infill);
  }

  /** Blending with shares r and 1 - r. */
  lemma ShareBounds(r: real, q: real, infill: real)
    requires q == 1.0 - r
    ensures 0.0 <= r < 1.0 && 0.0 <= infill ==> r * 1.0 + q * infill >= 0.0
    ensures 0.0 <= r < 1.0 && 0.0 <= infill <= 1.0 ==> infill <= r * 1.0 + q * infill <= 1.0
  {
    BlendBounds(r, infill);
    var blend := r * 1.0 + (1.0 - r) * infill;
    assert q * infill == (1.0 - r) * infill;
    assert r * 1.0 + q * infill == blend;
  }

  lemma SplitRatio(t: real, solid: real)
    requires t > 0.0
    ensures (t - solid) / t == 1.0 - solid / t
    ensures 0.0 <= solid < t ==> 0.0 <= solid / t < 1.0
  {
    var r := solid / t;
    var q := (t - solid) / t;
    assert r * t == solid;
    assert q * t == t - solid;
    assert (q + r) * t == q * t + r * t;
    MulCancel(q + r - 1.0, t);
  }

  lemma MulCancel(x: real, t: real)
    requires t > 0.0 && x * t == 0.0
    ensures x == 0.0
  {
    if x > 0.0 {
      MulPos(x, t);
    } else if x < 0.0 {
      MulPos(-x, t);
    }
  }

  lemma MulPos(a: real, b: real)
    requires a > 0.0 && b > 0.0
    ensures a * b > 0.0
  {
  }

  lemma MulNonNeg(a: real, b: real)
    requires a >= 0.0 && b >= 0.0
    ensures a * b >= 0.0
  {
  }

  /** Blending solid and infill by a ratio r in [0, 1) stays between the
      infill rate and 1. */
  lemma BlendBounds(r: real, infill: real)
    ensures var f := r * 1.0 + (1.0 - r) * infill;
      && (0.0 <= r < 1.0 && 0.0 <= infill ==> f >= 0.0)
      && (0.0 <= r < 1.0 && 0.0 <= infill <= 1.0 ==> infill <= f <= 1.0)
  {
    if 0.0 <= r < 1.0 && 0.0 <= infill {
      MulNonNeg(1.0 - r, infill);
      if infill <= 1.0 {
        MulNonNeg(r, 1.0 - infill);
        MulNonNeg(1.0 - r, 1.0 - infill);
      }
    }
  }

  /** Past the solid shell, the factor blends solid and infill by the solid
      ratio, which lies in [0, 1). */
  lemma FactorBlend(t: real, wallLoops: real, infill: real)
    requires t > SolidThickness(wallLoops) && wallLoops >= 0.0
    ensures var solidRatio := SolidThickness(wallLoops) / t;
      && 0.0 <= solidRatio < 1.0
      && DensityFactor(t, wallLoops, infill) == solidRatio + (1.0 - solidRatio) * infill
  {
    SplitRatio(t, SolidThickness(wallLoops));
  }

  /** Grams of one rectangular panel of w × d × t mm. */
  function PanelWeight(w: real, d: real, t: real, wallLoops: real, infill: real, density: real): (g: real)
    ensures w <= 0.0 || d <= 0.0 || t <= 0.0 ==> g == 0.0
    ensures 0.0 <= wallLoops && 0.0 <= infill && 0.0 <= density ==> g >= 0.0
  {
    if w <= 0.0 || d <= 0.0 || t <= 0.0 then 0.0
    else
      var volumeCm3 := (w * d * t) / 1000.0;
      var f := DensityFactor(t, wallLoops, infill);
      assert volumeCm3 > 0.0;
      assert 0.0 <= wallLoops && 0.0 <= infill && 0.0 <= density ==> volumeCm3 * density * f >= 0.0;
      volumeCm3 * density * f
  }

  lemma MulMono(a: real, b: real, c: real)
    requires a >= 0.0 && b <= c
    ensures a * b <= a * c && b * a <= c * a
  {
  }

  /** A denser material never makes a panel lighter. */
  lemma PanelWeightMonotoneInDensity(w: real, d: real, t: real, wallLoops: real, infill: real, d1: real, d2: real)
    requires 0.0 <= wallLoops && 0.0 <= infill && d1 <= d2
    ensures PanelWeight(w, d, t, wallLoops, infill, d1) <= PanelWeight(w, d, t, wallLoops, infill, d2)
  {
    if w > 0.0 && d > 0.0 && t > 0.0 {
      var v := (w * d * t) / 1000.0;
      var f := DensityFactor(t, wallLoops, infill);
      assert v > 0.0;
      MulMono(v * f, d1, d2);
      assert v * d1 * f == (v * f) * d1 && v * d2 * f == (v * f) * d2;
    }
  }

  /** A higher infill rate never lowers the density factor. */
  lemma DensityFactorMonotoneInInfill(t: real, wallLoops: real, i1: real, i2: real)
    requires t > 0.0 && 0.0 <= wallLoops && i1 <= i2
    ensures DensityFactor(t, wallLoops, i1) <= DensityFactor(t, wallLoops, i2)
  {
    if t > SolidThickness(wallLoops) {
      hide DensityFactor, SolidThickness;
      FactorBlend(t, wallLoops, i1);
      FactorBlend(t, wallLoops, i2);
      var solidRatio := SolidThickness(wallLoops) / t;
      MulMono(1.0 - solidRatio, i1, i2);
    }
  }

  /** A higher infill rate never makes a panel lighter. */
  lemma PanelWeightMonotoneInInfill(w: real, d: real, t: real, wallLoops: real, i1: real, i2: real, density: real)
    requires 0.0 <= wallLoops && 0.0 <= density && i1 <= i2
    ensures PanelWeight(w, d, t, wallLoops, i1, density) <= PanelWeight(w, d, t, wallLoops, i2, density)
  {
    if w > 0.0 && d > 0.0 && t > 0.0 {
      DensityFactorMonotoneInInfill(t, wallLoops, i1, i2);
      hide DensityFactor;
      var f1, f2 := DensityFactor(t, wallLoops, i1), DensityFactor(t, wallLoops, i2);
      var v := (w * d * t) / 1000.0;
      MulPos(w, d);
      MulPos(w * d, t);
      MulNonNeg(v, density);
      MulMono(v * density, f1, f2);
    }
  }

  // ---------------------------------------------------------------------------
  // Cabinet decomposition
  // ---------------------------------------------------------------------------

  datatype Panel = Panel(w: real, d: real, t: real)

  /** Back (W × H × T), the two sides as one panel of double thickness
      (D × H × 2T), and the L shelves as one panel of L-fold thickness (W × D × LT). */
  function CabinetPanels(width: real, depth: real, height: real, wallThickness: real, shelves: real): seq<Panel> {
    [ Panel(width, height, wallThickness),
      Panel(depth, height, wallThickness * 2.0),
      Panel(width, depth, wallThickness * shelves) ]
  }

  /** The sum of the panels' weights, accumulated left to right as `reduce` does. */
  function PanelsWeight(ps: seq<Panel>, wallLoops: real, infill: real, density: real): (g: real)
    ensures 0.0 <= wallLoops && 0.0 <= infill && 0.0 <= density ==> g >= 0.0
  {
    if ps == [] then 0.0
    else
      var p := ps[|ps| - 1];
      PanelsWeight(ps[..|ps| - 1], wallLoops, infill, density) + PanelWeight(p.w, p.d, p.t, wallLoops, infill, density)
  }

  /** Splitting the panel list splits the sum. */
  lemma {:induction false} PanelsWeightAppend(a: seq<Panel>, b: seq<Panel>, wallLoops: real, infill: real, density: real)
    ensures PanelsWeight(a + b, wallLoops, infill, density)
         == PanelsWeight(a, wallLoops, infill, density) + PanelsWeight(b, wallLoops, infill, density)
    decreases |b|
  {
    if b == [] {
      assert a + b == a;
    } else {
      var b' := b[..|b| - 1];
      assert (a + b)[..|a + b| - 1] == a + b';
      assert (a + b)[|a + b| - 1] == b[|b| - 1];
      PanelsWeightAppend(a, b', wallLoops, infill, density);
    }
  }

  /** A denser material never makes a list of panels lighter. */
  lemma {:induction false} PanelsWeightMonotoneInDensity(ps: seq<Panel>, wallLoops: real, infill: real, d1: real, d2: real)
    requires 0.0 <= wallLoops && 0.0 <= infill && d1 <= d2
    ensures PanelsWeight(ps, wallLoops, infill, d1) <= PanelsWeight(ps, wallLoops, infill, d2)
  {
    if ps != [] {
      var p := ps[|ps| - 1];
      PanelsWeightMonotoneInDensity(ps[..|ps| - 1], wallLoops, infill, d1, d2);
      PanelWeightMonotoneInDensity(p.w, p.d, p.t, wallLoops, infill, d1, d2);
    }
  }

  /** The cabinet's raw weight is the back, the sides and the shelves. */
  lemma CabinetPanelsWeight(width: real, depth: real, height: real, wallThickness: real, shelves: real,
                            wallLoops: real, infill: real, density: real)
    ensures PanelsWeight(CabinetPanels(width, depth, height, wallThickness, shelves), wallLoops, infill, density)
         == PanelWeight(width, height, wallThickness, wallLoops, infill, density)
          + PanelWeight(depth, height, wallThickness * 2.0, wallLoops, infill, density)
          + PanelWeight(width, depth, wallThickness * shelves, wallLoops, infill, density)
  {
    var ps := CabinetPanels(width, depth, height, wallThickness, shelves);
    assert ps[..2][..1][..0] == [];
    assert ps[..2][..1] == [ps[0]];
    assert ps[..2] == [ps[0], ps[1]];
    assert PanelsWeight([ps[0]], wallLoops, infill, density)
        == PanelWeight(width, height, wallThickness, wallLoops, infill, density);
    assert PanelsWeight(ps[..2], wallLoops, infill, density)
        == PanelsWeight([ps[0]], wallLoops, infill, density)
         + PanelWeight(depth, height, wallThickness * 2.0, wallLoops, infill, density);
  }

  // ---------------------------------------------------------------------------
  // Parameters, as text fields
  // ---------------------------------------------------------------------------

  datatype ParamKey =
    | Width | Depth | Height | Shelves | WallThickness | WallLoops | Infill
    | CabinetMaterial | CabinetDensity | CabinetPower | CabinetPrice
    | DrawerMaterial | DrawerDensity | DrawerPower | DrawerPrice
    | CabinetCompensation | DrawerCompensation | PrintEfficiency | ElecRate

  /** The calculator's text fields, one per key. */
  datatype Params = Params(
    width: string, depth: string, height: string, shelves: string,
    wallThickness: string, wallLoops: string, infill: string,
    cabinetMaterial: string, cabinetDensity: string, cabinetPower: string, cabinetPrice: string,
    drawerMaterial: string, drawerDensity: string, drawerPower: string, drawerPrice: string,
    cabinetCompensation: string, drawerCompensation: string,
    printEfficiency: string, elecRate: string)

  /** The field named by `k`. */
  function Get(p: Params, k: ParamKey): string {
    match k
    case Width => p.width
    case Depth => p.depth
    case Height => p.height
    case Shelves => p.shelves
    case WallThickness => p.wallThickness
    case WallLoops => p.wallLoops
    case Infill => p.infill
    case CabinetMaterial => p.cabinetMaterial
    case CabinetDensity => p.cabinetDensity
    case CabinetPower => p.cabinetPower
    case CabinetPrice => p.cabinetPrice
    case DrawerMaterial => p.drawerMaterial
    case DrawerDensity => p.drawerDensity
    case DrawerPower => p.drawerPower
    case DrawerPrice => p.drawerPrice
    case CabinetCompensation => p.cabinetCompensation
    case DrawerCompensation => p.drawerCompensation
    case PrintEfficiency => p.printEfficiency
    case ElecRate => p.elecRate
  }

  /** `{...prev, [k]: v}`: the field named by `k` becomes `v`, every other
      field is kept. */
  function Set(p: Params, k: ParamKey, v: string): (q: Params)
    ensures Get(q, k) == v
    ensures forall j :: j != k ==> Get(q, j) == Get(p, j)
  {
    match k
    case Width => p.(width := v)
    case Depth => p.(depth := v)
    case Height => p.(height := v)
    case Shelves => p.(shelves := v)
    case WallThickness => p.(wallThickness := v)
    case WallLoops => p.(wallLoops := v)
    case Infill => p.(infill := v)
    case CabinetMaterial => p.(cabinetMaterial := v)
    case CabinetDensity => p.(cabinetDensity := v)
    case CabinetPower => p.(cabinetPower := v)
    case CabinetPrice => p.(cabinetPrice := v)
    case DrawerMaterial => p.(drawerMaterial := v)
    case DrawerDensity => p.(drawerDensity := v)
    case DrawerPower => p.(drawerPower := v)
    case DrawerPrice => p.(drawerPrice := v)
    case CabinetCompensation => p.(cabinetCompensation := v)
    case DrawerCompensation => p.(drawerCompensation := v)
    case PrintEfficiency => p.(printEfficiency := v)
    case ElecRate => p.(elecRate := v)
  }

  /** The material name fields; every other field holds a number as text. */
  predicate IsMaterialKey(k: ParamKey) {
    k == CabinetMaterial || k == DrawerMaterial
  }

  /** Every numeric field holds text the edit gate accepts. */
  predicate NumericFieldsGated(p: Params) {
    forall k :: !IsMaterialKey(k) ==> IsNumericEdit(Get(p, k))
  }

  const InitialParams := Params(
    "100", "100", "150", "5", "2.9", "2", "15",
    "PLA Basic/Matte", "1.24", "150", "50",
    "PETG Basic", "1.27", "170", "50",
    "1.67", "1.34", "44", "0.6")

  lemma WholeLiteralsGated()
    ensures IsNumericEdit("100") && IsNumericEdit("150") && IsNumericEdit("5") && IsNumericEdit("2")
    ensures IsNumericEdit("15") && IsNumericEdit("50") && IsNumericEdit("170") && IsNumericEdit("44")
  {
  }

  lemma DecimalLiteralsGated()
    ensures IsNumericEdit("2.9") && IsNumericEdit("1.24") && IsNumericEdit("1.27")
  {
  }

  lemma FactorLiteralsGated()
    ensures IsNumericEdit("1.67") && IsNumericEdit("1.34") && IsNumericEdit("0.6")
  {
  }

  /** Every initial numeric field passes the gate. */
  lemma InitialParamsGated()
    ensures NumericFieldsGated(InitialParams)
  {
    WholeLiteralsGated();
    DecimalLiteralsGated();
    FactorLiteralsGated();
    hide IsNumericEdit;
    forall k | !IsMaterialKey(k) ensures IsNumericEdit(Get(InitialParams, k)) {
    }
  }

  /** An edit the gate accepts keeps every numeric field gated. */
  lemma SetKeepsGate(p: Params, k: ParamKey, v: string)
    requires NumericFieldsGated(p) && IsNumericEdit(v)
    ensures NumericFieldsGated(Set(p, k, v))
  {
  }

  /** The drawer's own fields: quantity and height are derived, thickness fixed. */
  datatype DrawerParams = DrawerParams(quantity: string, thickness: string, height: string)

  const InitialDrawerParams := DrawerParams("5", "2.0", "")

  /** What the weights read: the cabinet's shape and print settings, the two
      densities and the two compensation factors (the infill as a fraction). */
  datatype Build = Build(
    width: real, depth: real, height: real, wallThickness: real, shelves: real,
    wallLoops: real, infill: real,
    cabinetDensity: real, drawerDensity: real,
    cabinetCompensation: real, drawerCompensation: real)

  /** What only the estimates read: print efficiency (g/h), electricity rate
      per kWh, printer powers (W) and prices per kg. */
  datatype Rates = Rates(
    printEfficiency: real, elecRate: real,
    cabinetPower: real, drawerPower: real,
    cabinetPrice: real, drawerPrice: real)

  function ReadBuild(p: Params): Build {
    Build(
      Parse(p.width), Parse(p.depth), Parse(p.height), Parse(p.wallThickness), Parse(p.shelves),
      Parse(p.wallLoops), Parse(p.infill) / 100.0,
      Parse(p.cabinetDensity), Parse(p.drawerDensity),
      Parse(p.cabinetCompensation), Parse(p.drawerCompensation))
  }

  function ReadRates(p: Params): Rates {
    Rates(
      Parse(p.printEfficiency), Parse(p.elecRate),
      Parse(p.cabinetPower), Parse(p.drawerPower),
      Parse(p.cabinetPrice), Parse(p.drawerPrice))
  }

  datatype Drawer = Drawer(height: real, quantity: real, thickness: real)

  function ReadDrawer(dp: DrawerParams): Drawer {
    Drawer(Parse(dp.height), Parse(dp.quantity), Parse(dp.thickness))
  }

  /** The fields that the weights read. */
  predicate IsWeightKey(k: ParamKey) {
    !(k.CabinetMaterial? || k.CabinetPower? || k.CabinetPrice? || k.DrawerMaterial?
      || k.DrawerPower? || k.DrawerPrice? || k.PrintEfficiency? || k.ElecRate?)
  }

  /** Prices, powers, the efficiency, the electricity rate and the material
      names never reach the weights: parameter sets that agree on the weight
      fields read the same build. */
  lemma BuildReadsOnlyWeightFields(p1: Params, p2: Params)
    requires forall k :: IsWeightKey(k) ==> Get(p1, k) == Get(p2, k)
    ensures ReadBuild(p1) == ReadBuild(p2)
  {
    hide Parse;
    assert p1.width == p2.width && p1.depth == p2.depth && p1.height == p2.height by {
      assert Get(p1, Width) == Get(p2, Width) && Get(p1, Depth) == Get(p2, Depth);
      assert Get(p1, Height) == Get(p2, Height);
    }
    assert p1.shelves == p2.shelves && p1.wallThickness == p2.wallThickness && p1.wallLoops == p2.wallLoops by {
      assert Get(p1, Shelves) == Get(p2, Shelves) && Get(p1, WallThickness) == Get(p2, WallThickness);
      assert Get(p1, WallLoops) == Get(p2, WallLoops);
    }
    assert p1.infill == p2.infill && p1.cabinetDensity == p2.cabinetDensity && p1.drawerDensity == p2.drawerDensity by {
      assert Get(p1, Infill) == Get(p2, Infill) && Get(p1, CabinetDensity) == Get(p2, CabinetDensity);
      assert Get(p1, DrawerDensity) == Get(p2, DrawerDensity);
    }
    assert p1.cabinetCompensation == p2.cabinetCompensation && p1.drawerCompensation == p2.drawerCompensation by {
      assert Get(p1, CabinetCompensation) == Get(p2, CabinetCompensation);
      assert Get(p1, DrawerCompensation) == Get(p2, DrawerCompensation);
    }
    hide Get;
  }

  /** With every numeric field gated, every number read is non-negative. */
  lemma GatedFieldsReadNonNegative(p: Params)
    requires NumericFieldsGated(p)
    ensures var b := ReadBuild(p);
      && b.width >= 0.0 && b.depth >= 0.0 && b.height >= 0.0 && b.wallThickness >= 0.0
      && b.shelves >= 0.0 && b.wallLoops >= 0.0 && b.infill >= 0.0
      && b.cabinetDensity >= 0.0 && b.drawerDensity >= 0.0
      && b.cabinetCompensation >= 0.0 && b.drawerCompensation >= 0.0
    ensures var r := ReadRates(p);
      && r.printEfficiency >= 0.0 && r.elecRate >= 0.0 && r.cabinetPower >= 0.0
      && r.drawerPower >= 0.0 && r.cabinetPrice >= 0.0 && r.drawerPrice >= 0.0
  {
    hide Parse, IsNumericEdit;
    GatedFieldReadsNonNegative(p, Width);
    GatedFieldReadsNonNegative(p, Depth);
    GatedFieldReadsNonNegative(p, Height);
    GatedFieldReadsNonNegative(p, Shelves);
    GatedFieldReadsNonNegative(p, WallThickness);
    GatedFieldReadsNonNegative(p, WallLoops);
    GatedFieldReadsNonNegative(p, Infill);
    GatedFieldReadsNonNegative(p, CabinetDensity);
    GatedFieldReadsNonNegative(p, DrawerDensity);
    GatedFieldReadsNonNegative(p, CabinetCompensation);
    GatedFieldReadsNonNegative(p, DrawerCompensation);
    GatedFieldReadsNonNegative(p, PrintEfficiency);
    GatedFieldReadsNonNegative(p, ElecRate);
    GatedFieldReadsNonNegative(p, CabinetPower);
    GatedFieldReadsNonNegative(p, DrawerPower);
    GatedFieldReadsNonNegative(p, CabinetPrice);
    GatedFieldReadsNonNegative(p, DrawerPrice);
  }

  lemma GatedFieldReadsNonNegative(p: Params, k: ParamKey)
    requires NumericFieldsGated(p) && !IsMaterialKey(k)
    ensures Parse(Get(p, k)) >= 0.0
  {
    ParseNumericEdit(Get(p, k));
  }

  // ---------------------------------------------------------------------------
  // Derived drawer fields
  // ---------------------------------------------------------------------------

  /** The clear height per drawer: the cabinet height less the L + 1 wall
      thicknesses, shared among the L shelves. */
  function ClearHeight(H: real, T: real, L: real): real
    requires L > 0.0
  {
    (H - (L + 1.0) * T) / L
  }

  /** The text the height effect stores for a clear height `h` per drawer. */
  function HeightText(h: real): string {
    if h > 0.0 then ToFixed1(h) else "0"
  }

  /** The stored text reads back as `h` rounded to 0.1 mm, or 0 when there is
      no clear height; never negative and never more than 0.05 mm off. */
  lemma HeightTextReadsBack(h: real)
    ensures Parse(HeightText(h)) == (if h > 0.0 then Round1(h) else 0.0)
    ensures Parse(HeightText(h)) >= 0.0
    ensures Max(0.0, h) - 0.05 < Parse(HeightText(h)) <= Max(0.0, h) + 0.05
  {
    if h > 0.0 {
      ParseToFixed1(h);
      Round1Close(h);
    } else {
      ParseWhole("0");
    }
  }

  /** What the height effect stores, or `None` when L <= 0, where the effect
      leaves the height as it was. */
  function DerivedDrawerHeight(p: Params): Option<string> {
    var H := Parse(p.height);
    var T := Parse(p.wallThickness);
    var L := Parse(p.shelves);
    if L > 0.0 then Some(HeightText(ClearHeight(H, T, L))) else None
  }

  /** The derived height reads back as a non-negative number. */
  lemma DerivedDrawerHeightReadsBack(p: Params)
    requires DerivedDrawerHeight(p).Some?
    ensures Parse(DerivedDrawerHeight(p).value) >= 0.0
  {
    var L := Parse(p.shelves);
    HeightTextReadsBack(ClearHeight(Parse(p.height), Parse(p.wallThickness), L));
  }

  /** An edit of any field but the height, the shelves and the wall thickness
      leaves the drawer quantity and the derived height as they were. */
  lemma SetKeepsShape(p: Params, k: ParamKey, v: string)
    ensures k != Width ==> Set(p, k, v).width == p.width
    ensures k != Depth ==> Set(p, k, v).depth == p.depth
    ensures k != Height ==> Set(p, k, v).height == p.height
    ensures k != Shelves ==> Set(p, k, v).shelves == p.shelves
    ensures k != WallThickness ==> Set(p, k, v).wallThickness == p.wallThickness
    ensures k != Height && k != Shelves && k != WallThickness ==>
      DerivedDrawerHeight(Set(p, k, v)) == DerivedDrawerHeight(p)
  {
    var q := Set(p, k, v);
    assert k != Width ==> Get(q, Width) == Get(p, Width);
    assert k != Depth ==> Get(q, Depth) == Get(p, Depth);
    assert k != Height ==> Get(q, Height) == Get(p, Height);
    assert k != Shelves ==> Get(q, Shelves) == Get(p, Shelves);
    assert k != WallThickness ==> Get(q, WallThickness) == Get(p, WallThickness);
  }

  lemma InitialShapeReads()
    ensures Parse("150") == 150.0 && Parse("5") == 5.0 && Parse("2.9") == 2.9
  {
    hide Parse, ParseFloat;
    assert Parse("150") == 150.0 by {
      ParseWhole("150");
      assert DigitsValue("150") == 150;
    }
    assert Parse("5") == 5.0 by {
      ParseWhole("5");
      assert DigitsValue("5") == 5;
    }
    assert Parse("2.9") == 2.9 by {
      assert "2.9" == "2" + "." + "9";
      ParseDecimal("2", "9");
    }
  }

  /** The cabinet of 150 mm with 5 shelves and 2.9 mm walls gets 26.5 mm drawers. */
  lemma InitialDrawerHeight()
    ensures DerivedDrawerHeight(InitialParams) == Some("26.5")
  {
    InitialShapeReads();
    HeightTextExample();
    hide Parse, HeightText;
    assert ClearHeight(150.0, 2.9, 5.0) == 26.52;
  }

  lemma HeightTextExample()
    ensures HeightText(26.52) == "26.5"
  {
    assert MathRound(26.52 * 10.0) == 265;
    assert NatToString(26) == "26" by {
      assert NatToString(2) == "2";
    }
  }

  // ---------------------------------------------------------------------------
  // Weight breakdown
  // ---------------------------------------------------------------------------

  /** The drawer's outer width: the cabinet's inner width less 2 mm clearance. */
  function DrawerWidth(width: real, wallThickness: real): real {
    Max(0.0, width - 2.0 * wallThickness - 2.0)
  }

  /** The drawer's outer depth: the cabinet's inner depth less 1 mm clearance. */
  function DrawerDepth(depth: real, wallThickness: real): real {
    Max(0.0, depth - wallThickness - 1.0)
  }

  /** Cabinet grams after compensation. */
  function CabinetWeight(b: Build): real {
    PanelsWeight(CabinetPanels(b.width, b.depth, b.height, b.wallThickness, b.shelves),
                 b.wallLoops, b.infill, b.cabinetDensity) * b.cabinetCompensation
  }

  /** One drawer: the bottom, front and back as one panel of double thickness,
      and the two sides (inside the front and back) likewise. */
  function SingleDrawerWeight(b: Build, dr: Drawer, dW: real, dD: real): real {
    PanelWeight(dW, dD, dr.thickness, b.wallLoops, b.infill, b.drawerDensity)
    + PanelWeight(dW, dr.height, dr.thickness * 2.0, b.wallLoops, b.infill, b.drawerDensity)
    + PanelWeight(dD - 2.0 * dr.thickness, dr.height, dr.thickness * 2.0, b.wallLoops, b.infill, b.drawerDensity)
  }

  /** All drawers' grams after compensation: one drawer times the quantity
      times the drawer compensation, and 0 unless drawers are on and the
      drawer's width, depth and height are all positive. */
  function DrawersWeight(b: Build, hasDrawers: bool, dr: Drawer): (g: real)
    ensures g != 0.0 ==>
      hasDrawers && DrawerWidth(b.width, b.wallThickness) > 0.0
      && DrawerDepth(b.depth, b.wallThickness) > 0.0 && dr.height > 0.0
  {
    if hasDrawers then
      var dW := DrawerWidth(b.width, b.wallThickness);
      var dD := DrawerDepth(b.depth, b.wallThickness);
      if dW > 0.0 && dD > 0.0 && dr.height > 0.0 then
        SingleDrawerWeight(b, dr, dW, dD) * dr.quantity * b.drawerCompensation
      else 0.0
    else 0.0
  }

  datatype Weights = Weights(cabinet: real, drawers: real, total: real)

  function ComputeWeights(b: Build, hasDrawers: bool, dr: Drawer): (w: Weights)
    ensures w.total == w.cabinet + w.drawers
  {
    var cabinet := CabinetWeight(b);
    var drawers := DrawersWeight(b, hasDrawers, dr);
    Weights(cabinet, drawers, cabinet + drawers)
  }

  /** The breakdown as shown: each figure rounded to whole grams. */
  datatype WeightBreakdown = WeightBreakdown(cabinet: int, drawers: int, total: int)

  function Rounded(w: Weights): (r: WeightBreakdown)
    ensures w.cabinet - 0.5 < r.cabinet as real <= w.cabinet + 0.5
    ensures w.drawers - 0.5 < r.drawers as real <= w.drawers + 0.5
    ensures w.total - 0.5 < r.total as real <= w.total + 0.5
  {
    WeightBreakdown(MathRound(w.cabinet), MathRound(w.drawers), MathRound(w.total))
  }

  /** With non-negative inputs no weight is negative. */
  lemma WeightsNonNegative(b: Build, hasDrawers: bool, dr: Drawer)
    requires b.wallLoops >= 0.0 && b.infill >= 0.0 && b.cabinetDensity >= 0.0 && b.drawerDensity >= 0.0
    requires b.cabinetCompensation >= 0.0 && b.drawerCompensation >= 0.0
    requires dr.quantity >= 0.0
    ensures var w := ComputeWeights(b, hasDrawers, dr);
      w.cabinet >= 0.0 && w.drawers >= 0.0 && w.total >= 0.0
  {
    var raw := PanelsWeight(CabinetPanels(b.width, b.depth, b.height, b.wallThickness, b.shelves),
                            b.wallLoops, b.infill, b.cabinetDensity);
    MulNonNeg(raw, b.cabinetCompensation);
    var dW := DrawerWidth(b.width, b.wallThickness);
    var dD := DrawerDepth(b.depth, b.wallThickness);
    var single := SingleDrawerWeight(b, dr, dW, dD);
    MulNonNeg(single, dr.quantity);
    MulNonNeg(single * dr.quantity, b.drawerCompensation);
  }

  /** Choosing a denser cabinet material never lowers the cabinet weight. */
  lemma CabinetWeightMonotoneInDensity(b: Build, density: real)
    requires b.wallLoops >= 0.0 && b.infill >= 0.0 && b.cabinetCompensation >= 0.0
    requires b.cabinetDensity <= density
    ensures CabinetWeight(b) <= CabinetWeight(b.(cabinetDensity := density))
  {
    hide PanelsWeight, CabinetPanels, PanelWeight;
    var ps := CabinetPanels(b.width, b.depth, b.height, b.wallThickness, b.shelves);
    var b' := b.(cabinetDensity := density);
    var lo := PanelsWeight(ps, b.wallLoops, b.infill, b.cabinetDensity);
    var hi := PanelsWeight(ps, b.wallLoops, b.infill, density);
    PanelsWeightMonotoneInDensity(ps, b.wallLoops, b.infill, b.cabinetDensity, density);
    MulMono(b.cabinetCompensation, lo, hi);
    assert CabinetWeight(b) == lo * b.cabinetCompensation;
    assert CabinetWeight(b') == hi * b.cabinetCompensation;
  }

  // ---------------------------------------------------------------------------
  // Production estimates
  // ---------------------------------------------------------------------------

  datatype Estimates = Estimates(hours: real, kwh: real, elecCost: real, matCost: real, totalCost: real)

  const NoEstimates := Estimates(0.0, 0.0, 0.0, 0.0, 0.0)

  /** Hours at the print efficiency, energy at each assembly's printer power,
      electricity at the rate, material at each price per kg. */
  function ComputeEstimates(r: Rates, hasDrawers: bool, w: Weights): Estimates {
    if r.printEfficiency > 0.0 && w.total > 0.0 then
      var cabHours := w.cabinet / r.printEfficiency;
      var draHours := if hasDrawers then w.drawers / r.printEfficiency else 0.0;
      var totalHours := cabHours + draHours;
      var cabKwh := (cabHours * r.cabinetPower) / 1000.0;
      var draKwh := (draHours * r.drawerPower) / 1000.0;
      var totalKwh := cabKwh + draKwh;
      var elecCost := totalKwh * r.elecRate;
      var cabMatCost := (w.cabinet / 1000.0) * r.cabinetPrice;
      var draMatCost := (w.drawers / 1000.0) * r.drawerPrice;
      var totalMatCost := cabMatCost + draMatCost;
      Estimates(totalHours, totalKwh, elecCost, totalMatCost, elecCost + totalMatCost)
    else NoEstimates
  }

  lemma SharedDenominator(cab: real, dra: real, eff: real, cabPower: real, draPower: real)
    requires eff > 0.0
    ensures cab / eff + dra / eff == (cab + dra) / eff
    ensures (cab / eff * cabPower) / 1000.0 + (dra / eff * draPower) / 1000.0
         == (cab * cabPower + dra * draPower) / (1000.0 * eff)
  {
    assert cab / eff * cabPower == (cab * cabPower) / eff;
    assert dra / eff * draPower == (dra * draPower) / eff;
  }

  /** Every estimate is 0 unless the efficiency and the total weight are
      positive. Then the hours are the total weight over the efficiency (the
      drawers' share is 0 when drawers are off), the energy and the material
      cost are the per-assembly sums, and the total cost is exactly
      electricity plus material. */
  lemma EstimatesOfBreakdown(b: Build, r: Rates, hasDrawers: bool, dr: Drawer)
    ensures var w := ComputeWeights(b, hasDrawers, dr);
      var e := ComputeEstimates(r, hasDrawers, w);
      && (!(r.printEfficiency > 0.0 && w.total > 0.0) ==> e == NoEstimates)
      && (r.printEfficiency > 0.0 && w.total > 0.0 ==>
            && e.hours == w.total / r.printEfficiency
            && e.kwh == (w.cabinet * r.cabinetPower + w.drawers * r.drawerPower) / (1000.0 * r.printEfficiency)
            && e.elecCost == e.kwh * r.elecRate
            && e.matCost == (w.cabinet * r.cabinetPrice + w.drawers * r.drawerPrice) / 1000.0
            && e.totalCost == e.elecCost + e.matCost)
  {
    hide CabinetWeight, DrawersWeight;
    var w := ComputeWeights(b, hasDrawers, dr);
    if r.printEfficiency > 0.0 && w.total > 0.0 {
      SharedDenominator(w.cabinet, w.drawers, r.printEfficiency, r.cabinetPower, r.drawerPower);
      assert (w.cabinet / 1000.0) * r.cabinetPrice + (w.drawers / 1000.0) * r.drawerPrice
          == (w.cabinet * r.cabinetPrice + w.drawers * r.drawerPrice) / 1000.0;
    }
  }

  /** With non-negative weights and rates no estimate is negative. */
  lemma EstimatesNonNegative(r: Rates, hasDrawers: bool, w: Weights)
    requires w.cabinet >= 0.0 && w.drawers >= 0.0
    requires r.cabinetPower >= 0.0 && r.drawerPower >= 0.0 && r.elecRate >= 0.0
    requires r.cabinetPrice >= 0.0 && r.drawerPrice >= 0.0
    ensures var e := ComputeEstimates(r, hasDrawers, w);
      e.hours >= 0.0 && e.kwh >= 0.0 && e.elecCost >= 0.0 && e.matCost >= 0.0 && e.totalCost >= 0.0
  {
    if r.printEfficiency > 0.0 && w.total > 0.0 {
      var eff := r.printEfficiency;
      var cabHours := w.cabinet / eff;
      var draHours := if hasDrawers then w.drawers / eff else 0.0;
      MulNonNeg(cabHours, r.cabinetPower);
      MulNonNeg(draHours, r.drawerPower);
      var kwh := (cabHours * r.cabinetPower) / 1000.0 + (draHours * r.drawerPower) / 1000.0;
      MulNonNeg(kwh, r.elecRate);
      MulNonNeg(w.cabinet / 1000.0, r.cabinetPrice);
      MulNonNeg(w.drawers / 1000.0, r.drawerPrice);
    }
  }

  // ---------------------------------------------------------------------------
  // formatTime
  // ---------------------------------------------------------------------------

  /** The whole hours and the minutes `formatTime` shows: the minutes are the
      rounded fractional hour, from 0 up to and including 60. */
  function TimeParts(hours: real): (parts: (int, nat))
    ensures parts.0 as real <= hours < parts.0 as real + 1.0
    ensures parts.1 <= 60
  {
    var h := hours.Floor;
    var m := MathRound((hours - h as real) * 60.0);
    (h, m)
  }

  /** `formatTime`: "Hh Mm" when there is at least one whole hour, else "Mm". */
  function FormatTime(hours: real): string {
    var (h, m) := TimeParts(hours);
    if h > 0 then NatToString(h) + "h " + NatToString(m) + "m" else NatToString(m) + "m"
  }

  /** Just under an hour is shown as "60m" rather than "1h 0m". */
  lemma FormatTimeShowsSixtyMinutes()
    ensures TimeParts(0.999) == (0, 60)
    ensures FormatTime(0.999) == "60m"
  {
    assert 0.999.Floor == 0;
    assert MathRound(0.999 * 60.0) == 60;
    assert NatToString(60) == "60" by {
      assert NatToString(6) == "6";
    }
  }

  /** The duration rounded to whole minutes, split into hours and minutes
      below 60. */
  function CorrectedTimeParts(hours: real): (parts: (int, nat))
    ensures parts.1 < 60
    ensures parts.0 * 60 + parts.1 == MathRound(hours * 60.0)
  {
    var total := MathRound(hours * 60.0);
    (total / 60, total % 60)
  }

  /** `formatTime` with the minutes carried into the hours. */
  function FormatTimeCorrected(hours: real): string {
    var (h, m) := CorrectedTimeParts(hours);
    if h > 0 then NatToString(h) + "h " + NatToString(m) + "m" else NatToString(m) + "m"
  }

  /** Just under an hour is now shown as one hour. */
  lemma FormatTimeCorrectedCarries()
    ensures FormatTimeCorrected(0.999) == "1h 0m"
  {
    assert MathRound(0.999 * 60.0) == 60;
    assert CorrectedTimeParts(0.999) == (1, 0);
  }

  // ---------------------------------------------------------------------------
  // Material change
  // ---------------------------------------------------------------------------

  datatype Assembly = Cabinet | Drawers

  function MaterialKey(a: Assembly): ParamKey {
    if a == Cabinet then CabinetMaterial else DrawerMaterial
  }

  function DensityKey(a: Assembly): ParamKey {
    if a == Cabinet then CabinetDensity else DrawerDensity
  }

  function PowerKey(a: Assembly): ParamKey {
    if a == Cabinet then CabinetPower else DrawerPower
  }

  /** The parameters after choosing `material` for one assembly: its name, its
      density and its power as text. */
  function WithMaterial(p: Params, a: Assembly, material: string): Params {
    var q := Set(p, MaterialKey(a), material);
    var q' := Set(q, DensityKey(a), NumberToString(PresetDensity(material)));
    Set(q', PowerKey(a), NatToString(PowerForMaterial(material)))
  }

  /** Choosing a material sets that assembly's name, sets its density and power
      fields to text that reads back as the preset density (1.24 for an
      unknown name) and the first-match power, and changes no other field. */
  lemma WithMaterialFields(p: Params, a: Assembly, material: string)
    ensures var q := WithMaterial(p, a, material);
      && Get(q, MaterialKey(a)) == material
      && Parse(Get(q, DensityKey(a))) == PresetDensity(material)
      && Parse(Get(q, PowerKey(a))) == PowerForMaterial(material) as real
      && forall k :: k != MaterialKey(a) && k != DensityKey(a) && k != PowerKey(a) ==> Get(q, k) == Get(p, k)
  {
    hide Parse, NumberToString, NatToString, PresetDensity, PowerForMaterial;
    ParseNumberToString(PresetDensity(material));
    ParseNatToString(PowerForMaterial(material));
  }

  /** A material change leaves the weights' shape inputs, and so the derived
      drawer height, as they were. */
  lemma WithMaterialKeepsShape(p: Params, a: Assembly, material: string)
    ensures var q := WithMaterial(p, a, material);
      && q.width == p.width && q.depth == p.depth && q.height == p.height
      && q.shelves == p.shelves && q.wallThickness == p.wallThickness
      && DerivedDrawerHeight(q) == DerivedDrawerHeight(p)
  {
    var q := Set(p, MaterialKey(a), material);
    var q' := Set(q, DensityKey(a), NumberToString(PresetDensity(material)));
    SetKeepsShape(p, MaterialKey(a), material);
    SetKeepsShape(q, DensityKey(a), NumberToString(PresetDensity(material)));
    SetKeepsShape(q', PowerKey(a), NatToString(PowerForMaterial(material)));
  }

  lemma DigitStringsPassGate(whole: string, fraction: string)
    requires AllDigits(whole) && AllDigits(fraction)
    ensures IsNumericEdit(whole)
    ensures IsNumericEdit(whole + "." + fraction)
  {
    LeadingDigitsOf(whole, []);
    assert whole + [] == whole;
    var s := whole + "." + fraction;
    LeadingDigitsOf(whole, "." + fraction);
    assert s == whole + ("." + fraction);
    assert s[|whole| + 1..] == fraction;
  }

  lemma NumberTextPassesGate(x: real)
    requires x >= 0.0 && HasTwoDecimals(x)
    ensures IsNumericEdit(NumberToString(x))
  {
    var n: nat := (x * 100.0).Floor;
    var whole := NatToString(n / 100);
    var r := n % 100;
    DigitStringsPassGate(whole, if r % 10 == 0 then [DigitChar(r / 10)] else [DigitChar(r / 10), DigitChar(r % 10)]);
  }

  /** The texts a material change writes pass the edit gate. */
  lemma WithMaterialKeepsGate(p: Params, a: Assembly, material: string)
    requires NumericFieldsGated(p)
    ensures NumericFieldsGated(WithMaterial(p, a, material))
  {
    hide IsNumericEdit, NumberToString, NatToString, PresetDensity, PowerForMaterial;
    NumberTextPassesGate(PresetDensity(material));
    DigitStringsPassGate(NatToString(PowerForMaterial(material)), "");
    var q := Set(p, MaterialKey(a), material);
    assert NumericFieldsGated(q);
    var q' := Set(q, DensityKey(a), NumberToString(PresetDensity(material)));
    assert NumericFieldsGated(q');
  }

  /** The power rule on the preset names. */
  lemma PresetPowers()
    ensures PowerForMaterial("PLA Basic/Matte") == 150
    ensures PowerForMaterial("PETG-CF") == 170
    ensures PowerForMaterial("ABS") == 280
    ensures PowerForMaterial("TPU") == 150
  {
    hide Includes;
    IncludesAt("PLA Basic/Matte", "PLA", 0);
    CharAbsent("PETG-CF", "PLA", 1);
    IncludesAt("PETG-CF", "PETG", 0);
    CharAbsent("ABS", "PLA", 0);
    CharAbsent("ABS", "PETG", 0);
    IncludesAt("ABS", "ABS", 0);
    CharAbsent("TPU", "PLA", 1);
    CharAbsent("TPU", "PETG", 1);
    CharAbsent("TPU", "ABS", 0);
    CharAbsent("TPU", "ASA", 0);
  }

  /** A string lacking one of the pattern's characters does not include it. */
  lemma CharAbsent(s: string, sub: string, j: nat)
    requires j < |sub|
    requires forall k :: 0 <= k < |s| ==> s[k] != sub[j]
    ensures !Includes(s, sub)
  {
    IncludesIff(s, sub);
  }

  // ---------------------------------------------------------------------------
  // The settled state
  // ---------------------------------------------------------------------------

  /** The breakdown and estimates are those of the given inputs. */
  predicate Shown(p: Params, hasDrawers: bool, dp: DrawerParams, wb: WeightBreakdown, e: Estimates) {
    var w := ComputeWeights(ReadBuild(p), hasDrawers, ReadDrawer(dp));
    wb == Rounded(w) && e == ComputeEstimates(ReadRates(p), hasDrawers, w)
  }

  /** The drawer fields follow the cabinet: the quantity mirrors the shelves,
      the thickness is fixed, the height reads as a non-negative number and
      equals the derived height whenever the shelves are positive. */
  predicate DrawerFieldsFollow(p: Params, dp: DrawerParams) {
    && dp.quantity == p.shelves
    && dp.thickness == InitialDrawerParams.thickness
    && Parse(dp.height) >= 0.0
    && (DerivedDrawerHeight(p).Some? ==> dp.height == DerivedDrawerHeight(p).value)
  }

  /** The state the component settles into after every event. */
  predicate Settled(p: Params, hasDrawers: bool, dp: DrawerParams, wb: WeightBreakdown, e: Estimates) {
    && NumericFieldsGated(p)
    && DrawerFieldsFollow(p, dp)
    && Shown(p, hasDrawers, dp, wb, e)
  }

  /** The fields whose edit re-derives the drawer height. */
  predicate IsHeightInput(k: ParamKey) {
    k == Height || k == Shelves || k == WallThickness
  }

  /** The drawer fields after an edit of `k` and the effects it triggers. */
  function DrawerFieldsAfterEdit(p: Params, dp: DrawerParams, k: ParamKey): DrawerParams {
    var dq := if k == Shelves then dp.(quantity := p.shelves) else dp;
    if IsHeightInput(k) then
      match DerivedDrawerHeight(p)
      case None => dq
      case Some(h) => dq.(height := h)
    else dq
  }

  /** After an accepted edit, the effects bring the drawer fields back in line
      with the cabinet. */
  lemma EditRestoresDrawerFields(p: Params, dp: DrawerParams, k: ParamKey, v: string)
    requires DrawerFieldsFollow(p, dp)
    ensures DrawerFieldsFollow(Set(p, k, v), DrawerFieldsAfterEdit(Set(p, k, v), dp, k))
  {
    var q := Set(p, k, v);
    SetKeepsShape(p, k, v);
    if DerivedDrawerHeight(q).Some? {
      DerivedDrawerHeightReadsBack(q);
    }
  }

  /** In a settled state the drawers are counted one per shelf, have 2 mm
      walls and, with positive shelves, the derived height. */
  lemma SettledDrawer(p: Params, dp: DrawerParams)
    requires DrawerFieldsFollow(p, dp)
    ensures var dr := ReadDrawer(dp);
      && dr.quantity == ReadBuild(p).shelves
      && dr.thickness == 2.0
      && dr.height >= 0.0
      && (ReadBuild(p).shelves > 0.0 ==> dr.height == Parse(DerivedDrawerHeight(p).value))
  {
    assert "2.0" == "2" + "." + "0";
    ParseDecimal("2", "0");
    hide Parse;
    assert DigitsValue("2") as real + FracValue("0") == 2.0;
  }

  /** In a settled state every figure shown is non-negative. */
  lemma SettledFiguresNonNegative(p: Params, hasDrawers: bool, dp: DrawerParams, wb: WeightBreakdown, e: Estimates)
    requires Settled(p, hasDrawers, dp, wb, e)
    ensures wb.cabinet >= 0 && wb.drawers >= 0 && wb.total >= 0
    ensures e.hours >= 0.0 && e.kwh >= 0.0 && e.elecCost >= 0.0 && e.matCost >= 0.0 && e.totalCost >= 0.0
  {
    GatedFieldsReadNonNegative(p);
    SettledDrawer(p, dp);
    var b := ReadBuild(p);
    var dr := ReadDrawer(dp);
    WeightsNonNegative(b, hasDrawers, dr);
    EstimatesNonNegative(ReadRates(p), hasDrawers, ComputeWeights(b, hasDrawers, dr));
  }

  // ---------------------------------------------------------------------------
  // The component state
  // ---------------------------------------------------------------------------

  class Calculator {
    var params: Params
    var hasDrawers: bool
    var drawerParams: DrawerParams
    var weightBreakdown: WeightBreakdown
    var estimates: Estimates

    predicate Valid()
      reads this
    {
      Settled(params, hasDrawers, drawerParams, weightBreakdown, estimates)
    }

    /** The three parts of the settled state, for proofs that keep the
        definitions folded. */
    lemma ValidMeans()
      ensures Valid() <==> && NumericFieldsGated(params)
                           && DrawerFieldsFollow(params, drawerParams)
                           && Shown(params, hasDrawers, drawerParams, weightBreakdown, estimates)
    {
    }

    /** Mounting: the initial fields, then the three effects once. */
    constructor ()
      ensures Valid()
      ensures params == InitialParams && !hasDrawers
      ensures drawerParams == DrawerParams("5", "2.0", "26.5")
    {
      hide Parse, IsNumericEdit;
      params := InitialParams;
      hasDrawers := false;
      drawerParams := InitialDrawerParams;
      weightBreakdown := WeightBreakdown(0, 0, 0);
      estimates := NoEstimates;
      new;
      SyncDrawerQuantity();
      SyncDrawerHeight();
      InitialParamsGated();
      InitialDrawerHeight();
      DerivedDrawerHeightReadsBack(params);
      Recompute();
    }

    /** `handleChange`: the edit is taken only when the text is empty or
        matches the gate, and then only that field changes. */
    method HandleChange(key: ParamKey, value: string)
      modifies this`params
      ensures params == if value == "" || IsNumericEdit(value) then Set(old(params), key, value) else old(params)
    {
      if value == "" || IsNumericEdit(value) {
        params := Set(params, key, value);
      }
    }

    /** The effect on the shelves: the drawer quantity copies the shelves text. */
    method SyncDrawerQuantity()
      modifies this`drawerParams
      ensures drawerParams == old(drawerParams).(quantity := params.shelves)
    {
      drawerParams := drawerParams.(quantity := params.shelves);
    }

    /** The effect on height, shelves and wall thickness: with positive shelves
        the drawer height is recomputed; otherwise it is left as it was. */
    method SyncDrawerHeight()
      modifies this`drawerParams
      ensures drawerParams == match DerivedDrawerHeight(params)
                              case None => old(drawerParams)
                              case Some(h) => old(drawerParams).(height := h)
    {
      var H := Parse(params.height);
      var T := Parse(params.wallThickness);
      var L := Parse(params.shelves);
      if L > 0.0 {
        var calculatedH := ClearHeight(H, T, L);
        drawerParams := drawerParams.(height := HeightText(calculatedH));
      }
    }

    /** The effect on everything: the breakdown and estimates are recomputed. */
    method Recompute()
      modifies this`weightBreakdown, this`estimates
      ensures Shown(params, hasDrawers, drawerParams, weightBreakdown, estimates)
    {
      hide Parse;
      var w := ComputeWeights(ReadBuild(params), hasDrawers, ReadDrawer(drawerParams));
      weightBreakdown := Rounded(w);
      estimates := ComputeEstimates(ReadRates(params), hasDrawers, w);
    }

    /** Typing into a field: `handleChange`, then the effects whose inputs
        changed. A rejected edit changes nothing at all. */
    method Edit(key: ParamKey, value: string) returns (accepted: bool)
      requires Valid()
      modifies this
      ensures Valid()
      ensures accepted <==> IsNumericEdit(value)
      ensures params == if accepted then Set(old(params), key, value) else old(params)
      ensures hasDrawers == old(hasDrawers)
      ensures accepted ==> drawerParams == DrawerFieldsAfterEdit(params, old(drawerParams), key)
      ensures !accepted ==> drawerParams == old(drawerParams)
                            && weightBreakdown == old(weightBreakdown) && estimates == old(estimates)
    {
      hide *;
      ValidMeans();
      EmptyPassesGate();
      if IsNumericEdit(value) {
        SetKeepsGate(params, key, value);
      }
      accepted := value == "" || IsNumericEdit(value);
      ghost var p0 := params;
      HandleChange(key, value);
      if accepted {
        RunEditEffects(p0, key, value);
      }
    }

    /** The effects of an accepted edit of `key`: the drawer quantity when the
        shelves changed, the drawer height when one of its inputs changed, and
        always the recomputation. */
    method RunEditEffects(ghost p0: Params, key: ParamKey, value: string)
      requires params == Set(p0, key, value) && NumericFieldsGated(params)
      requires DrawerFieldsFollow(p0, drawerParams)
      modifies this`drawerParams, this`weightBreakdown, this`estimates
      ensures Valid()
      ensures drawerParams == DrawerFieldsAfterEdit(params, old(drawerParams), key)
    {
      hide Parse, IsNumericEdit, Shown;
      EditRestoresDrawerFields(p0, drawerParams, key, value);
      if key == Shelves {
        SyncDrawerQuantity();
      }
      if key == Height || key == Shelves || key == WallThickness {
        SyncDrawerHeight();
      }
      Recompute();
      ValidMeans();
    }

    /** `handleMaterialChange`, then the recomputation. */
    method ChangeMaterial(a: Assembly, material: string)
      requires Valid()
      modifies this
      ensures Valid()
      ensures params == WithMaterial(old(params), a, material)
      ensures hasDrawers == old(hasDrawers) && drawerParams == old(drawerParams)
    {
      hide Parse, IsNumericEdit, NumericFieldsGated, Shown, Set;
      hide NumberToString, NatToString, PresetDensity, PowerForMaterial, DerivedDrawerHeight;
      ValidMeans();
      WithMaterialKeepsGate(params, a, material);
      WithMaterialKeepsShape(params, a, material);
      var density := PresetDensity(material);
      var power := PowerForMaterial(material);
      params := Set(Set(Set(params, MaterialKey(a), material), DensityKey(a), NumberToString(density)),
                    PowerKey(a), NatToString(power));
      Recompute();
      ValidMeans();
    }

    /** The drawer switch, then the recomputation. */
    method ToggleDrawers()
      requires Valid()
      modifies this
      ensures Valid()
      ensures hasDrawers == !old(hasDrawers)
      ensures params == old(params) && drawerParams == old(drawerParams)
    {
      hide Parse, IsNumericEdit, NumericFieldsGated, DrawerFieldsFollow, Shown;
      ValidMeans();
      hasDrawers := !hasDrawers;
      Recompute();
      ValidMeans();
    }

    /** The grams a deduct button hands on: the cabinet's always, the drawers'
        only while drawers are on (the button is shown only then). */
    method DeductAmount(a: Assembly) returns (grams: Option<int>)
      requires Valid()
      ensures a == Cabinet ==> grams == Some(weightBreakdown.cabinet)
      ensures a == Drawers ==> grams == if hasDrawers then Some(weightBreakdown.drawers) else None
      ensures grams.Some? ==> grams.value >= 0
    {
      SettledFiguresNonNegative(params, hasDrawers, drawerParams, weightBreakdown, estimates);
      if a == Cabinet {
        grams := Some(weightBreakdown.cabinet);
      } else if hasDrawers {
        grams := Some(weightBreakdown.drawers);
      } else {
        grams := None;
      }
    }
  }
}
