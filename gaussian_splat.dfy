/** The 3D Gaussian-splatting converter: reads positions and colours from a
    parsed PLY element (`read_ply_xyzrgb`) and derives one Gaussian per point
    (`build_3dgs_ply`): spherical-harmonic DC colour, zero higher-order
    coefficients, a shared opacity logit, a shared log-scale, the identity
    rotation and a zero normal, under a fixed list of output fields.
    Arithmetic is over reals; a natural logarithm is kept symbolic as `Ln(arg)`. */
module GaussianSplat {
  import opened PointCloud
  import opened Text

  /** The real spherical-harmonic constant Y_0^0 = 1 / (2 * sqrt(pi)). */
  const C0: real := 0.28209479177387814

  /** Opacity probabilities are clipped into [OPACITY_EPSILON, 1 - OPACITY_EPSILON]. */
  const OPACITY_EPSILON: real := 0.000001

  /** Linear scales are floored at SCALE_FLOOR before the logarithm. */
  const SCALE_FLOOR: real := 0.00000001

  /** `ln(arg)`, kept as its argument. */
  datatype Ln = Ln(arg: real)

  datatype Vec3 = Vec3(x: real, y: real, z: real)

  /** A rotation quaternion, scalar part first. */
  datatype Quat = Quat(w: real, x: real, y: real, z: real)

  /** Per-axis log-scales. */
  datatype LnVec3 = LnVec3(x: Ln, y: Ln, z: Ln)

  /** The initial Gaussian size: one value for every axis, or one per axis. */
  datatype GaussScale = Isotropic(s: real) | PerAxis(sx: real, sy: real, sz: real)

  /** The converter's settings: INIT_GAUSS_SCALE, INIT_OPACITY, SH_DEGREE, DEFAULT_COLOR. */
  datatype Config = Config(initScale: GaussScale, initOpacity: real, shDegree: nat, defaultColor: Vec3)

  const DEFAULT_CONFIG: Config := Config(Isotropic(0.01), 0.8, 0, Vec3(255.0, 255.0, 255.0))

  /** `np.clip(x, lo, hi)`. */
  function Clip(x: real, lo: real, hi: real): (r: real)
    requires lo <= hi
    ensures lo <= r <= hi
    ensures lo <= x <= hi ==> r == x
    ensures x < lo ==> r == lo
    ensures hi < x ==> r == hi
  {
    if x < lo then lo else if hi < x then hi else x
  }

  /** A 0..255 colour value scaled into [0, 1]; values outside 0..255 are clipped. */
  function NormalizeColor(c255: real): (c: real)
    ensures 0.0 <= c <= 1.0
    ensures 0.0 <= c255 <= 255.0 ==> c * 255.0 == c255
    ensures c255 < 0.0 ==> c == 0.0
    ensures 255.0 < c255 ==> c == 1.0
  {
    Clip(c255 / 255.0, 0.0, 1.0)
  }

  /** The renderer's map from a DC coefficient back to a colour. */
  function ShDcToRgb(dc: real): real
  {
    0.5 + C0 * dc
  }

  /** `rgb_to_sh_dc`: the DC coefficient whose colour is `c`. */
  function RgbToShDc(c: real): (dc: real)
    ensures ShDcToRgb(dc) == c
  {
    (c - 0.5) / C0
  }

  /** The other direction: every DC coefficient is the image of its colour. */
  lemma ShDcOfRgb(dc: real)
    ensures RgbToShDc(ShDcToRgb(dc)) == dc
  {
  }

  /** A normalised colour gives a DC coefficient within +-0.5 / C0. */
  lemma ShDcBounds(c: real)
    requires 0.0 <= c <= 1.0
    ensures -0.5 / C0 <= RgbToShDc(c) <= 0.5 / C0
  {
  }

  /** The clip inside `logit`. */
  function ClipOpacity(p: real): (q: real)
    ensures OPACITY_EPSILON <= q <= 1.0 - OPACITY_EPSILON
    ensures OPACITY_EPSILON <= p <= 1.0 - OPACITY_EPSILON ==> q == p
    ensures p < OPACITY_EPSILON ==> q == OPACITY_EPSILON
    ensures 1.0 - OPACITY_EPSILON < p ==> q == 1.0 - OPACITY_EPSILON
  {
    Clip(p, OPACITY_EPSILON, 1.0 - OPACITY_EPSILON)
  }

  /** 1 / (1 + exp(-ln a)), which is a / (1 + a). */
  function Sigmoid(l: Ln): (p: real)
    requires 0.0 < l.arg
    ensures 0.0 < p < 1.0
  {
    l.arg / (1.0 + l.arg)
  }

  /** `logit`: the log of the odds of the clipped probability. The odds are
      positive, so the log is finite, and the sigmoid gives the clipped
      probability back. */
  function Logit(p: real): (l: Ln)
    ensures 0.0 < l.arg
    ensures Sigmoid(l) == ClipOpacity(p)
  {
    var q := ClipOpacity(p);
    var d := 1.0 - q;
    var odds := q / d;
    assert 1.0 + odds == 1.0 / d by {
      assert odds * d == q;
      assert (1.0 + odds) * d == 1.0;
    }
    assert odds / (1.0 + odds) == q by {
      assert odds / (1.0 + odds) == (q / d) * d;
    }
    Ln(odds)
  }

  /** The configured scale on each of the three axes. */
  function ScaleAxes(scale: GaussScale): Vec3
  {
    match scale
    case Isotropic(s) => Vec3(s, s, s)
    case PerAxis(sx, sy, sz) => Vec3(sx, sy, sz)
  }

  /** `np.maximum(s, 1e-8)`. */
  function FloorScale(s: real): (f: real)
    ensures SCALE_FLOOR <= f && s <= f
    ensures SCALE_FLOOR <= s ==> f == s
    ensures s < SCALE_FLOOR ==> f == SCALE_FLOOR
  {
    if s < SCALE_FLOOR then SCALE_FLOOR else s
  }

  /** The log-scales every Gaussian gets: each axis is floored first, so every
      logarithm is of a positive number; a scalar scale gives three equal axes. */
  function LogScales(scale: GaussScale): (l: LnVec3)
    ensures SCALE_FLOOR <= l.x.arg && SCALE_FLOOR <= l.y.arg && SCALE_FLOOR <= l.z.arg
    ensures l.x.arg == FloorScale(ScaleAxes(scale).x)
    ensures l.y.arg == FloorScale(ScaleAxes(scale).y)
    ensures l.z.arg == FloorScale(ScaleAxes(scale).z)
    ensures scale.Isotropic? ==> l.x == l.y == l.z
  {
    var axes := ScaleAxes(scale);
    LnVec3(Ln(FloorScale(axes.x)), Ln(FloorScale(axes.y)), Ln(FloorScale(axes.z)))
  }

  /** Higher-order coefficients for SH degree D: (D + 1)^2 - 1 per colour channel. */
  function RestCount(degree: nat): (k: nat)
    ensures k == 3 * degree * (degree + 2)
    ensures k % 3 == 0
    ensures k == 0 <==> degree == 0
  {
    3 * ((degree + 1) * (degree + 1) - 1)
  }

  const LEADING_FIELDS: seq<string> :=
    ["x", "y", "z", "nx", "ny", "nz", "f_dc_0", "f_dc_1", "f_dc_2"]

  const TRAILING_FIELDS: seq<string> :=
    ["opacity", "scale_0", "scale_1", "scale_2", "rot_0", "rot_1", "rot_2", "rot_3"]

  function RestField(i: nat): string
  {
    "f_rest_" + NatToString(i)
  }

  /** A higher-order field's name is `f_rest_` followed by the decimal digits
      of its index, and the index reads back from the name. */
  lemma RestFieldIndex(i: nat)
    ensures var name := RestField(i);
      && 8 <= |name| && name[..7] == "f_rest_"
      && (forall k :: 7 <= k < |name| ==> IsDigit(name[k]))
      && NatFromString(name[7..]) == i
  {
    var name := RestField(i);
    assert name[7..] == NatToString(i);
    NatStringRoundTrip(i);
  }

  /** The names `f_rest_0` .. `f_rest_{rest-1}`. */
  function RestFields(rest: nat): (names: seq<string>)
    ensures |names| == rest
    ensures forall i :: 0 <= i < rest ==> names[i] == RestField(i)
  {
    seq(rest, i requires 0 <= i => RestField(i))
  }

  /** The output vertex properties in wire order. */
  function FieldNames(rest: nat): (names: seq<string>)
    ensures |names| == |LEADING_FIELDS| + rest + |TRAILING_FIELDS| == 17 + rest
  {
    LEADING_FIELDS + RestFields(rest) + TRAILING_FIELDS
  }

  /** The `dtype_list` assembly: the leading fields, one `f_rest_i` appended per
      coefficient, then the trailing fields. */
  method BuildFieldNames(rest: nat) returns (names: seq<string>)
    ensures names == FieldNames(rest)
  {
    names := LEADING_FIELDS;
    for i := 0 to rest
      invariant names == LEADING_FIELDS + RestFields(i)
    {
      names := names + [RestField(i)];
    }
    names := names + TRAILING_FIELDS;
  }

  /** Every fixed field name is at most 7 characters long. */
  lemma FixedFieldsShort(name: string)
    requires name in LEADING_FIELDS + TRAILING_FIELDS
    ensures |name| <= 7
  {
  }

  /** No two output properties share a name, so the structured record type is
      well defined and every property is addressed by its name alone. */
  lemma FieldNamesDistinct(rest: nat)
    ensures forall j, k :: 0 <= j < k < |FieldNames(rest)| ==> FieldNames(rest)[j] != FieldNames(rest)[k]
  {
    var names := FieldNames(rest);
    var fixed := LEADING_FIELDS + TRAILING_FIELDS;
    assert forall j, k :: 0 <= j < k < |fixed| ==> fixed[j] != fixed[k];
    forall j, k | 0 <= j < k < |names|
      ensures names[j] != names[k]
    {
      var isRestJ := 9 <= j < 9 + rest;
      var isRestK := 9 <= k < 9 + rest;
      if isRestJ && isRestK {
        var a, b := NatToString(j - 9), NatToString(k - 9);
        if names[j] == names[k] {
          assert names[j] == "f_rest_" + a && names[k] == "f_rest_" + b;
          assert a == names[j][7..] && b == names[k][7..];
          NatToStringInjective(j - 9, k - 9);
        }
      } else if isRestJ {
        var other := TRAILING_FIELDS[k - 9 - rest];
        assert names[k] == other;
        FixedFieldsShort(other);
        assert |names[j]| >= 8;
      } else if isRestK {
        var other := LEADING_FIELDS[j];
        assert names[j] == other;
        FixedFieldsShort(other);
        assert |names[k]| >= 8;
      } else {
        var fj := if j < 9 then j else j - rest;
        var fk := if k < 9 then k else k - rest;
        assert names[j] == fixed[fj] && names[k] == fixed[fk];
      }
    }
  }

  /** One Gaussian of the output, fields grouped as the output properties are. */
  datatype Splat = Splat(pos: Vec3, normal: Vec3, fDc: Vec3, fRest: seq<real>,
                         opacity: Ln, scale: LnVec3, rot: Quat)

  const IDENTITY: Quat := Quat(1.0, 0.0, 0.0, 0.0)
  const ZERO: Vec3 := Vec3(0.0, 0.0, 0.0)

  /** The Gaussian derived from one point, as a reference for `Build3dgs`. */
  function SplatOf(p: Vec3, c255: Vec3, cfg: Config): (s: Splat)
    ensures s.pos == p && s.normal == ZERO && s.rot == IDENTITY
    ensures |s.fRest| == RestCount(cfg.shDegree)
    ensures forall j :: 0 <= j < |s.fRest| ==> s.fRest[j] == 0.0
    ensures ShDcToRgb(s.fDc.x) == NormalizeColor(c255.x)
    ensures ShDcToRgb(s.fDc.y) == NormalizeColor(c255.y)
    ensures ShDcToRgb(s.fDc.z) == NormalizeColor(c255.z)
    ensures 0.0 < s.opacity.arg && Sigmoid(s.opacity) == ClipOpacity(cfg.initOpacity)
    ensures s.scale == LogScales(cfg.initScale)
  {
    var fDc := Vec3(RgbToShDc(NormalizeColor(c255.x)), RgbToShDc(NormalizeColor(c255.y)),
                    RgbToShDc(NormalizeColor(c255.z)));
    Splat(p, ZERO, fDc, seq(RestCount(cfg.shDegree), _ => 0.0), Logit(cfg.initOpacity),
          LogScales(cfg.initScale), IDENTITY)
  }

  /** `build_3dgs_ply`: the output property names and one Gaussian per input
      point, in input order. Opacity, scale, rotation, normal and the zero
      higher-order coefficients are computed once and shared by every row. */
  method Build3dgs(xyz: seq<Vec3>, rgb: seq<Vec3>, cfg: Config) returns (names: seq<string>, out: seq<Splat>)
    requires |xyz| == |rgb|
    ensures names == FieldNames(RestCount(cfg.shDegree))
    ensures |out| == |xyz|
    ensures forall i :: 0 <= i < |out| ==> out[i] == SplatOf(xyz[i], rgb[i], cfg)
    ensures forall i :: 0 <= i < |out| ==>
      && out[i].opacity == Logit(cfg.initOpacity)
      && out[i].scale == LogScales(cfg.initScale)
      && out[i].rot == IDENTITY && out[i].normal == ZERO
  {
    var n := |xyz|;
    var restCount := RestCount(cfg.shDegree);
    var fRest := seq(restCount, _ => 0.0);
    var opacity := Logit(cfg.initOpacity);
    var scales := LogScales(cfg.initScale);
    var rots := IDENTITY;
    var normals := ZERO;
    names := BuildFieldNames(restCount);
    out := [];
    for i := 0 to n
      invariant |out| == i
      invariant forall j :: 0 <= j < i ==> out[j] == SplatOf(xyz[j], rgb[j], cfg)
    {
      var c := rgb[i];
      var fDc := Vec3(RgbToShDc(NormalizeColor(c.x)), RgbToShDc(NormalizeColor(c.y)),
                      RgbToShDc(NormalizeColor(c.z)));
      out := out + [Splat(xyz[i], normals, fDc, fRest, opacity, scales, rots)];
    }
  }

  /** The colour-name groups `read_ply_xyzrgb` accepts, in priority order. */
  const COLOR_GROUPS: seq<seq<string>> := [
    ["red", "green", "blue"],
    ["r", "g", "b"],
    ["diffuse_red", "diffuse_green", "diffuse_blue"]
  ]

  /** The candidate loop with `break`: the first group whose three names are
      all present, if any. */
  method SelectColorGroup(names: set<string>) returns (group: Option<seq<string>>)
    ensures var k := FirstCompleteGroup(names, COLOR_GROUPS);
      group == if k < |COLOR_GROUPS| then Some(COLOR_GROUPS[k]) else None
  {
    group := None;
    var k := 0;
    while k < |COLOR_GROUPS|
      invariant 0 <= k <= |COLOR_GROUPS|
      invariant forall j :: 0 <= j < k ==> !Complete(names, COLOR_GROUPS[j])
    {
      if Complete(names, COLOR_GROUPS[k]) {
        group := Some(COLOR_GROUPS[k]);
        break;
      }
      k := k + 1;
    }
  }

  /** Row `i`'s colour on the 0..255 scale: from the chosen group, or the default. */
  function PointColor(v: Vertex, group: Option<seq<string>>, defaultColor: Vec3, i: nat): Vec3
    requires Valid(v) && i < v.count
    requires group.Some? ==> |group.value| == 3 && Complete(Names(v), group.value)
  {
    match group
    case Some(g) =>
      assert g[0] in v.columns && g[1] in v.columns && g[2] in v.columns;
      Vec3(v.columns[g[0]][i], v.columns[g[1]][i], v.columns[g[2]][i])
    case None => defaultColor
  }

  /** The group `read_ply_xyzrgb` reads colours from, by the reference priority. */
  function ChosenGroup(names: set<string>): (group: Option<seq<string>>)
    ensures group.Some? ==> |group.value| == 3 && Complete(names, group.value)
  {
    var k := FirstCompleteGroup(names, COLOR_GROUPS);
    if k < |COLOR_GROUPS| then Some(COLOR_GROUPS[k]) else None
  }

  datatype ReadError = MissingProperty(name: string)

  /** `read_ply_xyzrgb` on an already-parsed element: positions row by row, and
      colours from the first complete colour group or the default colour. A
      missing position property fails the lookup. */
  method ReadXyzRgb(v: Vertex, defaultColor: Vec3) returns (res: Result<(seq<Vec3>, seq<Vec3>), ReadError>)
    requires Valid(v)
    ensures res.Err? <==> !("x" in Names(v) && "y" in Names(v) && "z" in Names(v))
    ensures res.Err? ==> MissingKey(Names(v), POSITION_KEYS).Some?
                         && res.error == MissingProperty(MissingKey(Names(v), POSITION_KEYS).value)
    ensures res.Ok? ==>
      var (xyz, rgb) := res.value;
      && |xyz| == v.count && |rgb| == v.count
      && (forall i :: 0 <= i < v.count ==>
            xyz[i] == Vec3(v.columns["x"][i], v.columns["y"][i], v.columns["z"][i]))
      && (forall i :: 0 <= i < v.count ==>
            rgb[i] == PointColor(v, ChosenGroup(Names(v)), defaultColor, i))
  {
    PositionKeysPresent(Names(v));
    var missing := MissingKey(Names(v), POSITION_KEYS);
    if missing.Some? {
      return Err(MissingProperty(missing.value));
    }
    var xs, ys, zs := v.columns["x"], v.columns["y"], v.columns["z"];
    var xyz := seq(v.count, i requires 0 <= i < v.count => Vec3(xs[i], ys[i], zs[i]));
    var group := SelectColorGroup(Names(v));
    var rgb;
    if group.None? {
      rgb := seq(v.count, _ => defaultColor);
    } else {
      var g := group.value;
      assert g[0] in v.columns && g[1] in v.columns && g[2] in v.columns;
      var rs, gs, bs := v.columns[g[0]], v.columns[g[1]], v.columns[g[2]];
      rgb := seq(v.count, i requires 0 <= i < v.count => Vec3(rs[i], gs[i], bs[i]));
    }
    return Ok((xyz, rgb));
  }

  /** The converter's own settings: degree 0 leaves no higher-order
      coefficients, the scale 0.01 is kept on every axis, and the opacity 0.8
      is stored as ln(4), whose sigmoid is 0.8 again. */
  lemma DefaultSettings()
    ensures RestCount(DEFAULT_CONFIG.shDegree) == 0
    ensures FieldNames(0) == LEADING_FIELDS + TRAILING_FIELDS
    ensures LogScales(DEFAULT_CONFIG.initScale) == LnVec3(Ln(0.01), Ln(0.01), Ln(0.01))
    ensures Logit(DEFAULT_CONFIG.initOpacity) == Ln(4.0)
    ensures Sigmoid(Logit(DEFAULT_CONFIG.initOpacity)) == 0.8
  {
    assert RestFields(0) == [];
  }
}
