/** The physics of one quadrupole, evaluated at one frequency: the field
    normalisation `Cuadripolo.__init__` applies per element type, the
    coefficient matrix `coeficientes` derives, and the transmission loss
    `obtencion_tl` builds from a matrix and the port areas.

    The source keeps every frequency-dependent quantity as a symbolic
    expression in `f`; here each is its value at the model frequency `env.f`,
    and sin, cos, tan, log and abs are left uninterpreted: they are whatever
    functions `env` carries. */
module Elements {

  import opened Wrappers
  import opened Matrices

  /** numpy's `np.pi`; only its being non-zero is used. */
  const Pi: real := 3.141592653589793

  /** The empirical end-correction coefficient of a Helmholtz neck. */
  const EndCorrection: real := 0.82

  /** Default speed of sound [m/s] and air density [kg/m^3]. */
  const DefaultC: real := 345.0
  const DefaultRho: real := 1.225

  // The element types the source recognises in `tipo`.
  const Camara: string := "camara"
  const TuboRecto: string := "tubo_recto"
  const Helmholtz: string := "helmholtz"
  const ExtensionExpansion: string := "extension_expansion"
  const ZIn: string := "Z_in"
  /** The type of a quadrupole that is a cascade of others. */
  const Complejo: string := "complejo"

  /** The evaluation point: the frequency, the transcendental functions of the
      symbolic engine, and `nonFinite`, an opaque value standing for the
      non-finite result (zoo, nan) the engine produces when a symbolic
      expression is divided by zero. */
  datatype Env = Env(f: real, sin: real -> real, cos: real -> real, tan: real -> real,
                     log: real -> real, abs: real -> real, nonFinite: real)
  {
    /** A quotient in which an operand depends on `f`: the engine never raises
        on it, whatever the divisor. */
    function Quot(x: real, y: real): (q: real)
      ensures y != 0.0 ==> q * y == x
      ensures y == 0.0 ==> q == nonFinite
    {
      if y == 0.0 then nonFinite else x / y
    }
  }

  /** The fields of a `Cuadripolo` that describe the element (all but the
      matrix and the transmission loss). `None` is Python's `None`. */
  datatype Element = Element(
    tipo: string,
    s: Option<real>,       // interior section
    largo: Option<real>,   // length (of the neck, for a Helmholtz resonator)
    s1: Option<real>,      // inlet section
    s2: Option<real>,      // outlet section
    c: real,               // speed of sound
    rhoO: real,            // density
    vol: Option<real>,     // resonator volume
    zO: real,              // characteristic impedance
    zIn: Option<real>)     // input impedance

  // ---------------------------------------------------------------------------
  // Construction (`__init__`)

  /** The neck length of a Helmholtz resonator after the end correction. */
  function HelmholtzLargo(s: real, largo: real): real {
    largo + (s / Pi) * (s / Pi) * EndCorrection
  }

  /** The input impedance of a Helmholtz resonator with corrected neck length
      `largo`: `rho * (largo*2*pi*f / s - c^2 / (vol*2*pi*f))`. */
  function HelmholtzImpedance(rhoO: real, c: real, s: real, largo: real, vol: real, env: Env): real {
    rhoO * (env.Quot(largo * 2.0 * Pi * env.f, s) - env.Quot(c * c, vol * 2.0 * Pi * env.f))
  }

  /** A Helmholtz resonator needs its section, neck length and volume: without
      them the constructor raises and no object exists. */
  predicate SetupFails(tipo: string, s: Option<real>, largo: Option<real>, vol: Option<real>) {
    tipo == Helmholtz && (s.None? || largo.None? || vol.None?)
  }

  /** The fields `__init__` leaves, given its arguments (with its defaults);
      None when it raises. */
  function Setup(env: Env, s: Option<real> := None, largo: Option<real> := None,
                 s1: Option<real> := None, s2: Option<real> := None,
                 c: real := DefaultC, rhoO: real := DefaultRho, tipo: string := Complejo,
                 vol: Option<real> := None, zIn: Option<real> := None): (r: Option<Element>)
    ensures r.None? <==> SetupFails(tipo, s, largo, vol)
    ensures r.Some? ==> var e := r.value;
      && e.tipo == tipo && e.s == s && e.c == c && e.rhoO == rhoO && e.vol == vol
      && e.zO == rhoO * c
    // a straight duct has one section throughout
    ensures r.Some? && tipo == TuboRecto ==> r.value.s1 == s && r.value.s2 == s
    // a resonator's inlet is its neck, it has no outlet, and its neck is corrected
    ensures r.Some? && tipo == Helmholtz ==> var e := r.value;
      && e.s1 == s && e.s2 == None
      && e.largo == Some(largo.value + (s.value / Pi) * (s.value / Pi) * EndCorrection)
      && e.zIn == Some(HelmholtzImpedance(rhoO, c, s.value, e.largo.value, vol.value, env))
    // every other type keeps what it was given
    ensures r.Some? && tipo != Helmholtz ==> r.value.largo == largo && r.value.zIn == zIn
    ensures r.Some? && tipo != Helmholtz && tipo != TuboRecto ==> r.value.s1 == s1 && r.value.s2 == s2
  {
    if SetupFails(tipo, s, largo, vol) then None
    else if tipo == Helmholtz then
      var l := HelmholtzLargo(s.value, largo.value);
      assert l == largo.value + (s.value / Pi) * (s.value / Pi) * EndCorrection;
      Some(Element(tipo, s, Some(l), s, None, c, rhoO, vol, rhoO * c,
                   Some(HelmholtzImpedance(rhoO, c, s.value, l, vol.value, env))))
    else if tipo == TuboRecto then
      Some(Element(tipo, s, largo, s, s, c, rhoO, vol, rhoO * c, zIn))
    else
      Some(Element(tipo, s, largo, s1, s2, c, rhoO, vol, rhoO * c, zIn))
  }

  /** `Cuadripolo()`: a bare container, of type `complejo`, with no geometry. */
  lemma DefaultSetup(env: Env)
    ensures Setup(env) == Some(Element(Complejo, None, None, None, None, 345.0, 1.225, None, 422.625, None))
  {
  }

  // ---------------------------------------------------------------------------
  // Coefficients (`coeficientes`). Each derivation returns None when the source
  // raises before assigning `cuadri`, which it does only after computing all
  // four entries.

  /** `k = 2*pi*f / c`. */
  function Wavenumber(e: Element, env: Env): real {
    env.Quot(2.0 * Pi * env.f, e.c)
  }

  /** `k * largo`, the argument of the duct's trigonometric functions. */
  function Phase(e: Element, env: Env): real
    requires e.largo.Some?
  {
    Wavenumber(e, env) * e.largo.value
  }

  /** The matrix of a straight duct or an expansion chamber. It raises when the
      length or section is undefined, or when `Z_o/s` or `s/Z_o` divides by zero. */
  function DuctCoefficients(e: Element, env: Env): (r: Option<Matrix>)
    ensures r.Some? <==> e.largo.Some? && e.s.Some? && e.s.value != 0.0 && e.zO != 0.0
  {
    if e.largo.None? || e.s.None? || e.s.value == 0.0 || e.zO == 0.0 then None
    else
      var kl := Phase(e, env);
      Some(Matrix(env.cos(kl), (e.zO / e.s.value) * env.sin(kl),
                  (e.s.value / e.zO) * env.sin(kl), env.cos(kl)))
  }

  /** Scaling by an impedance ratio and back is the identity. */
  lemma CancelRatio(z: real, s: real, x: real)
    requires z != 0.0 && s != 0.0
    ensures (z / s) * x * s / z == x
  {
    calc {
      (z / s) * x * s / z;
      ((z / s) * s) * x / z;
      { assert (z / s) * s == z; }
      z * x / z;
      x;
    }
  }

  /** The product of two reciprocal ratios, each scaling `x`. */
  lemma RatioProduct(z: real, s: real, x: real)
    requires z != 0.0 && s != 0.0
    ensures ((z / s) * x) * ((s / z) * x) == x * x
  {
    calc {
      ((z / s) * x) * ((s / z) * x);
      ((z / s) * (s / z)) * (x * x);
      { assert (z / s) * (s / z) == 1.0; }
      x * x;
    }
  }

  /** The duct matrix has `A == D`, and its off-diagonal entries scaled by the
      impedance ratio are both `sin(k*largo)`. */
  lemma DuctShape(e: Element, env: Env)
    requires DuctCoefficients(e, env).Some?
    ensures var m, s, kl := DuctCoefficients(e, env).value, e.s.value, Phase(e, env);
      && m.a == m.d == env.cos(kl)
      && m.b * s / e.zO == env.sin(kl)
      && m.c * e.zO / s == env.sin(kl)
  {
    var m, s, z, kl := DuctCoefficients(e, env).value, e.s.value, e.zO, Phase(e, env);
    assert m.b == (z / s) * env.sin(kl) && m.c == (s / z) * env.sin(kl);
    CancelRatio(z, s, env.sin(kl));
    CancelRatio(s, z, env.sin(kl));
  }

  /** There is no reciprocity for the duct as written: with real entries its
      determinant is `cos^2 - sin^2` of `k*largo`, not 1. */
  lemma DuctDet(e: Element, env: Env)
    requires DuctCoefficients(e, env).Some?
    ensures var kl := Phase(e, env);
      Det(DuctCoefficients(e, env).value) == env.cos(kl) * env.cos(kl) - env.sin(kl) * env.sin(kl)
  {
    var m, s, z, kl := DuctCoefficients(e, env).value, e.s.value, e.zO, Phase(e, env);
    assert m.b == (z / s) * env.sin(kl) && m.c == (s / z) * env.sin(kl);
    RatioProduct(z, s, env.sin(kl));
  }

  /** The matrix of a branch with input impedance `Z_in`: a given impedance or a
      Helmholtz resonator. It raises when `s` or `Z_in` is undefined; for a
      resonator the unused `k = rho*c^2*s^2 / vol` is computed first, which
      raises when `s` or `vol` is undefined or `vol` is zero. */
  function ShuntCoefficients(e: Element, env: Env): (r: Option<Matrix>)
    ensures r.Some? <==> e.s.Some? && e.zIn.Some?
                         && (e.tipo == Helmholtz ==> e.vol.Some? && e.vol.value != 0.0)
    ensures r.Some? ==> r.value == Shunt(env.Quot(e.s.value, e.zIn.value))
  {
    if e.tipo == Helmholtz && (e.s.None? || e.vol.None? || e.vol.value == 0.0) then None
    else if e.s.None? || e.zIn.None? then None
    else Some(Shunt(env.Quot(e.s.value, e.zIn.value)))
  }

  /** The matrix of an extension duct: a branch whose admittance is
      `((tan(k*largo))^-1 * Z_o / (s1 - s))^-1`. It raises only when the length
      or a section is undefined. */
  function ExtensionCoefficients(e: Element, env: Env): (r: Option<Matrix>)
    ensures r.Some? <==> e.largo.Some? && e.s1.Some? && e.s.Some?
    ensures r.Some? ==> r.value.a == 1.0 && r.value.b == 0.0 && r.value.d == 1.0
    // where every quotient is finite, the admittance is `(s1 - s) * tan(k*largo) / Z_o`
    ensures r.Some? && env.tan(Phase(e, env)) != 0.0 && e.zO != 0.0 && e.s1.value != e.s.value ==>
      r.value.c * e.zO == (e.s1.value - e.s.value) * env.tan(Phase(e, env))
  {
    if e.largo.None? || e.s1.None? || e.s.None? then None
    else
      var kl := Phase(e, env);
      var cot := env.Quot(1.0, env.tan(kl));
      Some(Shunt(env.Quot(1.0, env.Quot(cot * e.zO, e.s1.value - e.s.value))))
  }

  /** The types that get a matrix of the form `[[1, 0], [C, 1]]`. */
  predicate IsShuntType(tipo: string) {
    tipo == ZIn || tipo == Helmholtz || tipo == ExtensionExpansion
  }

  predicate IsDuctType(tipo: string) {
    tipo == Camara || tipo == TuboRecto
  }

  /** The matrix `coeficientes` assigns, or None when it leaves `cuadri` as it
      was: for a composite, for a type it does not know, and when a derivation
      raises. */
  function Coefficients(e: Element, env: Env): (r: Option<Matrix>)
    ensures !IsDuctType(e.tipo) && !IsShuntType(e.tipo) ==> r.None?
    ensures e.tipo == Complejo ==> r.None?
    ensures IsDuctType(e.tipo) ==> r == DuctCoefficients(e, env)
    ensures e.tipo == ZIn || e.tipo == Helmholtz ==> r == ShuntCoefficients(e, env)
    ensures e.tipo == ExtensionExpansion ==> r == ExtensionCoefficients(e, env)
    // every branch element is reciprocal, whatever its admittance
    ensures r.Some? && IsShuntType(e.tipo) ==>
      r.value.a == 1.0 && r.value.b == 0.0 && r.value.d == 1.0 && Det(r.value) == 1.0
    ensures r.Some? && IsDuctType(e.tipo) ==> r.value.a == r.value.d
  {
    if IsDuctType(e.tipo) then DuctCoefficients(e, env)
    else if e.tipo == ZIn || e.tipo == Helmholtz then ShuntCoefficients(e, env)
    else if e.tipo == ExtensionExpansion then ExtensionCoefficients(e, env)
    else None
  }

  /** A resonator that was built succeeds in deriving its matrix exactly when
      its volume is non-zero. */
  lemma HelmholtzCoefficients(env: Env, s: real, largo: real, s1: Option<real>, s2: Option<real>,
                              c: real, rhoO: real, vol: real, zIn: Option<real>)
    ensures var e := Setup(env, Some(s), Some(largo), s1, s2, c, rhoO, Helmholtz, Some(vol), zIn).value;
      Coefficients(e, env).Some? <==> vol != 0.0
  {
  }

  // ---------------------------------------------------------------------------
  // Transmission loss (`obtencion_tl`). sympy's `log` is the natural logarithm.
  // The divisors here are plain numbers: a zero one raises.

  /** Python truthiness of an optional section: defined and non-zero. */
  predicate Truthy(x: Option<real>) {
    x.Some? && x.value != 0.0
  }

  /** `A + Z_o*C/s2 + B*s1/Z_o + D*s1/s2`. */
  function TwoAreaBracket(m: Matrix, zO: real, s1: real, s2: real): real
    requires s2 != 0.0 && zO != 0.0
  {
    m.a + zO * m.c / s2 + m.b * s1 / zO + m.d * s1 / s2
  }

  /** `A + Z_o*C/s1 + B*s1/Z_o + D`. */
  function SingleAreaBracket(m: Matrix, zO: real, s1: real): real
    requires s1 != 0.0 && zO != 0.0
  {
    m.a + zO * m.c / s1 + m.b * s1 / zO + m.d
  }

  /** The TL between an inlet `s1` and a different outlet `s2`:
      `20*log|0.5*(A + Z_o*C/s2 + B*s1/Z_o + D*s1/s2)| + 10*log(s1/s2)`. */
  function TwoAreaTl(m: Matrix, zO: real, s1: real, s2: real, env: Env): real
    requires s2 != 0.0 && zO != 0.0
  {
    20.0 * env.log(env.abs(0.5 * TwoAreaBracket(m, zO, s1, s2))) + 10.0 * env.log(s1 / s2)
  }

  /** The TL with one section `s1` on both sides:
      `20*log|0.5*(A + Z_o*C/s1 + B*s1/Z_o + D)|`. */
  function SingleAreaTl(m: Matrix, zO: real, s1: real, env: Env): real
    requires s1 != 0.0 && zO != 0.0
  {
    20.0 * env.log(env.abs(0.5 * SingleAreaBracket(m, zO, s1)))
  }

  /** The TL of the matrix `m` of element `e`, or None when `obtencion_tl`
      raises (and assigns nothing). An outlet section decides the branch. */
  function TransmissionLoss(e: Element, m: Matrix, env: Env): (r: Option<real>)
    ensures Truthy(e.s2) ==> (r.Some? <==> e.s1.Some? && e.zO != 0.0)
    ensures !Truthy(e.s2) ==> (r.Some? <==> e.s1.Some? && e.s1.value != 0.0 && e.zO != 0.0)
    // a defined, non-zero outlet selects the two-area formula, inlet first
    ensures r.Some? && Truthy(e.s2) ==> r.value == TwoAreaTl(m, e.zO, e.s1.value, e.s2.value, env)
    ensures r.Some? && !Truthy(e.s2) ==> r.value == SingleAreaTl(m, e.zO, e.s1.value, env)
  {
    if Truthy(e.s2) then
      if e.s1.None? || e.zO == 0.0 then None
      else Some(TwoAreaTl(m, e.zO, e.s1.value, e.s2.value, env))
    else
      if e.s1.None? || e.s1.value == 0.0 || e.zO == 0.0 then None
      else Some(SingleAreaTl(m, e.zO, e.s1.value, env))
  }

  /** With equal areas the two brackets coincide and the area ratio is 1. */
  lemma BracketsAgree(m: Matrix, zO: real, s: real)
    requires s != 0.0 && zO != 0.0
    ensures TwoAreaBracket(m, zO, s, s) == SingleAreaBracket(m, zO, s)
  {
    assert m.d * s / s == m.d;
  }

  /** With equal, non-zero areas the two-area branch gives the single-area TL
      plus `10*log(1)`, so the branches agree wherever `log(1) == 0`. */
  lemma EqualAreasTransmissionLoss(e: Element, m: Matrix, env: Env)
    requires Truthy(e.s2) && e.s1 == e.s2
    ensures TransmissionLoss(e, m, env).Some? <==> TransmissionLoss(e.(s2 := None), m, env).Some?
    ensures TransmissionLoss(e, m, env).Some? ==>
      TransmissionLoss(e, m, env).value == TransmissionLoss(e.(s2 := None), m, env).value + 10.0 * env.log(1.0)
  {
    if e.zO != 0.0 {
      BracketsAgree(m, e.zO, e.s1.value);
      assert e.s1.value / e.s2.value == 1.0;
    }
  }

  /** A resonator has no outlet section, so its TL always takes the
      single-area branch over its neck section. */
  lemma HelmholtzSingleArea(env: Env, s: Option<real>, largo: Option<real>, s1: Option<real>,
                            s2: Option<real>, c: real, rhoO: real, vol: Option<real>,
                            zIn: Option<real>, m: Matrix)
    requires Setup(env, s, largo, s1, s2, c, rhoO, Helmholtz, vol, zIn).Some?
    ensures var e := Setup(env, s, largo, s1, s2, c, rhoO, Helmholtz, vol, zIn).value;
      && !Truthy(e.s2)
      && (TransmissionLoss(e, m, env).Some? <==> s.value != 0.0 && rhoO * c != 0.0)
      && (TransmissionLoss(e, m, env).Some? ==>
            TransmissionLoss(e, m, env).value
              == SingleAreaTl(m, rhoO * c, s.value, env))
  {
  }

  /** A straight duct of non-zero section takes the two-area branch with equal
      areas, which agrees with the single-area formula up to `10*log(1)`. */
  lemma TuboRectoEqualAreas(env: Env, s: real, largo: Option<real>, s1: Option<real>,
                            s2: Option<real>, c: real, rhoO: real, vol: Option<real>,
                            zIn: Option<real>, m: Matrix)
    requires s != 0.0 && rhoO * c != 0.0
    ensures var e := Setup(env, Some(s), largo, s1, s2, c, rhoO, TuboRecto, vol, zIn).value;
      && Truthy(e.s2)
      && TransmissionLoss(e, m, env)
         == Some(SingleAreaTl(m, rhoO * c, s, env) + 10.0 * env.log(1.0))
  {
    var e := Setup(env, Some(s), largo, s1, s2, c, rhoO, TuboRecto, vol, zIn).value;
    EqualAreasTransmissionLoss(e, m, env);
  }

}
