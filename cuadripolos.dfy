/** The `Cuadripolo` class: one silencer element, or a cascade of several,
    described by its ABCD matrix. Its methods change its fields in place; what
    they compute is specified by the functions of `Elements` and `Matrices`. */
module Cuadripolos {

  import opened Wrappers
  import opened Matrices
  import opened Elements

  class Cuadripolo {
    var c: real
    var rhoO: real
    var s: Option<real>
    var s1: Option<real>
    var s2: Option<real>
    var vol: Option<real>
    var tipo: string
    var largo: Option<real>
    var zO: real
    var zIn: Option<real>
    var cuadri: Matrix
    /** The transmission loss at the model frequency. */
    var tl: Option<real>
    /** The compiled TL evaluator `tl_`, as its value at the model frequency. */
    var tlFn: Option<real>

    /** The fields that describe the element. */
    function Params(): Element
      reads this
    {
      Element(tipo, s, largo, s1, s2, c, rhoO, vol, zO, zIn)
    }

    /** `Cuadripolo(...)`, for arguments with which it does not raise (see
        `Construct` for the raising case). */
    constructor (env: Env, s: Option<real> := None, largo: Option<real> := None,
                 s1: Option<real> := None, s2: Option<real> := None,
                 c: real := DefaultC, rhoO: real := DefaultRho, tipo: string := Complejo,
                 vol: Option<real> := None, zIn: Option<real> := None)
      requires !SetupFails(tipo, s, largo, vol)
      ensures Params() == Setup(env, s, largo, s1, s2, c, rhoO, tipo, vol, zIn).value
      ensures cuadri == Zero && tl == None && tlFn == None
    {
      this.c := c;
      this.rhoO := rhoO;
      this.s := s;
      this.s1 := s1;
      this.s2 := s2;
      this.vol := vol;
      this.tipo := tipo;
      this.largo := largo;
      this.zO := rhoO * c;
      new;
      if tipo == Helmholtz {
        this.largo := Some(HelmholtzLargo(s.value, largo.value));
        this.s1 := s;
        this.s2 := None;
        this.zIn := Some(HelmholtzImpedance(rhoO, c, s.value, this.largo.value, vol.value, env));
      } else {
        this.zIn := zIn;
      }
      if tipo == TuboRecto {
        this.s2 := s;
        this.s1 := s;
      }
      cuadri := Zero;
      tl := None;
      tlFn := None;
    }

    /** `x[i, j]`; None when an index raises IndexError. */
    function Get(i: int, j: int): (r: Option<real>)
      reads this
      ensures r.Some? <==> ValidIndex(i) && ValidIndex(j)
    {
      Entry(cuadri, i, j)
    }

    /** `x[i, j] = v`: writes one entry of the matrix in place; `ok` is false
        when an index raises IndexError, and then nothing is written. */
    method Set(i: int, j: int, v: real) returns (ok: bool)
      modifies this`cuadri
      ensures ok <==> ValidIndex(i) && ValidIndex(j)
      ensures ok ==> cuadri == Update(old(cuadri), i, j, v).value && Get(i, j) == Some(v)
      ensures ok ==> forall i', j' :: ValidIndex(i') && ValidIndex(j') && (Pos(i') != Pos(i) || Pos(j') != Pos(j))
                       ==> Get(i', j') == Entry(old(cuadri), i', j')
      ensures !ok ==> cuadri == old(cuadri)
    {
      ok := ValidIndex(i) && ValidIndex(j);
      if ok {
        cuadri := Update(cuadri, i, j, v).value;
        UpdateThenEntry(old(cuadri), i, j, v);
        forall i', j' | ValidIndex(i') && ValidIndex(j') && (Pos(i') != Pos(i) || Pos(j') != Pos(j))
          ensures Get(i', j') == Entry(old(cuadri), i', j')
        {
          UpdateFrame(old(cuadri), i, j, v, i', j');
        }
      }
    }

    /** `coeficientes`: derives the matrix for the element's type. A composite,
        an unknown type and a derivation that raises leave `cuadri` as it was;
        the matrix is assigned only once all four entries exist. */
    method Coeficientes(env: Env)
      modifies this`cuadri
      ensures var r := Coefficients(old(Params()), env);
        cuadri == if r.Some? then r.value else old(cuadri)
    {
      var e := Params();
      if tipo == Camara || tipo == TuboRecto {
        var r := DuctCoefficients(e, env);
        if r.Some? { cuadri := r.value; }
      }
      if tipo == ZIn || tipo == Helmholtz {
        var r := ShuntCoefficients(e, env);
        if r.Some? { cuadri := r.value; }
      }
      if tipo == ExtensionExpansion {
        var r := ExtensionCoefficients(e, env);
        if r.Some? { cuadri := r.value; }
      }
    }

    /** `obtencion_tl`: the two-area formula when there is an outlet section,
        the single-area one otherwise. When it raises, `tl` and `tl_` keep
        their values. */
    method ObtencionTl(env: Env)
      modifies this`tl, this`tlFn
      ensures var r := TransmissionLoss(Params(), cuadri, env);
        if r.Some? then tl == r && tlFn == r else tl == old(tl) && tlFn == old(tlFn)
    {
      var m := cuadri;
      if Truthy(s2) {
        if s1.Some? && zO != 0.0 {
          tl := Some(TwoAreaTl(m, zO, s1.value, s2.value, env));
          tlFn := tl;
        }
      } else {
        if s1.Some? && s1.value != 0.0 && zO != 0.0 {
          tl := Some(SingleAreaTl(m, zO, s1.value, env));
          tlFn := tl;
        }
      }
    }

    /** `self * other`: a new composite whose matrix has this one on the left. */
    method Mul(other: Cuadripolo, env: Env) returns (r: Cuadripolo)
      ensures fresh(r)
      ensures r.cuadri == Cascade(cuadri, other.cuadri)
      ensures r.tipo == Complejo && r.s == None && r.s1 == None && r.s2 == None && r.largo == None
      ensures r.vol == None && r.zIn == None && r.c == 345.0 && r.rhoO == 1.225 && r.zO == 422.625
      ensures r.tl == None && r.tlFn == None
    {
      var a := cuadri.a * other.cuadri.a + cuadri.b * other.cuadri.c;
      var b := cuadri.a * other.cuadri.b + cuadri.b * other.cuadri.d;
      var c := cuadri.c * other.cuadri.a + cuadri.d * other.cuadri.c;
      var d := cuadri.c * other.cuadri.b + cuadri.d * other.cuadri.d;
      r := new Cuadripolo(env);
      r.cuadri := Matrix(a, b, c, d);
      r.tipo := Complejo;
    }

    /** `other * self` through `__rmul__`: a new composite whose matrix has the
        other operand on the left. */
    method RMul(other: Cuadripolo, env: Env) returns (r: Cuadripolo)
      ensures fresh(r)
      ensures r.cuadri == Cascade(other.cuadri, cuadri)
      ensures r.tipo == Complejo && r.s == None && r.s1 == None && r.s2 == None && r.largo == None
      ensures r.vol == None && r.zIn == None && r.c == 345.0 && r.rhoO == 1.225 && r.zO == 422.625
      ensures r.tl == None && r.tlFn == None
    {
      var a := other.cuadri.a * cuadri.a + other.cuadri.b * cuadri.c;
      var b := other.cuadri.a * cuadri.b + other.cuadri.b * cuadri.d;
      var c := other.cuadri.c * cuadri.a + other.cuadri.d * cuadri.c;
      var d := other.cuadri.c * cuadri.b + other.cuadri.d * cuadri.d;
      r := new Cuadripolo(env);
      r.cuadri := Matrix(a, b, c, d);
      r.tipo := Complejo;
    }
  }

  /** `Cuadripolo(...)` with any arguments: null when the constructor raises. */
  method Construct(env: Env, s: Option<real> := None, largo: Option<real> := None,
                   s1: Option<real> := None, s2: Option<real> := None,
                   c: real := DefaultC, rhoO: real := DefaultRho, tipo: string := Complejo,
                   vol: Option<real> := None, zIn: Option<real> := None)
    returns (q: Cuadripolo?)
    ensures q == null <==> SetupFails(tipo, s, largo, vol)
    ensures q != null ==> fresh(q)
    ensures q != null ==> q.Params() == Setup(env, s, largo, s1, s2, c, rhoO, tipo, vol, zIn).value
    ensures q != null ==> q.cuadri == Zero && q.tl == None && q.tlFn == None
  {
    if SetupFails(tipo, s, largo, vol) {
      q := null;
    } else {
      q := new Cuadripolo(env, s, largo, s1, s2, c, rhoO, tipo, vol, zIn);
    }
  }

  /** The two unit tests: `a * b` and `b * a` for two bare containers whose
      matrices are assigned directly; neither operand changes. */
  method CascadeUnitTests(env: Env) {
    var a := new Cuadripolo(env);
    var b := new Cuadripolo(env);
    a.cuadri := Matrix(1.0, 2.0, 3.0, 4.0);
    b.cuadri := Matrix(4.0, 3.0, 2.0, 1.0);
    CascadeTestVectors();
    var d := a.Mul(b, env);
    assert d.cuadri == Matrix(8.0, 5.0, 20.0, 13.0);
    d := b.Mul(a, env);
    assert d.cuadri == Matrix(13.0, 20.0, 5.0, 8.0);
    assert a.cuadri == Matrix(1.0, 2.0, 3.0, 4.0) && b.cuadri == Matrix(4.0, 3.0, 2.0, 1.0);
  }

}
