/** The 2x2 transfer (ABCD) matrix of a quadrupole, held by the source as the
    nested list `cuadri = [[A, B], [C, D]]`: its entry access with Python list
    indexing, and the cascade product. */
module Matrices {

  import opened Wrappers

  /** `[[a, b], [c, d]]`, row by row. */
  datatype Matrix = Matrix(a: real, b: real, c: real, d: real)

  /** The placeholder `[[0, 0], [0, 0]]` every new quadrupole starts with. */
  const Zero: Matrix := Matrix(0.0, 0.0, 0.0, 0.0)

  /** The two-port that passes pressure and volume velocity through unchanged. */
  const Identity: Matrix := Matrix(1.0, 0.0, 0.0, 1.0)

  function Det(m: Matrix): real {
    m.a * m.d - m.b * m.c
  }

  /** The shape `[[1, 0], [C, 1]]` of a branch (shunt) element. */
  function Shunt(c: real): (m: Matrix)
    ensures m.a == 1.0 && m.b == 0.0 && m.c == c && m.d == 1.0
    ensures Det(m) == 1.0
  {
    Matrix(1.0, 0.0, c, 1.0)
  }

  // ---------------------------------------------------------------------------
  // Entry access: `x[i, j]` indexes the nested list, so a negative index counts
  // from the end as for any Python list, and anything else raises IndexError.

  predicate ValidIndex(i: int) {
    -2 <= i < 2
  }

  /** The list position an index in range denotes. */
  function Pos(i: int): (p: nat)
    requires ValidIndex(i)
    ensures p < 2 && (p == i || p == i + 2)
  {
    if i < 0 then i + 2 else i
  }

  /** The entry at row `p`, column `q` (positions 0 or 1). */
  function At(m: Matrix, p: nat, q: nat): real
    requires p < 2 && q < 2
  {
    if p == 0 then (if q == 0 then m.a else m.b) else (if q == 0 then m.c else m.d)
  }

  /** `x[i, j]`; None when an index raises IndexError. */
  function Entry(m: Matrix, i: int, j: int): (r: Option<real>)
    ensures r.Some? <==> ValidIndex(i) && ValidIndex(j)
  {
    if ValidIndex(i) && ValidIndex(j) then Some(At(m, Pos(i), Pos(j))) else None
  }

  /** `x[i, j] = v`; None when an index raises IndexError (nothing is written). */
  function Update(m: Matrix, i: int, j: int, v: real): (r: Option<Matrix>)
    ensures r.Some? <==> ValidIndex(i) && ValidIndex(j)
  {
    if !(ValidIndex(i) && ValidIndex(j)) then None
    else
      var p, q := Pos(i), Pos(j);
      Some(if p == 0 && q == 0 then m.(a := v)
           else if p == 0 then m.(b := v)
           else if q == 0 then m.(c := v)
           else m.(d := v))
  }

  /** Reading an entry right after writing it gives the written value. */
  lemma UpdateThenEntry(m: Matrix, i: int, j: int, v: real)
    requires ValidIndex(i) && ValidIndex(j)
    ensures Update(m, i, j, v).Some?
    ensures Entry(Update(m, i, j, v).value, i, j) == Some(v)
  {
  }

  /** Writing an entry leaves every other entry as it was; two indices that
      denote the same position (such as -1 and 1) denote the same entry. */
  lemma UpdateFrame(m: Matrix, i: int, j: int, v: real, i': int, j': int)
    requires ValidIndex(i) && ValidIndex(j) && ValidIndex(i') && ValidIndex(j')
    ensures Update(m, i, j, v).Some?
    ensures Entry(Update(m, i, j, v).value, i', j') ==
            if Pos(i) == Pos(i') && Pos(j) == Pos(j') then Some(v) else Entry(m, i', j')
  {
  }

  // ---------------------------------------------------------------------------
  // Cascade: `l * r` is `l` feeding `r`, the ordinary matrix product.

  function Cascade(l: Matrix, r: Matrix): (p: Matrix)
    ensures forall i: nat, j: nat :: i < 2 && j < 2 ==>
      At(p, i, j) == At(l, i, 0) * At(r, 0, j) + At(l, i, 1) * At(r, 1, j)
  {
    Matrix(l.a * r.a + l.b * r.c, l.a * r.b + l.b * r.d,
           l.c * r.a + l.d * r.c, l.c * r.b + l.d * r.d)
  }

  /** The two products the unit tests pin, in both orders. */
  lemma CascadeTestVectors()
    ensures Cascade(Matrix(1.0, 2.0, 3.0, 4.0), Matrix(4.0, 3.0, 2.0, 1.0)) == Matrix(8.0, 5.0, 20.0, 13.0)
    ensures Cascade(Matrix(4.0, 3.0, 2.0, 1.0), Matrix(1.0, 2.0, 3.0, 4.0)) == Matrix(13.0, 20.0, 5.0, 8.0)
  {
  }

  /** Cascading is not commutative: the test matrices are a witness. */
  lemma CascadeNotCommutative()
    ensures exists l: Matrix, r: Matrix :: Cascade(l, r) != Cascade(r, l)
  {
    var l, r := Matrix(1.0, 2.0, 3.0, 4.0), Matrix(4.0, 3.0, 2.0, 1.0);
    CascadeTestVectors();
    assert Cascade(l, r) != Cascade(r, l);
  }

  /** The identity two-port is a two-sided unit of cascading. */
  lemma CascadeIdentity(m: Matrix)
    ensures Cascade(Identity, m) == m
    ensures Cascade(m, Identity) == m
  {
  }

  /** One entry of a three-element chain, bracketed either way: `p` is a row of
      the left pair's product and `q` a column of the right pair's product. */
  lemma RegroupEntry(x0: real, x1: real, y00: real, y01: real, y10: real, y11: real, z0: real, z1: real,
                     p0: real, p1: real, q0: real, q1: real)
    requires p0 == x0 * y00 + x1 * y10 && p1 == x0 * y01 + x1 * y11
    requires q0 == y00 * z0 + y01 * z1 && q1 == y10 * z0 + y11 * z1
    ensures p0 * z0 + p1 * z1 == x0 * q0 + x1 * q1
  {
  }

  /** Cascading is associative, so a chain of elements needs no brackets. */
  lemma CascadeAssociative(x: Matrix, y: Matrix, z: Matrix)
    ensures Cascade(Cascade(x, y), z) == Cascade(x, Cascade(y, z))
  {
    var xy, yz := Cascade(x, y), Cascade(y, z);
    var l, r := Cascade(xy, z), Cascade(x, yz);
    assert l.a == r.a by { RegroupEntry(x.a, x.b, y.a, y.b, y.c, y.d, z.a, z.c, xy.a, xy.b, yz.a, yz.c); }
    assert l.b == r.b by { RegroupEntry(x.a, x.b, y.a, y.b, y.c, y.d, z.b, z.d, xy.a, xy.b, yz.b, yz.d); }
    assert l.c == r.c by { RegroupEntry(x.c, x.d, y.a, y.b, y.c, y.d, z.a, z.c, xy.c, xy.d, yz.a, yz.c); }
    assert l.d == r.d by { RegroupEntry(x.c, x.d, y.a, y.b, y.c, y.d, z.b, z.d, xy.c, xy.d, yz.b, yz.d); }
  }

  /** The determinant of a cascade is the product of the determinants. */
  lemma CascadeDet(l: Matrix, r: Matrix)
    ensures Det(Cascade(l, r)) == Det(l) * Det(r)
  {
  }

  /** A chain of reciprocal (determinant 1) elements is reciprocal. */
  lemma CascadeKeepsReciprocity(l: Matrix, r: Matrix)
    requires Det(l) == 1.0 && Det(r) == 1.0
    ensures Det(Cascade(l, r)) == 1.0
  {
    CascadeDet(l, r);
  }

}
