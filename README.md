# Cuadripolos: a verified model of the silencer quadrupole

`Cuadripolo` describes one element of a reactive silencer by its 2x2 transfer
(ABCD) matrix `[[A, B], [C, D]]`. The supported elements are:

- an expansion chamber (`camara`);
- a straight duct (`tubo_recto`);
- a Helmholtz resonator (`helmholtz`);
- an extension duct (`extension_expansion`);
- a branch with a given input impedance (`Z_in`).

A chain of elements is the product of their matrices, and that product is a
composite (`complejo`). From a matrix and the inlet and outlet sections the
class computes the transmission loss (TL).

The model has four modules:

- `Wrappers`: an `Option` type. `None` stands for Python's `None` and for a
  computation that raised.
- `Matrices`: the matrix as the datatype `Matrix(a, b, c, d)`. It covers entry
  access with Python list indexing (negative indices included) and the
  cascade product. The proved properties are:
  - the unit-test vectors;
  - the product is not commutative;
  - the identity is a unit;
  - the product is associative;
  - the determinant is multiplicative;
  - reciprocity (determinant 1) is preserved.
- `Elements`: the pure parts of the class, as functions over the element's
  parameters (`Element`).
  - `Setup` is what `__init__` leaves.
  - `Coefficients` is the matrix `coeficientes` assigns.
  - `TransmissionLoss` is what `obtencion_tl` computes.
- `Cuadripolos`: the class itself. Its fields are updated in place by its
  methods, and each method is proved against the functions above.

The expressions that depend on frequency are modelled by their value at one
frequency `env.f`. The `Env` value carries that frequency. It also carries
sin, cos, tan, log and abs as uninterpreted functions, and `nonFinite`, the
value the engine gives a symbolic expression divided by zero.

Division follows the source's value types:

- A quotient of two plain numbers raises ZeroDivisionError when the divisor is
  zero.
- A quotient with a frequency-dependent operand never raises (`Env.Quot`).

A step that raises inside one of the source's `try` blocks assigns nothing.
In the model that step returns `None`, and the method leaves its fields as
they were.

The model keeps these details of the code as written:

- The TL uses sympy's `log`, the natural logarithm (lines 137-148).
- Only the resonator's neck gets an end correction, `0.82*(s/pi)^2` (line 49).
  The duct matrix uses `largo` as given (lines 99-102).
- `extension_expansion` uses `s1 - s` as given (line 120).
- A product's `s1` and `s2` are `None`: it is a default object whose matrix
  and type are then assigned (lines 159-161).
- A failure inside a `try` is printed and assigns nothing. A failure outside
  one propagates as a Python exception. The resonator's constructor raises
  the result of `print` (lines 57-58), which is itself a TypeError.
- `tubo_cerrado` is named in the class docstring, but no branch handles it.
  `Coefficients` treats it like any other unknown type.

## Model

| member | source | states |
|---|---|---|
| Matrices.Shunt | cuadripolos.py:107-124 | a branch matrix is `[[1, 0], [C, 1]]` and is reciprocal (determinant 1) |
| Matrices.Pos | cuadripolos.py:67-74 | an index in `-2..1` denotes list position `i` or `i + 2`, as Python's negative indexing does |
| Matrices.Entry | cuadripolos.py:67-69 | `x[i, j]` succeeds exactly when both indices are in range for a two-element list; otherwise it is an IndexError |
| Matrices.Update | cuadripolos.py:71-74 | `x[i, j] = v` succeeds exactly when both indices are in range |
| Matrices.UpdateThenEntry | cuadripolos.py:67-74 | reading an entry just written gives the written value |
| Matrices.UpdateFrame | cuadripolos.py:71-74 | writing one entry leaves every other entry unchanged; `-1` and `1` denote the same entry |
| Matrices.Cascade | cuadripolos.py:153-162 | each product entry is row `i` of the left operand times column `j` of the right |
| Matrices.CascadeTestVectors | cuadripolos_test.py:4-16 | `[[1,2],[3,4]] * [[4,3],[2,1]] == [[8,5],[20,13]]`, and the reverse order gives `[[13,20],[5,8]]` |
| Matrices.CascadeNotCommutative | cuadripolos.py:153-173 | the operand order matters, which is why `__mul__` and `__rmul__` differ |
| Matrices.CascadeIdentity | cuadripolos.py:153-162 | the identity two-port is a left and right unit of the cascade |
| Matrices.CascadeAssociative | cuadripolos.py:153-162 | `(x*y)*z == x*(y*z)`, so a silencer chain needs no brackets |
| Matrices.CascadeDet | cuadripolos.py:153-162 | the determinant of a cascade is the product of the determinants |
| Matrices.CascadeKeepsReciprocity | cuadripolos.py:153-162 | a cascade of reciprocal elements is reciprocal |
| Elements.Env.Quot | cuadripolos.py:54-55 | a symbolic quotient never raises; it is the true quotient for a non-zero divisor and non-finite for a zero one |
| Elements.Setup | cuadripolos.py:35-65 | `__init__` raises exactly for a resonator without section, length or volume; it keeps type, sections, `c`, `rho_o` and volume, and sets `Z_o = rho_o*c`; a straight duct gets `s1 = s2 = s`; a resonator gets `s1 = s`, no outlet, the end-corrected neck length and its impedance; other types keep length and `Z_in` |
| Elements.DefaultSetup | cuadripolos.py:35-65 | `Cuadripolo()` is a composite with no geometry, `c = 345`, `rho_o = 1.225` and `Z_o = 422.625`, the exact product |
| Elements.DuctCoefficients | cuadripolos.py:97-106 | the duct derivation succeeds exactly when length and section are defined and `s` and `Z_o` are non-zero (the shape of its matrix is `DuctShape`) |
| Elements.DuctShape | cuadripolos.py:97-103 | a duct matrix has `A == D == cos(k*largo)`, and `B*s/Z_o == C*Z_o/s == sin(k*largo)` |
| Elements.DuctDet | cuadripolos.py:97-103 | the duct determinant is `cos^2 - sin^2` of `k*largo` |
| Elements.ShuntCoefficients | cuadripolos.py:93-115 | the branch derivation succeeds exactly when `s` and `Z_in` are defined and, for a resonator, the volume is defined and non-zero (the `k` of line 94 divides by it); its matrix is `[[1, 0], [s/Z_in, 1]]` |
| Elements.ExtensionCoefficients | cuadripolos.py:116-124 | the extension derivation succeeds exactly when length, `s1` and `s` are defined; its matrix is `[[1, 0], [C, 1]]`, and where `tan(k*largo)`, `Z_o` and `s1 - s` are non-zero, `C*Z_o == (s1 - s)*tan(k*largo)` |
| Elements.Coefficients | cuadripolos.py:85-127 | a composite or unknown type gets no matrix; ducts get `DuctCoefficients`, whose `A == D`; `Z_in` and `helmholtz` get `ShuntCoefficients`; `extension_expansion` gets `ExtensionCoefficients`; every branch matrix produced is `[[1, 0], [C, 1]]` with determinant 1 |
| Elements.HelmholtzCoefficients | cuadripolos.py:47-115 | a constructed resonator derives its matrix exactly when its volume is non-zero |
| Elements.TransmissionLoss | cuadripolos.py:129-151 | a defined, non-zero `s2` selects the two-area TL `20*log(abs(0.5*(A + Z_o*C/s2 + B*s1/Z_o + D*s1/s2))) + 10*log(s1/s2)`, which fails exactly when `s1` is undefined or `Z_o` is zero; otherwise the single-area TL `20*log(abs(0.5*(A + Z_o*C/s1 + B*s1/Z_o + D)))` is used, which also fails when `s1` is zero |
| Elements.BracketsAgree | cuadripolos.py:137-148 | with `s1 == s2` the two-area bracket equals the single-area one |
| Elements.EqualAreasTransmissionLoss | cuadripolos.py:135-151 | with equal, non-zero sections both branches succeed or fail together, and the two-area TL is the single-area TL plus `10*log(1)` |
| Elements.HelmholtzSingleArea | cuadripolos.py:47-151 | a resonator has no outlet, so its TL is the single-area formula over its neck section; it fails exactly when `s` or `rho_o*c` is zero |
| Elements.TuboRectoEqualAreas | cuadripolos.py:61-141 | a straight duct of non-zero section takes the two-area branch, and its TL is the single-area TL plus `10*log(1)` |
| Cuadripolos.Cuadripolo.constructor | cuadripolos.py:35-65 | a new object holds exactly the fields `Setup` gives, the zero matrix and no TL |
| Cuadripolos.Construct | cuadripolos.py:35-65 | construction gives no object exactly when `__init__` raises; otherwise it gives a fresh object as the constructor does |
| Cuadripolos.Cuadripolo.Get | cuadripolos.py:67-69 | `x[i, j]` on an object succeeds exactly when both indices are in range; the value read is the one `Set` wrote (`UpdateThenEntry`, `UpdateFrame`) |
| Cuadripolos.Cuadripolo.Set | cuadripolos.py:71-74 | `x[i, j] = v` writes exactly that entry in place, reads back `v`, leaves the other entries, and changes nothing on IndexError |
| Cuadripolos.Cuadripolo.Coeficientes | cuadripolos.py:85-127 | the sequence of type tests assigns `cuadri` the matrix `Coefficients` gives; when that is None, it leaves `cuadri` unchanged |
| Cuadripolos.Cuadripolo.ObtencionTl | cuadripolos.py:129-151 | `tl` and `tl_` both become the TL `TransmissionLoss` gives, or keep their values when it raises |
| Cuadripolos.Cuadripolo.Mul | cuadripolos.py:153-162 | `self * other` is a fresh composite with default parameters whose matrix is `Cascade(self, other)`; neither operand changes |
| Cuadripolos.Cuadripolo.RMul | cuadripolos.py:164-173 | `other * self` through `__rmul__` is a fresh composite whose matrix is `Cascade(other, self)` |

## Left out

- `plot_tl` and `__repr__`. They only plot or format text.
- The diagnostic `print` calls in the `except` branches and in the composite
  branch of `coeficientes`.
- Symbolic expressions. Every entry, impedance and TL is a real number: the
  expression's value at the frequency `env.f`.
- `lambdify`. The `tl_` evaluator is modelled as its value at that frequency,
  so it always equals `tl`.
- Non-finite arithmetic. `Env.nonFinite` is an opaque value, and the model does
  not follow how `zoo` or `nan` propagate through later expressions.
- Complex values. A negative area ratio or a zero under `log` gives whatever
  the uninterpreted `log` returns.
- Elements.TransmissionLoss: divides by `Z_o`, `s1` and `s2` as plain numbers,
  so a zero divisor always counts as a raise. When the matrix entries are
  symbolic, the source would instead yield a non-finite expression.
- Elements.ShuntCoefficients: treats `Z_in` as a frequency-dependent
  expression, as the class docstring requires. A plain-number `Z_in` of zero
  would raise in the source; here it gives the non-finite value.
- Elements.ShuntCoefficients: keeps only whether the `k` of line 94 raises,
  not its value. The value is never used.
- Which exceptions are caught by the source and which propagate to the
  caller. The resonator's `k` (line 94) is outside every `try`, so its
  TypeError or ZeroDivisionError propagates out of `coeficientes`. The model
  treats that the same as a caught failure: nothing is assigned.
- Floating point. All arithmetic is exact real arithmetic, so rounding is not
  modelled. For example, `Z_o` is `422.625` here, where Python's
  `1.225 * 345` gives `422.62500000000006`. The constants `Pi` and `0.82` are
  the source's literals taken as exact reals.
- Cuadripolos.Construct: models a constructor that raises as one that returns
  no object. The exception itself is not modelled.
- Aliasing of the nested `cuadri` lists between objects. The matrix is a
  value, so assigning one object's matrix to another never shares rows.
- Fields of other value types than the ones `__init__` documents, such as
  `s` given as a symbolic expression.
