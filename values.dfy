/** Property values and quantities (nineml/values.py): single and array
    values, the row-index validation that reads an array value from XML, and
    the dimension checks of quantities.  Floating-point numbers are modelled
    as exact reals. */
module Values {
  import opened Wrappers
  import opened Indexed

  // ---------------------------------------------------------------------
  // Single and array values

  /** A `SingleValue` or an `ArrayValue`. */
  datatype Value = Single(value: real) | Array(values: seq<real>)

  /** `__len__`: a single value reports no length. */
  function Len(v: Value): nat
  {
    match v
    case Single(_) => 0
    case Array(vs) => |vs|
  }

  /** The k-th item `iter(v)` yields, if the iteration gets that far. */
  function Item(v: Value, k: nat): Option<real>
  {
    match v
    case Single(x) => Some(x)
    case Array(vs) => if k < |vs| then Some(vs[k]) else None
  }

  /** A single value repeats itself forever although its length is 0; an
      array value yields exactly `Len` items, its values in order. */
  lemma IterationAndLength(v: Value)
    ensures v.Single? ==> Len(v) == 0 && forall k: nat :: Item(v, k) == Some(v.value)
    ensures v.Array? ==> forall k: nat :: (Item(v, k).Some? <==> k < Len(v)) &&
                                         (k < Len(v) ==> Item(v, k) == Some(v.values[k]))
  {
  }

  /** What may be handed to `ArrayValue(values)`: a scalar or something
      iterable. */
  datatype Argument = Scalar(x: real) | Items(items: seq<real>)

  /** `ArrayValue.__init__`: a non-iterable argument is rejected. */
  function NewArrayValue(arg: Argument): (r: Result<Value>)
    ensures r.Ok? <==> arg.Items?
    ensures r.Ok? ==> r.value == Array(arg.items) && Len(r.value) == |arg.items|
    ensures r.Err? ==> r.error == RuntimeError
  {
    match arg
    case Scalar(_) => Err(RuntimeError)
    case Items(xs) => Ok(Array(xs))
  }

  /** `ArrayValue.from_xml` for inline rows of (index, value): the rows are
      sorted by index, then a negative first index, a repeated index or a
      last index not below the row count is rejected. */
  function ArrayFromRows(rows: seq<(int, real)>): (r: Result<Value>)
    ensures rows == [] ==> r == Err(ValueError)
    ensures rows != [] && r.Err? ==> r.error == RuntimeError
  {
    if rows == [] then Err(ValueError)
    else
      var sorted := SortByIndex(rows);
      var indices := Indices(sorted);
      if indices[0] < 0 then Err(RuntimeError)
      else if Runs(indices) != |indices| then Err(RuntimeError)
      else if indices[|indices| - 1] >= |indices| then Err(RuntimeError)
      else Ok(Array(Payloads(sorted)))
  }

  /** Rows are accepted exactly when their indices are 0..n-1, each once; the
      value of every row then sits at its index. */
  lemma ArrayFromRowsMeaning(rows: seq<(int, real)>)
    ensures ArrayFromRows(rows).Ok? <==> rows != [] && IsIndexPermutation(Indices(rows))
    ensures ArrayFromRows(rows).Ok? ==>
              var vs := ArrayFromRows(rows).value.values;
              |vs| == |rows| &&
              forall k :: 0 <= k < |rows| ==> 0 <= rows[k].0 < |vs| && vs[rows[k].0] == rows[k].1
  {
    if rows != [] {
      var indices := Indices(SortByIndex(rows));
      SortByIndexSorts(rows);
      RunsFull(indices);
      SortedAdjacentDistinct(indices);
      SortedIndexCheck(rows);
    }
  }

  /** The three rejections, each on its own: a negative index, a repeated
      index, an index not below the row count. */
  lemma ArrayRowsRejected(rows: seq<(int, real)>, i: nat, j: nat)
    requires i < |rows| && j < |rows|
    requires rows[i].0 < 0 || (i != j && rows[i].0 == rows[j].0) || rows[i].0 >= |rows|
    ensures ArrayFromRows(rows) == Err(RuntimeError)
  {
    ArrayFromRowsMeaning(rows);
    if ArrayFromRows(rows).Ok? {
      var vs := ArrayFromRows(rows).value.values;
      assert vs[rows[i].0] == rows[i].1;
      if i != j && rows[i].0 == rows[j].0 {
        assert IsIndexPermutation(Indices(rows));
        var s := Indices(rows);
        assert s[i] == s[j];
        PermutationNoRepeat(s, i, j);
      }
    }
  }

  /** A permutation of 0..n-1 holds no index twice. */
  lemma PermutationNoRepeat(s: seq<int>, i: nat, j: nat)
    requires IsIndexPermutation(s)
    requires i < |s| && j < |s| && i != j
    ensures s[i] != s[j]
  {
    var r := Range(|s|);
    if s[i] == s[j] {
      assert multiset(s)[s[i]] >= 2 by {
        var t := s[..i] + s[i + 1..];
        assert s == s[..i] + [s[i]] + s[i + 1..];
        assert multiset(s) == multiset(t) + multiset{s[i]};
        if j < i {
          assert t[j] == s[j];
        } else {
          assert t[j - 1] == s[j];
        }
        assert s[i] in multiset(t);
      }
      RangeOnce(|s|, s[i]);
    }
  }

  /** Each index appears at most once in 0..n-1. */
  lemma {:induction false} RangeOnce(n: nat, x: int)
    ensures multiset(Range(n))[x] <= 1
    decreases n
  {
    if n > 0 {
      assert Range(n) == Range(n - 1) + [n - 1];
      RangeOnce(n - 1, x);
      if x == n - 1 {
        assert x !in Range(n - 1);
      }
    }
  }

  // ---------------------------------------------------------------------
  // Units and quantities

  /** A physical dimension by its base-unit exponents (mass, length, time,
      current, amount, temperature, luminous intensity). */
  datatype Dimension = Dimension(m: int, l: int, t: int, i: int, n: int, k: int, j: int)

  /** A unit: its name, its dimension and the power of ten that scales it to
      SI units. */
  datatype Unit = Unit(name: string, dimension: Dimension, power: int)

  const Dimensionless := Dimension(0, 0, 0, 0, 0, 0, 0)
  const Unitless := Unit("unitless", Dimensionless, 0)

  /** `v * 10 ** e`, by repeated multiplication or division by ten. */
  function Scale(v: real, e: int): real
    decreases if e >= 0 then e else -e
  {
    if e == 0 then v
    else if e > 0 then Scale(v, e - 1) * 10.0
    else Scale(v, e + 1) / 10.0
  }

  /** One more power of ten is one more factor of ten. */
  lemma ScaleStep(v: real, e: int)
    ensures Scale(v, e + 1) == Scale(v, e) * 10.0
  {
  }

  /** Scaling twice adds the exponents. */
  lemma {:induction false} ScaleAdd(v: real, a: int, b: int)
    ensures Scale(Scale(v, a), b) == Scale(v, a + b)
    decreases if b >= 0 then b else -b
  {
    if b > 0 {
      ScaleAdd(v, a, b - 1);
      ScaleStep(v, a + b - 1);
    } else if b < 0 {
      ScaleAdd(v, a, b + 1);
      ScaleStep(v, a + b);
    }
  }

  /** Scaling distributes over sums and differences. */
  lemma {:induction false} ScaleLinear(x: real, y: real, e: int)
    ensures Scale(x + y, e) == Scale(x, e) + Scale(y, e)
    ensures Scale(x - y, e) == Scale(x, e) - Scale(y, e)
    decreases if e >= 0 then e else -e
  {
    if e > 0 {
      ScaleLinear(x, y, e - 1);
    } else if e < 0 {
      ScaleLinear(x, y, e + 1);
    }
  }

  /** The other operand of `+` and `-`: a quantity (its value and units), an
      object with a `value` and no `units` (a `SingleValue`), or a bare
      Python number, which has neither. */
  datatype Operand = QuantityOperand(value: real, units: Unit) | SingleValueOperand(x: real) | NumberOperand(x: real)

  /** `Quantity._scaled_value` as written: the exponent difference is taken
      as own power minus the operand's. */
  function ScaledAsWritten(own: Unit, other: Operand): Result<real>
  {
    match other
    case QuantityOperand(v, u) =>
      if u.dimension != own.dimension then Err(DimensionError)
      else Ok(Scale(v, own.power - u.power))
    case SingleValueOperand(x) =>
      if own == Unitless then Ok(x) else Err(DimensionError)
    case NumberOperand(_) =>
      if own == Unitless then Err(AttributeError) else Err(DimensionError)
  }

  const MilliVolt := Unit("mV", Dimension(1, 2, -3, -1, 0, 0, 0), -3)
  const Volt := Unit("V", Dimension(1, 2, -3, -1, 0, 0, 0), 0)

  /** Adding 1 V to a quantity in mV scales the volt to 0.001 mV, so the
      physical amount 1 V becomes a millionth of a volt. */
  lemma ScaledAsWrittenMisscales()
    ensures ScaledAsWritten(MilliVolt, QuantityOperand(1.0, Volt)) == Ok(0.001)
    ensures Scale(0.001, MilliVolt.power) == 0.000001
    ensures Scale(1.0, Volt.power) == 1.0
  {
    assert Scale(1.0, -1) == 0.1;
    assert Scale(1.0, -2) == 0.01;
    assert Scale(0.001, -1) == 0.0001;
    assert Scale(0.001, -2) == 0.00001;
  }

  /** `Quantity._scaled_value` with the operand rescaled to the own unit:
      operands of another dimension, and operands without units added to
      anything but a unitless quantity, are rejected; otherwise the physical
      amount is kept.  A bare number has no `units`, so the handler reads
      its `value`, which it has not either: that raises `AttributeError`. */
  function Scaled(own: Unit, other: Operand): (r: Result<real>)
    ensures r.Err? <==> (other.QuantityOperand? && other.units.dimension != own.dimension) ||
                        (!other.QuantityOperand? && own != Unitless) ||
                        other.NumberOperand?
    ensures r.Err? ==> r.error == (if other.NumberOperand? && own == Unitless then AttributeError else DimensionError)
    ensures r.Ok? && other.QuantityOperand? ==>
              Scale(r.value, own.power) == Scale(other.value, other.units.power)
    ensures r.Ok? && other.SingleValueOperand? ==> r.value == other.x
  {
    match other
    case QuantityOperand(v, u) =>
      if u.dimension != own.dimension then Err(DimensionError)
      else
        ScaleAdd(v, u.power - own.power, own.power);
        Ok(Scale(v, u.power - own.power))
    case SingleValueOperand(x) =>
      if own == Unitless then Ok(x) else Err(DimensionError)
    case NumberOperand(_) =>
      if own == Unitless then Err(AttributeError) else Err(DimensionError)
  }

  /** A single value is added to a unitless quantity as it is, while a bare
      number fails there with `AttributeError` and next to units with
      `NineMLDimensionError`. */
  lemma NumberOperands(x: real, u: Unit)
    requires u != Unitless
    ensures Scaled(Unitless, SingleValueOperand(x)) == Ok(x)
    ensures Scaled(Unitless, NumberOperand(x)) == Err(AttributeError)
    ensures Scaled(u, SingleValueOperand(x)) == Err(DimensionError)
    ensures Scaled(u, NumberOperand(x)) == Err(DimensionError)
  {
  }

  /** A `Quantity`: a single value with units that `set_units` may replace. */
  class Quantity {
    const value: real
    var units: Unit

    constructor (value: real, units: Unit)
      ensures this.value == value && this.units == units
    {
      this.value := value;
      this.units := units;
    }

    /** The physical amount in SI units. */
    function Magnitude(): real
      reads this
    {
      Scale(value, units.power)
    }

    function AsOperand(): Operand
      reads this
    {
      QuantityOperand(value, units)
    }

    /** `set_units`: only a unit of the same dimension is accepted, so the
        quantity's dimension never changes. */
    method SetUnits(u: Unit) returns (r: Result<()>)
      modifies this
      ensures r.Ok? <==> u.dimension == old(units).dimension
      ensures r.Ok? ==> units == u
      ensures r.Err? ==> r.error == RuntimeError && units == old(units)
      ensures units.dimension == old(units).dimension
    {
      if u.dimension != units.dimension {
        return Err(RuntimeError);
      }
      units := u;
      r := Ok(());
    }

    /** `__add__`: the sum in this quantity's units. */
    method Add(other: Operand) returns (r: Result<Quantity>)
      ensures r.Err? <==> Scaled(units, other).Err?
      ensures r.Err? ==> r.error == Scaled(units, other).error
      ensures r.Ok? ==> fresh(r.value) && r.value.units == units &&
                        r.value.value == value + Scaled(units, other).value
      ensures r.Ok? && other.QuantityOperand? ==>
                r.value.Magnitude() == Magnitude() + Scale(other.value, other.units.power)
    {
      var s := Scaled(units, other);
      if s.Err? {
        return Err(s.error);
      }
      ScaleLinear(value, s.value, units.power);
      var q := new Quantity(value + s.value, units);
      r := Ok(q);
    }

    /** `__sub__`: the difference in this quantity's units. */
    method Sub(other: Operand) returns (r: Result<Quantity>)
      ensures r.Err? <==> Scaled(units, other).Err?
      ensures r.Err? ==> r.error == Scaled(units, other).error
      ensures r.Ok? ==> fresh(r.value) && r.value.units == units &&
                        r.value.value == value - Scaled(units, other).value
      ensures r.Ok? && other.QuantityOperand? ==>
                r.value.Magnitude() == Magnitude() - Scale(other.value, other.units.power)
    {
      var s := Scaled(units, other);
      if s.Err? {
        return Err(s.error);
      }
      ScaleLinear(value, s.value, units.power);
      var q := new Quantity(value - s.value, units);
      r := Ok(q);
    }
  }

  /** Adding two quantities of one dimension gives the same physical amount
      whichever operand's units the sum is expressed in. */
  lemma AddSymmetric(a: Operand, b: Operand)
    requires a.QuantityOperand? && b.QuantityOperand?
    requires a.units.dimension == b.units.dimension
    ensures Scaled(a.units, b).Ok? && Scaled(b.units, a).Ok?
    ensures Scale(a.value + Scaled(a.units, b).value, a.units.power) ==
            Scale(b.value + Scaled(b.units, a).value, b.units.power)
  {
    ScaleLinear(a.value, Scaled(a.units, b).value, a.units.power);
    ScaleLinear(b.value, Scaled(b.units, a).value, b.units.power);
  }
}
