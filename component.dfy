/** The typed component descriptor (`Component` in _component.py): an element
    type and a shape, the bytes one row occupies, and the reinterpretation
    of a raw byte buffer as a `(rows, *shape)` array. */
module Components {
  import opened FlecsTypes

  /** `np.prod` over a list of dimensions (the product of no dimensions is 1). */
  function Product(dims: seq<nat>): nat
  {
    if dims == [] then 1 else dims[0] * Product(dims[1..])
  }

  /** A shape as callers pass it: a bare integer or a sequence of dimensions. */
  datatype ShapeLike = Scalar(n: nat) | Dims(dims: seq<nat>)

  /** `np.prod(shape)` on the shape as passed (an integer is its own product). */
  function ShapeProduct(shape: ShapeLike): nat
  {
    match shape
    case Scalar(n) => n
    case Dims(dims) => Product(dims)
  }

  /** Shape normalisation: an integer becomes the one-element list, a
      sequence is kept as it is; normalising never changes the product. */
  function NormaliseShape(shape: ShapeLike): (dims: seq<nat>)
    ensures shape.Scalar? ==> dims == [shape.n]
    ensures shape.Dims? ==> dims == shape.dims
    ensures Product(dims) == ShapeProduct(shape)
  {
    match shape
    case Scalar(n) => [n]
    case Dims(dims) => dims
  }

  /** A component descriptor: the engine identity and name, the element type
      and the normalised shape of one row. */
  datatype Component = Component(raw: Id, name: string, dtype: ElemType, shape: seq<nat>)
  {
    /** `_nbytes`: the bytes one row occupies. */
    function NBytes(): nat
    {
      Product(shape) * dtype.itemsize
    }
  }

  /** `Component.__init__`: keeps the dtype, normalises the shape. */
  function MakeComponent(raw: Id, name: string, dtype: ElemType, shape: ShapeLike): (c: Component)
    ensures c.raw == raw && c.name == name && c.dtype == dtype
    ensures c.shape == NormaliseShape(shape)
    ensures c.NBytes() == ShapeProduct(shape) * dtype.itemsize
  {
    Component(raw, name, dtype, NormaliseShape(shape))
  }

  /** A numpy array seen as storage: element type, shape and its bytes in C order. */
  datatype NdArray = NdArray(dtype: ElemType, shape: seq<nat>, bytes: seq<byte>)

  /** The bytes of an array are exactly its elements times the item size. */
  predicate WellFormed(a: NdArray)
  {
    |a.bytes| == Product(a.shape) * a.dtype.itemsize
  }

  /** `buffer.nbytes // _nbytes`; numpy's integer floor division by zero gives 0. */
  function RowCount(nbytes: nat, rowBytes: nat): nat
  {
    if rowBytes == 0 then 0 else nbytes / rowBytes
  }

  /** A buffer length is a whole number of rows (an empty row fits only an empty buffer). */
  predicate WholeRows(rowBytes: nat, nbytes: nat)
  {
    if rowBytes == 0 then nbytes == 0 else nbytes % rowBytes == 0
  }

  lemma DivExact(x: nat, d: nat, k: nat)
    requires d > 0 && x == k * d
    ensures x / d == k && x % d == 0
  {
    var q, r := x / d, x % d;
    assert x == q * d + r && 0 <= r < d;
    if q < k {
      MulMono(q + 1, k, d);
      assert false;
    } else if q > k {
      MulMono(k + 1, q, d);
      assert false;
    }
  }

  lemma MulMono(a: nat, b: nat, d: nat)
    requires a <= b
    ensures a * d <= b * d
  {
  }

  lemma ProductCons(n: nat, dims: seq<nat>)
    ensures Product([n] + dims) == n * Product(dims)
  {
    assert ([n] + dims)[1..] == dims;
  }

  /** The numpy steps of `create_view` succeed exactly when the buffer holds a
      whole number of rows. */
  lemma ViewSucceedsIffWholeRows(nb: nat, p: nat, s: nat)
    requires s > 0
    ensures (nb % s == 0 && RowCount(nb, p * s) * p == nb / s) <==> WholeRows(p * s, nb)
  {
    var rows := RowCount(nb, p * s);
    if p == 0 {
      assert p * s == 0 && rows == 0;
      if nb % s == 0 && nb / s == 0 {
        assert nb == s * (nb / s) + nb % s;
      }
      if nb == 0 { DivExact(0, s, 0); }
    } else {
      var n := p * s;
      assert n > 0 by { MulPos(p, s); }
      if nb % s == 0 && rows * p == nb / s {
        assert nb == (nb / s) * s;
        assert nb == rows * n by { MulAssoc(rows, p, s); }
        DivExact(nb, n, rows);
      }
      if nb % n == 0 {
        assert nb == rows * n;
        MulAssoc(rows, p, s);
        DivExact(nb, s, rows * p);
      }
    }
  }

  lemma MulPos(a: nat, b: nat)
    requires a > 0 && b > 0
    ensures a * b > 0
  {
  }

  lemma MulAssoc(a: nat, b: nat, c: nat)
    ensures a * (b * c) == (a * b) * c
  {
  }

  /** `create_view`: reinterpret the bytes as the component's dtype, then
      reshape to `(rows, *shape)`. Succeeds exactly when the buffer is a whole
      number of rows and the shape is not empty. For an empty shape `np.prod`
      yields the float 1.0, so the row count is a float: the view step still
      refuses a buffer that is not whole elements, and otherwise the reshape
      raises TypeError. The view keeps the very bytes it was given. */
  function CreateView(c: Component, buffer: seq<byte>): (r: Result<NdArray>)
    ensures r.Success? <==> c.shape != [] && WholeRows(c.NBytes(), |buffer|)
    ensures r.Failure? && c.shape == [] && |buffer| % c.dtype.itemsize == 0 ==> r.error == TypeError
    ensures r.Failure? && !(c.shape == [] && |buffer| % c.dtype.itemsize == 0) ==> r.error == ViewError
    ensures r.Success? ==> r.value.dtype == c.dtype && r.value.bytes == buffer
    ensures r.Success? ==> r.value.shape == [RowCount(|buffer|, c.NBytes())] + c.shape
    ensures r.Success? ==> WellFormed(r.value)
  {
    ViewSucceedsIffWholeRows(|buffer|, Product(c.shape), c.dtype.itemsize);
    var rows := RowCount(|buffer|, c.NBytes());
    if c.shape == [] then
      (if |buffer| % c.dtype.itemsize != 0 then Failure(ViewError) else Failure(TypeError))
    else if |buffer| % c.dtype.itemsize != 0 then Failure(ViewError)
    else if rows * Product(c.shape) != |buffer| / c.dtype.itemsize then Failure(ViewError)
    else
      ProductCons(rows, c.shape);
      assert |buffer| == rows * c.NBytes() by {
        if c.NBytes() == 0 { } else { assert |buffer| % c.NBytes() == 0; }
      }
      MulAssoc(rows, Product(c.shape), c.dtype.itemsize);
      Success(NdArray(c.dtype, [rows] + c.shape, buffer))
  }

  /** A buffer of exactly k rows yields a view with exactly k rows. */
  lemma {:induction false} CreateViewRows(c: Component, buffer: seq<byte>, k: nat)
    requires c.shape != [] && c.NBytes() > 0 && |buffer| == k * c.NBytes()
    ensures CreateView(c, buffer).Success?
    ensures CreateView(c, buffer).value.shape[0] == k
  {
    DivExact(|buffer|, c.NBytes(), k);
  }

  /** `a[i]` on the leading axis: the i-th row, an array of the remaining
      dimensions over that row's slice of the bytes. */
  function Row(a: NdArray, i: nat): (r: Result<NdArray>)
    requires WellFormed(a) && a.shape != []
    ensures r.Success? <==> i < a.shape[0]
    ensures r.Success? ==> r.value.dtype == a.dtype && r.value.shape == a.shape[1..]
    ensures r.Success? ==> WellFormed(r.value)
    ensures r.Success? ==> 0 <= i * RowBytes(a) && i * RowBytes(a) + RowBytes(a) <= |a.bytes|
    ensures r.Success? ==> r.value.bytes == a.bytes[i * RowBytes(a) .. i * RowBytes(a) + RowBytes(a)]
  {
    if i < a.shape[0] then
      RowsFit(a, i);
      Success(NdArray(a.dtype, a.shape[1..], a.bytes[i * RowBytes(a) .. i * RowBytes(a) + RowBytes(a)]))
    else Failure(IndexError)
  }

  /** The bytes of one row of an array. */
  function RowBytes(a: NdArray): nat
    requires a.shape != []
  {
    Product(a.shape[1..]) * a.dtype.itemsize
  }

  lemma RowsFit(a: NdArray, i: nat)
    requires WellFormed(a) && a.shape != [] && i < a.shape[0]
    ensures 0 <= i * RowBytes(a) && i * RowBytes(a) + RowBytes(a) <= |a.bytes|
  {
    assert a.shape == [a.shape[0]] + a.shape[1..];
    ProductCons(a.shape[0], a.shape[1..]);
    MulAssoc(a.shape[0], Product(a.shape[1..]), a.dtype.itemsize);
    MulMono(i + 1, a.shape[0], RowBytes(a));
  }

  /** `create_view(buffer)[0]`: the first row of the buffer viewed as the component. */
  function FirstRow(c: Component, buffer: seq<byte>): Result<NdArray>
  {
    match CreateView(c, buffer)
    case Failure(e) => Failure(e)
    case Success(view) => Row(view, 0)
  }

  /** Reading back the bytes of an array of the component's dtype whose
      bytes are one or more whole rows gives the first row; when the array
      has the component's own shape that row is the array itself. */
  lemma {:induction false} FirstRowOfStoredValue(c: Component, v: NdArray, k: nat)
    requires v.dtype == c.dtype && c.shape != [] && c.NBytes() > 0
    requires k > 0 && |v.bytes| == k * c.NBytes()
    ensures FirstRow(c, v.bytes).Success?
    ensures FirstRow(c, v.bytes).value == NdArray(c.dtype, c.shape, v.bytes[..c.NBytes()])
  {
    CreateViewRows(c, v.bytes, k);
    var view := CreateView(c, v.bytes).value;
    assert view.shape[1..] == c.shape;
    assert RowBytes(view) == c.NBytes();
  }

  /** The round trip `get(set(value)) == value` for a value of the
      component's dtype and shape. */
  lemma {:induction false} FirstRowRoundTrip(c: Component, v: NdArray)
    requires v.dtype == c.dtype && v.shape == c.shape && WellFormed(v)
    requires c.shape != [] && c.NBytes() > 0
    ensures FirstRow(c, v.bytes) == Success(v)
  {
    FirstRowOfStoredValue(c, v, 1);
    assert v.bytes[..c.NBytes()] == v.bytes;
  }
}
