/** The input distributions of bench.py: lists of one element type each
    (floats, small integers, latin strings), three of them extended by one
    sentinel that forces a different comparison path, and `tuplify`, which
    boxes every element in a one-element tuple. */
module ShapeLists {
  import opened Ranges
  import opened Random

  /** The Python values these lists hold. */
  datatype Value = Float(x: real) | Int(i: int) | Text(s: string) | Tuple(item: Value)

  /** One catalog entry per generator. */
  datatype Kind = Floats | SmallInts | Ints | LatinStrings | Strings | Heterogeneous

  /** The label each generator is registered under. */
  function Label(kind: Kind): string
  {
    match kind
    case Floats => "float"
    case SmallInts => "small_int"
    case Ints => "int"
    case LatinStrings => "latin_string"
    case Strings => "string"
    case Heterogeneous => "heterogeneous"
  }

  /** The `funcs` list, in registration order. */
  const Catalog: seq<Kind> := [Floats, SmallInts, Ints, LatinStrings, Strings, Heterogeneous]

  /** The keys of both result maps. */
  function Labels(): set<string>
  {
    set kind | kind in Catalog :: Label(kind)
  }

  lemma LabelInjective(a: Kind, b: Kind)
    ensures Label(a) == Label(b) ==> a == b
  {
    if Label(a) == Label(b) {
      assert Label(a)[..2] == Label(b)[..2];
    }
  }

  /** str(x) for a float: the formatting is not part of this model. */
  type Format = real -> string

  /** int(v): truncation toward zero. */
  function Truncate(v: real): (r: int)
    ensures 0.0 <= v ==> r as real <= v < r as real + 1.0
    ensures v < 0.0 ==> r as real - 1.0 < v <= r as real
  {
    if 0.0 <= v then v.Floor else -((-v).Floor)
  }

  /** int(2**31*x - 2**30) for a draw x of random(). Since x is k / 2**53,
      the product and the difference are exact in double precision, so real
      arithmetic gives the same value. */
  function SmallInt(x: real): (r: int)
    requires 0.0 <= x < 1.0
    ensures -0x4000_0000 <= r < 0x4000_0000
  {
    Truncate(0x8000_0000 as real * x - 0x4000_0000 as real)
  }

  /** float_list(n): n draws of random(). */
  function FloatList(o: Oracle, n: int): (r: seq<Value>)
    ensures |r| == Count(n)
    ensures forall i :: 0 <= i < |r| ==> r[i].Float? && 0.0 <= r[i].x < 1.0
  {
    seq(Count(n), i requires 0 <= i < Count(n) => Float(Random01(o, Seed(n).After(i))))
  }

  /** small_int_list(n): n integers of [-2**30, 2**30), one per draw. */
  function SmallIntList(o: Oracle, n: int): (r: seq<Value>)
    ensures |r| == Count(n)
    ensures forall i :: 0 <= i < |r| ==> r[i].Int? && -0x4000_0000 <= r[i].i < 0x4000_0000
  {
    seq(Count(n), i requires 0 <= i < Count(n) => Int(SmallInt(Random01(o, Seed(n).After(i)))))
  }

  /** int_list(n): small_int_list(n) and then 2**64, the one element too large
      for a 64-bit machine word. */
  function IntList(o: Oracle, n: int): (r: seq<Value>)
    ensures |r| == Count(n) + 1 && r[..Count(n)] == SmallIntList(o, n)
    ensures forall i :: 0 <= i < Count(n) ==> r[i].Int? && -0x8000_0000_0000_0000 <= r[i].i < 0x8000_0000_0000_0000
    ensures r[Count(n)].Int? && r[Count(n)].i >= 0x8000_0000_0000_0000
  {
    SmallIntList(o, n) + [Int(0x1_0000_0000_0000_0000)]
  }

  /** latin_string_list(n): the text of n draws of random(). */
  function LatinStringList(o: Oracle, format: Format, n: int): (r: seq<Value>)
    ensures |r| == Count(n)
    ensures forall i :: 0 <= i < |r| ==> r[i] == Text(format(Random01(o, Seed(n).After(i))))
  {
    seq(Count(n), i requires 0 <= i < Count(n) => Text(format(Random01(o, Seed(n).After(i)))))
  }

  /** The sentinel string_list appends: the single character U+FFFF. */
  const MaxBmpText: string := ['\U{FFFF}']

  /** string_list(n): latin_string_list(n) and then the one-character string U+FFFF. */
  function StringList(o: Oracle, format: Format, n: int): (r: seq<Value>)
    ensures |r| == Count(n) + 1 && r[..Count(n)] == LatinStringList(o, format, n)
    ensures r[Count(n)] == Text(MaxBmpText)
  {
    LatinStringList(o, format, n) + [Text(MaxBmpText)]
  }

  /** heterogeneous_list(n): float_list(n) and then the integer 0, the only
      element that is not a float. */
  function HeterogeneousList(o: Oracle, n: int): (r: seq<Value>)
    ensures |r| == Count(n) + 1 && r[..Count(n)] == FloatList(o, n)
    ensures forall i :: 0 <= i < Count(n) ==> r[i].Float?
    ensures r[Count(n)] == Int(0)
  {
    FloatList(o, n) + [Int(0)]
  }

  /** Length of a generated list: n, plus one for a list with a sentinel. */
  function Size(kind: Kind, n: int): nat
  {
    match kind
    case Ints | Strings | Heterogeneous => Count(n) + 1
    case _ => Count(n)
  }

  /** func(n) for the catalog entry `kind`. */
  function Generate(o: Oracle, format: Format, kind: Kind, n: int): (r: seq<Value>)
    ensures |r| == Size(kind, n)
  {
    match kind
    case Floats => FloatList(o, n)
    case SmallInts => SmallIntList(o, n)
    case Ints => IntList(o, n)
    case LatinStrings => LatinStringList(o, format, n)
    case Strings => StringList(o, format, n)
    case Heterogeneous => HeterogeneousList(o, n)
  }

  /** tuplify(L): every element boxed in a one-element tuple, in order. */
  function Tuplify(l: seq<Value>): (r: seq<Value>)
    ensures |r| == |l|
    ensures forall i :: 0 <= i < |r| ==> r[i].Tuple?
  {
    seq(|l|, i requires 0 <= i < |l| => Tuple(l[i]))
  }

  /** [t[0] for t in T]: the inverse of tuplify. */
  function Untuplify(t: seq<Value>): (r: seq<Value>)
    requires forall i :: 0 <= i < |t| ==> t[i].Tuple?
    ensures |r| == |t|
  {
    seq(|t|, i requires 0 <= i < |t| => t[i].item)
  }

  /** Unboxing every tuple of tuplify(L) gives L back: no element is lost,
      added or moved. */
  lemma TuplifyRoundTrip(l: seq<Value>)
    ensures Untuplify(Tuplify(l)) == l
  {
    var u := Untuplify(Tuplify(l));
    forall i | 0 <= i < |l|
      ensures u[i] == l[i]
    {
    }
  }
}
