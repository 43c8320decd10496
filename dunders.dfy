/**
 * The six successive `Point` classes of the dunder-method script. Each
 * variant adds one special method on top of the previous one, and from the
 * fourth on the coordinates are stored as `_x`/`_y` instead of `x`/`y`.
 *
 * A point is a value: the variant, an identity standing for the Python
 * object's `id`, and the two coordinates. Python's attribute lookup is
 * modelled by `Attr`, so that a method reading an attribute the object does
 * not have fails with `AttributeError` exactly as in the source.
 */
module Dunders {
  import opened Wrappers

  /** Which of the six `Point` definitions an object was made from, in source order. */
  datatype Variant =
    | Printable     // __repr__, __str__
    | Addable       // + __add__
    | Comparable    // + __eq__ (and, by Python's rule, no __hash__)
    | Hashable      // + __hash__, coordinates stored as _x, _y
    | ContextPoint  // + __enter__, __exit__
    | CallablePoint // + __call__

  /** A `Point` object: identity, class and the two coordinates given to `__init__`. */
  datatype Point = Point(id: nat, variant: Variant, x: int, y: int)

  /** The first three variants store `x`, `y`; the later ones `_x`, `_y`. */
  predicate Underscored(v: Variant) {
    v == Hashable || v == ContextPoint || v == CallablePoint
  }

  /** Instance attribute lookup on a point; `None` when the object has no such attribute. */
  function Attr(p: Point, name: string): (r: Option<int>)
    ensures r.Some? <==> (name in {"x", "y"} && !Underscored(p.variant)) ||
                         (name in {"_x", "_y"} && Underscored(p.variant))
    ensures r.Some? ==> r.value == (if name in {"x", "_x"} then p.x else p.y)
  {
    if Underscored(p.variant) then
      if name == "_x" then Some(p.x) else if name == "_y" then Some(p.y) else None
    else
      if name == "x" then Some(p.x) else if name == "y" then Some(p.y) else None
  }

  /** The attribute names a variant's methods read for the two coordinates. */
  function XName(v: Variant): string { if Underscored(v) then "_x" else "x" }
  function YName(v: Variant): string { if Underscored(v) then "_y" else "y" }

  /** Every variant's own methods find its own coordinates. */
  lemma OwnAttributesExist(p: Point)
    ensures Attr(p, XName(p.variant)) == Some(p.x)
    ensures Attr(p, YName(p.variant)) == Some(p.y)
  {
  }

  /**
   * `p + q`: the first variant has no `__add__`, so the addition is a
   * `TypeError`; the others return the tuple of the coordinate sums, reading
   * `q`'s coordinates by the attribute names `p`'s class uses.
   */
  function Add(p: Point, q: Point): (r: Result<(int, int)>)
    ensures p.variant == Printable ==> r == Failure(TypeError)
    ensures p.variant != Printable && Underscored(p.variant) == Underscored(q.variant) ==>
              r == Success((p.x + q.x, p.y + q.y))
    ensures p.variant != Printable && Underscored(p.variant) != Underscored(q.variant) ==>
              r == Failure(AttributeError)
  {
    if p.variant == Printable then Failure(TypeError)
    else
      match (Attr(q, XName(p.variant)), Attr(q, YName(p.variant)))
      case (Some(qx), Some(qy)) => Success((p.x + qx, p.y + qy))
      case _ => Failure(AttributeError)
  }

  /** Addition of two points of one variant is commutative. */
  lemma AddCommutes(p: Point, q: Point)
    requires p.variant == q.variant
    ensures Add(p, q) == Add(q, p)
  {
  }

  /** The classes from the third variant on define `__eq__`; the first two inherit `object.__eq__`. */
  predicate DefinesEq(v: Variant) {
    v != Printable && v != Addable
  }

  /**
   * The `__eq__` of `p`'s class called with `q`: compares the coordinates,
   * reading `q`'s by the attribute names `p`'s class uses.
   */
  function OwnEq(p: Point, q: Point): (r: Result<bool>)
    requires DefinesEq(p.variant)
    ensures Underscored(p.variant) == Underscored(q.variant) ==> r == Success(p.x == q.x && p.y == q.y)
    ensures Underscored(p.variant) != Underscored(q.variant) ==> r == Failure(AttributeError)
  {
    match (Attr(q, XName(p.variant)), Attr(q, YName(p.variant)))
    case (Some(qx), Some(qy)) => Success(p.x == qx && p.y == qy)
    case _ => Failure(AttributeError)
  }

  /**
   * `p == q`. Python calls `p`'s `__eq__` first, and its answer or its
   * exception is the result. The first two variants inherit `object.__eq__`,
   * which is true for the very same object and otherwise declines; Python
   * then calls the reflected `q.__eq__(p)`, and falls back to identity only
   * when `q`'s class does not define `__eq__` either. The six classes are
   * unrelated, so the reflected call is never tried first.
   */
  function Equals(p: Point, q: Point): (r: Result<bool>)
    ensures DefinesEq(p.variant) && Underscored(p.variant) == Underscored(q.variant) ==>
              r == Success(p.x == q.x && p.y == q.y)
    ensures DefinesEq(p.variant) && Underscored(p.variant) != Underscored(q.variant) ==>
              r == Failure(AttributeError)
    ensures !DefinesEq(p.variant) && !DefinesEq(q.variant) ==> r == Success(p.id == q.id)
    ensures !DefinesEq(p.variant) && p.id != q.id && q.variant == Comparable ==>
              r == Success(p.x == q.x && p.y == q.y)
    ensures !DefinesEq(p.variant) && p.id != q.id && Underscored(q.variant) ==>
              r == Failure(AttributeError)
  {
    if DefinesEq(p.variant) then OwnEq(p, q)
    else if p.id == q.id then Success(true)
    else if DefinesEq(q.variant) then OwnEq(q, p)
    else Success(false)
  }

  /**
   * `==` is reflexive and, between distinct objects or one object, symmetric:
   * the reflected call makes a first- or second-variant point on the left
   * answer as the other point's `__eq__` does. The requirement says that
   * one identity is one object.
   */
  lemma EqualsReflexiveAndSymmetric(p: Point, q: Point)
    requires p.id == q.id ==> p == q
    ensures Equals(p, p) == Success(true)
    ensures Equals(p, q) == Equals(q, p)
  {
  }

  /**
   * Mixed comparisons: a first-variant point equals a third-variant point
   * with the same coordinates, in either order, and comparing it with a
   * fourth-variant point raises `AttributeError`, in either order.
   */
  lemma MixedEqualsDemo()
    ensures Equals(Point(0, Printable, 5, 5), Point(1, Comparable, 5, 5)) == Success(true)
    ensures Equals(Point(1, Comparable, 5, 5), Point(0, Printable, 5, 5)) == Success(true)
    ensures Equals(Point(0, Printable, 5, 5), Point(1, Hashable, 5, 5)) == Failure(AttributeError)
    ensures Equals(Point(1, Hashable, 5, 5), Point(0, Printable, 5, 5)) == Failure(AttributeError)
  {
  }

  /** From the third variant on, `==` is reflexive and symmetric on points of one layout. */
  lemma EqualsReflexiveSymmetric(p: Point, q: Point)
    requires DefinesEq(p.variant) && DefinesEq(q.variant)
    requires Underscored(p.variant) == Underscored(q.variant)
    ensures Equals(p, p) == Success(true)
    ensures Equals(p, q) == Equals(q, p)
    ensures Equals(p, q) == Success(true) <==> p.x == q.x && p.y == q.y
  {
  }

  /**
   * `hash(p)`: the inherited identity hash for the first two variants, none
   * for the third (a class defining `__eq__` without `__hash__` is
   * unhashable), and the hash of the coordinate tuple from the fourth on.
   * Python's hash functions are parameters.
   */
  function Hash(p: Point, idHash: nat -> int, tupleHash: (int, int) -> int): (r: Result<int>)
    ensures p.variant == Comparable <==> r == Failure(TypeError)
    ensures Underscored(p.variant) ==> r == Success(tupleHash(p.x, p.y))
    ensures (p.variant == Printable || p.variant == Addable) ==> r == Success(idHash(p.id))
  {
    match p.variant
    case Printable => Success(idHash(p.id))
    case Addable => Success(idHash(p.id))
    case Comparable => Failure(TypeError)
    case _ => Success(tupleHash(p.x, p.y))
  }

  /**
   * Points that compare equal and are both hashable have the same hash. The
   * first requirement says that one identity is one object.
   */
  lemma EqualPointsHashEqually(p: Point, q: Point, idHash: nat -> int, tupleHash: (int, int) -> int)
    requires p.id == q.id ==> p == q
    requires Equals(p, q) == Success(true)
    requires Hash(p, idHash, tupleHash).Success? && Hash(q, idHash, tupleHash).Success?
    ensures Hash(p, idHash, tupleHash) == Hash(q, idHash, tupleHash)
  {
    if !Underscored(p.variant) && p.variant != Comparable {
      assert p == q;
    }
  }

  /** The dictionary demonstration: a third-variant point cannot be a key, a fourth-variant point can. */
  lemma DictKeyDemo(idHash: nat -> int, tupleHash: (int, int) -> int)
    ensures Hash(Point(0, Comparable, 5, 5), idHash, tupleHash) == Failure(TypeError)
    ensures Hash(Point(1, Hashable, 5, 5), idHash, tupleHash) == Success(tupleHash(5, 5))
  {
  }

  /**
   * `p(val)`: only the last variant is callable; it returns the x coordinate
   * for "X" or "x", the y coordinate for "Y" or "y", and `None` otherwise.
   */
  function Call(p: Point, val: string): (r: Result<Option<int>>)
    ensures p.variant != CallablePoint <==> r == Failure(TypeError)
    ensures p.variant == CallablePoint ==>
              r == Success(if val == "X" || val == "x" then Some(p.x)
                           else if val == "Y" || val == "y" then Some(p.y)
                           else None)
  {
    if p.variant != CallablePoint then Failure(TypeError)
    else if val == "X" || val == "x" then Success(Attr(p, "_x"))
    else if val == "Y" || val == "y" then Success(Attr(p, "_y"))
    else Success(None)
  }

  /** Calling a point with any other letter yields `None`. */
  lemma CallOtherIsNone(p: Point, val: string)
    requires p.variant == CallablePoint
    requires val !in {"X", "x", "Y", "y"}
    ensures Call(p, val) == Success(None)
  {
  }

  // ---------------------------------------------------------------------------
  // Rendering

  function DigitChar(d: nat): char
    requires d < 10
  {
    "0123456789"[d]
  }

  /** Python's `str` of a non-negative int: decimal, no leading zeros. */
  function NatToString(n: nat): (s: string)
    ensures |s| >= 1
    ensures forall i :: 0 <= i < |s| ==> '0' <= s[i] <= '9'
    ensures |s| > 1 ==> s[0] != '0'
    decreases n
  {
    if n < 10 then [DigitChar(n)] else NatToString(n / 10) + [DigitChar(n % 10)]
  }

  /** Python's `str` of an int. */
  function IntToString(n: int): string {
    if n < 0 then "-" + NatToString(-n) else NatToString(n)
  }

  /** The value of a string of decimal digits. */
  function ParseNat(s: string): nat
    requires forall i :: 0 <= i < |s| ==> '0' <= s[i] <= '9'
    decreases |s|
  {
    if s == [] then 0 else ParseNat(s[..|s| - 1]) * 10 + (s[|s| - 1] - '0') as nat
  }

  /** The value of an optionally signed decimal string. */
  function ParseInt(s: string): int
    requires |s| >= 1 && (s[0] == '-' || '0' <= s[0] <= '9')
    requires forall i :: 1 <= i < |s| ==> '0' <= s[i] <= '9'
  {
    if s[0] == '-' then -(ParseNat(s[1..]) as int) else ParseNat(s)
  }

  /** Each digit character reads back as its digit. */
  lemma DigitCharValue(d: nat)
    requires d < 10
    ensures '0' <= DigitChar(d) <= '9' && (DigitChar(d) - '0') as nat == d
  {
  }

  /** Appending one digit multiplies the value by ten and adds the digit. */
  lemma ParseNatSnoc(prefix: string, d: nat)
    requires d < 10
    requires forall i :: 0 <= i < |prefix| ==> '0' <= prefix[i] <= '9'
    ensures var s := prefix + [DigitChar(d)];
            && (forall i :: 0 <= i < |s| ==> '0' <= s[i] <= '9')
            && ParseNat(s) == ParseNat(prefix) * 10 + d
  {
    var s := prefix + [DigitChar(d)];
    DigitCharValue(d);
    assert s[..|s| - 1] == prefix;
  }

  /** The decimal rendering of a natural number reads back as that number. */
  lemma {:induction false} ParseNatToString(n: nat)
    ensures ParseNat(NatToString(n)) == n
    decreases n
  {
    if n < 10 {
      ParseNatSnoc([], n);
      assert NatToString(n) == [] + [DigitChar(n)];
    } else {
      ParseNatToString(n / 10);
      ParseNatSnoc(NatToString(n / 10), n % 10);
    }
  }

  /** A minus sign followed by digits reads back as the negated digits. */
  lemma ParseNegative(digits: string)
    requires forall i :: 0 <= i < |digits| ==> '0' <= digits[i] <= '9'
    ensures var s := "-" + digits;
            && (forall i :: 1 <= i < |s| ==> '0' <= s[i] <= '9')
            && ParseInt(s) == -(ParseNat(digits) as int)
  {
    var s := "-" + digits;
    assert s[1..] == digits;
    assert forall i :: 1 <= i < |s| ==> s[i] == digits[i - 1];
  }

  /** The printable form `str` gives to an int, as `ParseInt` reads it. */
  predicate SignedDigits(s: string) {
    |s| >= 1 && (s[0] == '-' || '0' <= s[0] <= '9') &&
    (forall i :: 1 <= i < |s| ==> '0' <= s[i] <= '9')
  }

  /** A non-negative rendering is plain digits and reads back as the number. */
  lemma NonNegativeRoundTrip(n: nat)
    ensures SignedDigits(NatToString(n)) && ParseInt(NatToString(n)) == n
  {
    var digits := NatToString(n);
    ParseNatToString(n);
    assert digits[0] != '-';
  }

  /** A negative rendering is a minus sign and digits, and reads back as the number. */
  lemma NegativeRoundTrip(n: nat)
    requires n > 0
    ensures SignedDigits("-" + NatToString(n)) && ParseInt("-" + NatToString(n)) == -(n as int)
  {
    ParseNatToString(n);
    ParseNegative(NatToString(n));
  }

  /** The decimal rendering of an int reads back as the same int. */
  lemma IntToStringRoundTrip(n: int)
    ensures SignedDigits(IntToString(n)) && ParseInt(IntToString(n)) == n
  {
    if n < 0 {
      var m: nat := -n;
      NegativeRoundTrip(m);
      assert IntToString(n) == "-" + NatToString(m);
    } else {
      NonNegativeRoundTrip(n);
    }
  }

  /** `str(p)`: "(x, y)"; the last two variants read `self.x`, which they do not have. */
  function Str(p: Point): (r: Result<string>)
    ensures r.Failure? <==> p.variant == ContextPoint || p.variant == CallablePoint
    ensures r.Failure? ==> r.error == AttributeError
    ensures r.Success? ==> r.value == "(" + IntToString(p.x) + ", " + IntToString(p.y) + ")"
  {
    var field := if p.variant == ContextPoint || p.variant == CallablePoint then "x" else XName(p.variant);
    var yField := if p.variant == ContextPoint || p.variant == CallablePoint then "y" else YName(p.variant);
    match (Attr(p, field), Attr(p, yField))
    case (Some(px), Some(py)) => Success("(" + IntToString(px) + ", " + IntToString(py) + ")")
    case _ => Failure(AttributeError)
  }

  /** `repr(p)`: the class name, then "(x, y)"; it fails for the same two variants as `str`. */
  function Repr(p: Point): (r: Result<string>)
    ensures r.Failure? <==> Str(p).Failure?
    ensures r.Success? ==> r.value == "Point, " + Str(p).value
  {
    match Str(p)
    case Success(s) => Success("Point, " + s)
    case Failure(e) => Failure(e)
  }

  /** The first demonstration prints "(10, 20)" and "Point, (10, 20)". */
  lemma FirstPointDemo()
    ensures Str(Point(0, Printable, 10, 20)) == Success("(10, 20)")
    ensures Repr(Point(0, Printable, 10, 20)) == Success("Point, (10, 20)")
  {
    assert DigitChar(0) == '0' && DigitChar(1) == '1' && DigitChar(2) == '2';
    assert NatToString(10) == NatToString(1) + [DigitChar(0)] == "10";
    assert NatToString(20) == NatToString(2) + [DigitChar(0)] == "20";
    assert IntToString(10) == "10" && IntToString(20) == "20";
    assert "(" + "10" + ", " + "20" + ")" == "(10, 20)";
    assert "Point, " + "(10, 20)" == "Point, (10, 20)";
  }

  /** Adding the two points of the second demonstration gives the tuple (15, 15). */
  lemma AddDemo()
    ensures Add(Point(0, Addable, 5, 5), Point(1, Addable, 10, 10)) == Success((15, 15))
  {
  }

  /** The equality demonstration: only the point with both coordinates equal compares equal. */
  lemma EqualsDemo()
    ensures Equals(Point(1, Comparable, 5, 5), Point(2, Comparable, 5, 10)) == Success(false)
    ensures Equals(Point(1, Comparable, 5, 5), Point(3, Comparable, 10, 5)) == Success(false)
    ensures Equals(Point(1, Comparable, 5, 5), Point(4, Comparable, 5, 5)) == Success(true)
  {
  }

  /** The call demonstration: `c('X')` is 5 and `c('Y')` is 6. */
  lemma CallDemo()
    ensures Call(Point(0, CallablePoint, 5, 6), "X") == Success(Some(5))
    ensures Call(Point(0, CallablePoint, 5, 6), "Y") == Success(Some(6))
  {
  }
}
