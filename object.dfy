/**
 * The msgpack::object value model: a tagged union over the MessagePack type
 * system (nil, boolean, positive and negative integer, float, str, bin, array,
 * map, ext), its primitive constructors and its structural equality.
 *
 * This module sees an object as a value. Where its compound payloads live (the
 * zone that owns them) is the business of module Zones.
 */
module MsgpackObject {

  type byte = x: int | 0 <= x < 0x100

  /** Payload of POSITIVE_INTEGER (via.u64). */
  type uint64 = x: int | 0 <= x < 0x1_0000_0000_0000_0000

  /** Payload of NEGATIVE_INTEGER (via.i64): always strictly negative. */
  type NegInt64 = x: int | -0x8000_0000_0000_0000 <= x < 0 witness -1

  const INT64_MIN: int := -0x8000_0000_0000_0000
  const UINT64_MAX: int := 0xFFFF_FFFF_FFFF_FFFF

  /** A 64-bit floating-point payload, kept as its bit pattern and compared by identity. */
  datatype Double = Double(bits: bv64)

  /** msgpack::type: the discriminant of an object. */
  datatype Kind = NIL | BOOLEAN | POSITIVE_INTEGER | NEGATIVE_INTEGER | DOUBLE | STR | BIN | ARRAY | MAP | EXT

  datatype Object =
    | Nil
    | Boolean(boolean: bool)
    | PositiveInteger(u64: uint64)
    | NegativeInteger(i64: NegInt64)
    | Float(dec: Double)
    | Str(str: seq<byte>)
    | Bin(bin: seq<byte>)
    | Array(elems: seq<Object>)
    | Map(entries: seq<KeyValue>)
    | Ext(tag: byte, data: seq<byte>)

  /** One entry of a MAP; entries keep their stored order and may repeat keys. */
  datatype KeyValue = KeyValue(key: Object, val: Object)

  function KindOf(o: Object): Kind {
    match o
    case Nil => NIL
    case Boolean(_) => BOOLEAN
    case PositiveInteger(_) => POSITIVE_INTEGER
    case NegativeInteger(_) => NEGATIVE_INTEGER
    case Float(_) => DOUBLE
    case Str(_) => STR
    case Bin(_) => BIN
    case Array(_) => ARRAY
    case Map(_) => MAP
    case Ext(_, _) => EXT
  }

  /** object::is_nil() */
  predicate IsNil(o: Object) {
    KindOf(o) == NIL
  }

  /** The kinds that carry no zone-allocated payload. */
  predicate IsPrimitive(o: Object) {
    o.Nil? || o.Boolean? || o.PositiveInteger? || o.NegativeInteger? || o.Float?
  }

  predicate IsInteger(o: Object) {
    o.PositiveInteger? || o.NegativeInteger?
  }

  /** A default-constructed object. */
  function Default(): (r: Object)
    ensures IsNil(r) && IsPrimitive(r)
  {
    Nil
  }

  /**
   * object(n) for any C++ integer n (so n fits in int64 or uint64): the sign of
   * the value, not the width of its type, picks the discriminant.
   */
  function FromInt(n: int): (r: Object)
    requires INT64_MIN <= n <= UINT64_MAX
    ensures KindOf(r) == (if n >= 0 then POSITIVE_INTEGER else NEGATIVE_INTEGER)
    ensures IsInteger(r) && IntegerValue(r) == n
  {
    if n >= 0 then PositiveInteger(n) else NegativeInteger(n)
  }

  /** The integer an integer-kind object stands for (via.u64 or via.i64). */
  function IntegerValue(o: Object): (n: int)
    requires IsInteger(o)
    ensures INT64_MIN <= n <= UINT64_MAX
    ensures n >= 0 <==> o.PositiveInteger?
  {
    if o.PositiveInteger? then o.u64 else o.i64
  }

  /** object(b) for a bool. */
  function FromBool(b: bool): (r: Object)
    ensures KindOf(r) == BOOLEAN && r.boolean == b
  {
    Boolean(b)
  }

  /** object(d) for a double. */
  function FromDouble(d: Double): (r: Object)
    ensures KindOf(r) == DOUBLE && r.dec == d
  {
    Float(d)
  }

  /**
   * operator==(object, object): objects of different kinds are unequal; arrays
   * and maps compare their lengths and then their elements (for maps, key and
   * value of each entry) pairwise in stored order.
   */
  predicate Equal(a: Object, b: Object) {
    match a
    case Nil => b.Nil?
    case Boolean(x) => b.Boolean? && b.boolean == x
    case PositiveInteger(u) => b.PositiveInteger? && b.u64 == u
    case NegativeInteger(i) => b.NegativeInteger? && b.i64 == i
    case Float(d) => b.Float? && b.dec == d
    case Str(s) => b.Str? && b.str == s
    case Bin(s) => b.Bin? && b.bin == s
    case Ext(t, d) => b.Ext? && b.tag == t && b.data == d
    case Array(xs) =>
      b.Array? && |xs| == |b.elems| &&
      forall i :: 0 <= i < |xs| ==> Equal(xs[i], b.elems[i])
    case Map(ps) =>
      b.Map? && |ps| == |b.entries| &&
      forall i :: 0 <= i < |ps| ==> Equal(ps[i].key, b.entries[i].key) && Equal(ps[i].val, b.entries[i].val)
  }

  /** operator==(object, T) for an integer: the scalar is first wrapped into an object. */
  predicate EqualsInt(o: Object, n: int)
    requires INT64_MIN <= n <= UINT64_MAX
  {
    Equal(o, FromInt(n))
  }

  /** operator==(object, bool) */
  predicate EqualsBool(o: Object, b: bool) {
    Equal(o, FromBool(b))
  }

  /** operator==(object, double) */
  predicate EqualsDouble(o: Object, d: Double) {
    Equal(o, FromDouble(d))
  }

  /** Equality is exactly structural identity of the value trees, at every depth. */
  lemma {:induction false} EqualIsStructural(a: Object, b: Object)
    ensures Equal(a, b) <==> a == b
    decreases a
  {
    match a
    case Array(xs) =>
      if b.Array? && |xs| == |b.elems| {
        forall i | 0 <= i < |xs| ensures Equal(xs[i], b.elems[i]) <==> xs[i] == b.elems[i] {
          EqualIsStructural(xs[i], b.elems[i]);
        }
        if Equal(a, b) {
          assert xs == b.elems;
        }
      }
    case Map(ps) =>
      if b.Map? && |ps| == |b.entries| {
        forall i | 0 <= i < |ps|
          ensures (Equal(ps[i].key, b.entries[i].key) && Equal(ps[i].val, b.entries[i].val)) <==> ps[i] == b.entries[i]
        {
          EqualIsStructural(ps[i].key, b.entries[i].key);
          EqualIsStructural(ps[i].val, b.entries[i].val);
        }
        if Equal(a, b) {
          assert ps == b.entries;
        }
      }
    case _ =>
  }

  /** Equality is an equivalence: every object equals itself, in both directions. */
  lemma EqualReflexiveSymmetric(a: Object, b: Object)
    ensures Equal(a, a)
    ensures Equal(a, b) <==> Equal(b, a)
  {
    EqualIsStructural(a, a);
    EqualIsStructural(a, b);
    EqualIsStructural(b, a);
  }

  /** obj == n holds exactly when obj is an integer-kind object holding n. */
  lemma EqualsIntMeans(o: Object, n: int)
    requires INT64_MIN <= n <= UINT64_MAX
    ensures EqualsInt(o, n) <==> IsInteger(o) && IntegerValue(o) == n
  {
    EqualIsStructural(o, FromInt(n));
  }

  /** obj == b holds exactly when obj is the BOOLEAN object holding b. */
  lemma EqualsBoolMeans(o: Object, b: bool)
    ensures EqualsBool(o, b) <==> o.Boolean? && o.boolean == b
  {
    EqualIsStructural(o, FromBool(b));
  }

  /** obj == d holds exactly when obj is the DOUBLE object holding the same payload. */
  lemma EqualsDoubleMeans(o: Object, d: Double)
    ensures EqualsDouble(o, d) <==> o.Float? && o.dec == d
  {
    EqualIsStructural(o, FromDouble(d));
  }

  /** Two default-constructed objects are NIL and equal. */
  lemma DefaultsAreEqualNil()
    ensures KindOf(Default()) == NIL && IsNil(Default())
    ensures Equal(Default(), Default())
  {
  }
}
