/**
 * Checked interpretation of an object as a native C++ type: object::as<T>()
 * and object::convert(T*). A request whose type does not fit the object's
 * kind, or an integer request whose range does not hold the value, fails with
 * msgpack::type_error, modelled here as a Failure.
 */
module Conversion {
  import opened Wrappers
  import opened MsgpackObject

  /** The C++ integer types an object can be read as (LP64 widths). */
  datatype IntType =
    | SignedChar | UnsignedChar
    | Short | UnsignedShort
    | Int | UnsignedInt
    | Long | UnsignedLong
    | LongLong | UnsignedLongLong

  function MinOf(t: IntType): (m: int)
    ensures INT64_MIN <= m <= 0
  {
    match t
    case SignedChar => -0x80
    case Short => -0x8000
    case Int => -0x8000_0000
    case Long => -0x8000_0000_0000_0000
    case LongLong => -0x8000_0000_0000_0000
    case _ => 0
  }

  function MaxOf(t: IntType): (m: int)
    ensures 0 < m <= UINT64_MAX
  {
    match t
    case SignedChar => 0x7F
    case UnsignedChar => 0xFF
    case Short => 0x7FFF
    case UnsignedShort => 0xFFFF
    case Int => 0x7FFF_FFFF
    case UnsignedInt => 0xFFFF_FFFF
    case Long => 0x7FFF_FFFF_FFFF_FFFF
    case UnsignedLong => 0xFFFF_FFFF_FFFF_FFFF
    case LongLong => 0x7FFF_FFFF_FFFF_FFFF
    case UnsignedLongLong => 0xFFFF_FFFF_FFFF_FFFF
  }

  /** The native type that was requested, named in the error for diagnosis. */
  datatype Target =
    | IntegerTarget(t: IntType)
    | BooleanTarget
    | DoubleTarget
    | StringTarget
    | CharVectorTarget
    | VectorTarget
    | MapTarget
    | AggregateTarget(arity: nat)

  /** msgpack::type_error: what was asked for and what kind was found. */
  datatype Error = TypeError(expected: Target, actual: Kind)

  /**
   * as<T>() for an integer type T: succeeds exactly when the object is of an
   * integer kind and its value lies in T's range, and then yields that value.
   */
  function AsInt(o: Object, t: IntType): (r: Result<int, Error>)
    ensures r.Success? <==> IsInteger(o) && MinOf(t) <= IntegerValue(o) <= MaxOf(t)
    ensures r.Success? ==> MinOf(t) <= r.value <= MaxOf(t) && FromInt(r.value) == o
    ensures r.Failure? ==> r.error == TypeError(IntegerTarget(t), KindOf(o))
  {
    match o
    case PositiveInteger(u) =>
      if u <= MaxOf(t) then Success(u) else Failure(TypeError(IntegerTarget(t), POSITIVE_INTEGER))
    case NegativeInteger(i) =>
      if MinOf(t) <= i then Success(i) else Failure(TypeError(IntegerTarget(t), NEGATIVE_INTEGER))
    case _ => Failure(TypeError(IntegerTarget(t), KindOf(o)))
  }

  /** as<bool>() */
  function AsBool(o: Object): (r: Result<bool, Error>)
    ensures r.Success? <==> KindOf(o) == BOOLEAN
    ensures r.Success? ==> FromBool(r.value) == o
    ensures r.Failure? ==> r.error == TypeError(BooleanTarget, KindOf(o))
  {
    if o.Boolean? then Success(o.boolean) else Failure(TypeError(BooleanTarget, KindOf(o)))
  }

  /** as<double>() */
  function AsDouble(o: Object): (r: Result<Double, Error>)
    ensures r.Success? <==> KindOf(o) == DOUBLE
    ensures r.Success? ==> FromDouble(r.value) == o
    ensures r.Failure? ==> r.error == TypeError(DoubleTarget, KindOf(o))
  {
    if o.Float? then Success(o.dec) else Failure(TypeError(DoubleTarget, KindOf(o)))
  }

  /** as<std::string>(): the bytes of a STR object. */
  function AsString(o: Object): (r: Result<seq<byte>, Error>)
    ensures r.Success? <==> KindOf(o) == STR
    ensures r.Success? ==> Str(r.value) == o
    ensures r.Failure? ==> r.error == TypeError(StringTarget, KindOf(o))
  {
    if o.Str? then Success(o.str) else Failure(TypeError(StringTarget, KindOf(o)))
  }

  /** as<std::vector<char>>(): the bytes of a BIN object. */
  function AsCharVector(o: Object): (r: Result<seq<byte>, Error>)
    ensures r.Success? <==> KindOf(o) == BIN
    ensures r.Success? ==> Bin(r.value) == o
    ensures r.Failure? ==> r.error == TypeError(CharVectorTarget, KindOf(o))
  {
    if o.Bin? then Success(o.bin) else Failure(TypeError(CharVectorTarget, KindOf(o)))
  }

  /**
   * Converts the elements of an array one by one, in order; the first element
   * that does not convert decides the error.
   */
  function AsEach<T>(os: seq<Object>, elem: Object -> Result<T, Error>): (r: Result<seq<T>, Error>)
    ensures r.Success? <==> forall i :: 0 <= i < |os| ==> elem(os[i]).Success?
    ensures r.Success? ==> |r.value| == |os| && forall i :: 0 <= i < |os| ==> elem(os[i]) == Success(r.value[i])
    ensures r.Failure? ==>
      exists k :: 0 <= k < |os| && elem(os[k]) == Failure(r.error) &&
                  forall j :: 0 <= j < k ==> elem(os[j]).Success?
  {
    if os == [] then Success([])
    else
      var init :- AsEach(os[..|os| - 1], elem);
      var last :- elem(os[|os| - 1]);
      Success(init + [last])
  }

  /** as<std::vector<T>>(), given how to read one T. */
  function AsVector<T>(o: Object, elem: Object -> Result<T, Error>): (r: Result<seq<T>, Error>)
    ensures r.Success? <==> o.Array? && forall i :: 0 <= i < |o.elems| ==> elem(o.elems[i]).Success?
    ensures r.Success? ==> |r.value| == |o.elems| && forall i :: 0 <= i < |o.elems| ==> elem(o.elems[i]) == Success(r.value[i])
    ensures !o.Array? ==> r == Failure(TypeError(VectorTarget, KindOf(o)))
  {
    if o.Array? then AsEach(o.elems, elem) else Failure(TypeError(VectorTarget, KindOf(o)))
  }

  /** as<int>() and friends, ready to be passed as an element reader. */
  function IntReader(t: IntType): Object -> Result<int, Error> {
    o => AsInt(o, t)
  }

  /** Reading an integer object back at any width that holds it gives the integer it was built from. */
  lemma {:induction false} AsIntOfFromInt(n: int, t: IntType)
    requires MinOf(t) <= n <= MaxOf(t)
    ensures AsInt(FromInt(n), t) == Success(n)
  {
    assert IntegerValue(FromInt(n)) == n;
  }

  /**
   * An integer-kind object is not a character sequence, a byte vector, a
   * vector of anything, a bool or a double: each of those requests fails with
   * a type error naming the integer kind.
   */
  lemma IntegerKindRejectsOtherTargets<T>(o: Object, elem: Object -> Result<T, Error>)
    requires IsInteger(o)
    ensures AsString(o) == Failure(TypeError(StringTarget, KindOf(o)))
    ensures AsCharVector(o) == Failure(TypeError(CharVectorTarget, KindOf(o)))
    ensures AsVector(o, elem) == Failure(TypeError(VectorTarget, KindOf(o)))
    ensures AsBool(o).Failure? && AsDouble(o).Failure?
  {
  }
}
