/**
 * The object tests, stated against the model: each pure test is a lemma whose
 * postconditions are the test's expectations, and each test that builds
 * objects in zones is a method that runs the same steps and asserts them.
 */
module ObjectTests {
  import opened Wrappers
  import opened MsgpackObject
  import opened Conversion
  import opened MyClassMapping
  import opened Zones

  /** The IEEE 754 bit patterns of 1.0, 0.1 and 1.2. */
  const ONE_POINT_ZERO: Double := Double(0x3FF0_0000_0000_0000)
  const ZERO_POINT_ONE: Double := Double(0x3FB9_9999_9999_999A)
  const ONE_POINT_TWO: Double := Double(0x3FF3_3333_3333_3333)

  /** The bytes "custom", "one" and 't', 'w', 'o'. */
  const CUSTOM: seq<byte> := [0x63, 0x75, 0x73, 0x74, 0x6F, 0x6D]
  const KEY_ONE: seq<byte> := [0x6F, 0x6E, 0x65]
  const CHARS_TWO: seq<byte> := [0x74, 0x77, 0x6F]

  /**
   * m1 of the cross-zone tests, built step by step: `myclass(1, "custom")`, two
   * `push_back`s onto vec, then `map["one"] = {'t','w','o'}` on the empty map.
   */
  function CrossZoneSample(): (m: MyClass)
    ensures m.num == 1 && m.str == CUSTOM
    ensures m.vec == [ONE_POINT_ZERO, ZERO_POINT_ONE]
    ensures m.dict == [CharsEntry(KEY_ONE, CHARS_TWO)]
  {
    var m0 := NewMyClass(1, CUSTOM);
    InsertAbove(m0.dict, KEY_ONE, CHARS_TWO);
    m0.(vec := m0.vec + [ONE_POINT_ZERO] + [ZERO_POINT_ONE], dict := Insert(m0.dict, KEY_ONE, CHARS_TWO))
  }

  /** TEST(object, convert) and TEST(object, as), with the wire codec replaced by building the object directly. */
  lemma ConvertAndAsTest()
    ensures Convert(Pack(NewMyClass(1, CUSTOM)), DefaultMyClass()) == Success(NewMyClass(1, CUSTOM))
    ensures AsMyClass(Pack(NewMyClass(1, CUSTOM))) == Success(NewMyClass(1, CUSTOM))
  {
    ConvertOfPack(NewMyClass(1, CUSTOM), DefaultMyClass());
    AsMyClassOfPack(NewMyClass(1, CUSTOM));
  }

  /** TEST(object, is_nil) */
  lemma IsNilTest()
    ensures IsNil(Default())
  {
  }

  /** TEST(object, type_error) */
  lemma TypeErrorTest()
    ensures AsString(FromInt(1)).Failure?
    ensures AsVector(FromInt(1), IntReader(Int)).Failure?
    ensures AsInt(FromInt(1), Int) == Success(1)
    ensures AsInt(FromInt(1), Short) == Success(1)
    ensures AsInt(FromInt(1), UnsignedInt) == Success(1)
    ensures AsInt(FromInt(1), UnsignedLong) == Success(1)
  {
    IntegerKindRejectsOtherTargets(FromInt(1), IntReader(Int));
  }

  /** TEST(object, equal_primitive) */
  lemma EqualPrimitiveTest()
    ensures Equal(Default(), Default())
    ensures Equal(FromInt(1), FromInt(1)) && EqualsInt(FromInt(1), 1)
    ensures Equal(FromDouble(ONE_POINT_TWO), FromDouble(ONE_POINT_TWO)) && EqualsDouble(FromDouble(ONE_POINT_TWO), ONE_POINT_TWO)
    ensures Equal(FromBool(true), FromBool(true)) && EqualsBool(FromBool(true), true)
  {
  }

  /** TEST(object, construct_primitive) */
  lemma ConstructPrimitiveTest()
    ensures KindOf(Default()) == NIL
    ensures KindOf(FromInt(1)) == POSITIVE_INTEGER && FromInt(1).u64 == 1
    ensures KindOf(FromInt(-1)) == NEGATIVE_INTEGER && FromInt(-1).i64 == -1
    ensures KindOf(FromDouble(ONE_POINT_TWO)) == DOUBLE && FromDouble(ONE_POINT_TWO).dec == ONE_POINT_TWO
    ensures KindOf(FromBool(true)) == BOOLEAN && FromBool(true).boolean
  {
  }

  /** The object built from the sample: its vec and map elements. */
  lemma SampleValue()
    ensures Pack(CrossZoneSample()).elems[2] == Array([Float(ONE_POINT_ZERO), Float(ZERO_POINT_ONE)])
    ensures Pack(CrossZoneSample()).elems[3] == Map([KeyValue(Str(KEY_ONE), Bin(CHARS_TWO))])
  {
    var m := CrossZoneSample();
    assert Pack(m).elems[2].elems == [Float(ONE_POINT_ZERO), Float(ZERO_POINT_ONE)];
    assert Pack(m).elems[3].entries == [KeyValue(Str(KEY_ONE), Bin(CHARS_TWO))];
  }

  /**
   * Where the tests look inside a node holding the sample: element 2 is the vec
   * array holding 1.0 first, and element 3 is the map whose first key is a STR
   * starting with 'o' and whose first value is a BIN starting with 't'.
   */
  lemma SampleLayout(n: Node)
    requires WellFormed(n) && View(n) == Pack(CrossZoneSample())
    ensures n.ArrayNode? && |n.elems| == 4
    ensures n.elems[2].ArrayNode? && |n.elems[2].elems| == 2 && n.elems[2].elems[0] == Scalar(Float(ONE_POINT_ZERO))
    ensures n.elems[3].MapNode? && |n.elems[3].pairs| == 1
    ensures n.elems[3].pairs[0].key.StrNode? && n.elems[3].pairs[0].key.str == KEY_ONE
    ensures n.elems[3].pairs[0].key.str[0] == 0x6F
    ensures n.elems[3].pairs[0].val.BinNode? && n.elems[3].pairs[0].val.bin == CHARS_TWO
    ensures n.elems[3].pairs[0].val.bin[0] == 0x74
    ensures SampleReaches(n)
  {
    SampleValue();
    ViewShape(n);
    var vec, dict := n.elems[2], n.elems[3];
    ViewShape(vec);
    ViewShape(dict);
    ViewShape(vec.elems[0]);
    ViewShape(dict.pairs[0].key);
    ViewShape(dict.pairs[0].val);
    ReachesNested(n);
  }

  /** The allocations the cross-zone tests compare are all reachable from the node. */
  predicate SampleReaches(n: Node)
    requires n.ArrayNode? && |n.elems| == 4 && n.elems[2].ArrayNode? && n.elems[3].MapNode? && |n.elems[3].pairs| == 1
    requires n.elems[3].pairs[0].key.StrNode? && n.elems[3].pairs[0].val.BinNode?
  {
    n.elems[2].h in Handles(n) && n.elems[3].h in Handles(n) &&
    n.elems[3].pairs[0].key.h in Handles(n) && n.elems[3].pairs[0].val.h in Handles(n)
  }

  lemma ReachesNested(n: Node)
    requires n.ArrayNode? && |n.elems| == 4 && n.elems[2].ArrayNode? && n.elems[3].MapNode? && |n.elems[3].pairs| == 1
    requires n.elems[3].pairs[0].key.StrNode? && n.elems[3].pairs[0].val.BinNode?
    ensures SampleReaches(n)
  {
    var dict := n.elems[3];
    HandlesOfSeqContains(n.elems, 2);
    HandlesOfSeqContains(n.elems, 3);
    HandlesOfPairsContains(dict.pairs, 0);
    assert dict.pairs[0].key.h in Handles(dict.pairs[0].key) && dict.pairs[0].val.h in Handles(dict.pairs[0].val);
    assert dict.pairs[0].key.h in Handles(dict) && dict.pairs[0].val.h in Handles(dict);
  }

  /** TEST(object, cross_zone_copy): `obj1 << obj2` with obj2 built from m1 in a zone that is then destroyed. */
  method CrossZoneCopyTest() {
    var m1 := CrossZoneSample();
    var z1 := new Zone(1);
    var obj1 := new ObjectWithZone(z1);

    var z2 := new Zone(2);
    var live := {z1.id, z2.id};
    var obj2 := new ObjectWithZone(z2);
    obj2.PackFrom(m1);
    ghost var mark := z1.next;
    obj1.CopyFrom(obj2.root);

    SampleLayout(obj1.root);
    SampleLayout(obj2.root);
    assert obj1.root.elems[2].h != obj2.root.elems[2].h;
    assert obj1.root.elems[3].h != obj2.root.elems[3].h;
    assert obj1.root.elems[3].pairs[0].key.h != obj2.root.elems[3].pairs[0].key.h;
    assert obj1.root.elems[3].pairs[0].val.h != obj2.root.elems[3].pairs[0].val.h;

    // z2 goes out of scope: obj2 can no longer be read, the copy still can.
    OutlivesOtherZones(obj1.root, z1.id, mark, z1.next, live, z2.id);
    live := live - {z2.id};
    assert obj2.root.elems[2].h.zone !in live;
    assert Read(obj2.root, live) == None;
    AsMyClassOfPack(m1);
    assert AsMyClass(Read(obj1.root, live).value) == Success(m1);
  }

  /** TEST(object, cross_zone_copy_construct): `object obj1(obj2, z1)`. */
  method CrossZoneCopyConstructTest() {
    var m1 := CrossZoneSample();
    var z1 := new Zone(1);
    var z2 := new Zone(2);
    var obj2 := new ObjectWithZone(z2);
    obj2.PackFrom(m1);

    var obj1 := CopyConstruct(obj2.root, z1);

    SampleLayout(obj1);
    SampleLayout(obj2.root);
    assert obj1.elems[2].h != obj2.root.elems[2].h;
    assert obj1.elems[3].h != obj2.root.elems[3].h;
    assert obj1.elems[3].pairs[0].key.h != obj2.root.elems[3].pairs[0].key.h;
    assert obj1.elems[3].pairs[0].val.h != obj2.root.elems[3].pairs[0].val.h;
    AsMyClassOfPack(m1);
    assert AsMyClass(View(obj1)) == Success(m1);
  }

  /** TEST(object, cross_zone_copy_ext): an EXT whose block holds type 1 and payload byte 2, copied with `<<`. */
  method CrossZoneCopyExtTest() {
    var z1 := new Zone(1);
    var z2 := new Zone(2);
    var obj1 := new ObjectWithZone(z1);
    var ptr := z1.Allocate();
    obj1.root := ExtNode(ptr, 1, [1, 2]);

    var obj2 := new ObjectWithZone(z2);
    obj2.CopyFrom(obj1.root);
    assert View(obj2.root) == Ext(1, [2]);
    assert obj2.root.ExtNode? && obj2.root.size == 1;
    assert obj2.root.raw[0] == 1 && obj2.root.raw[1] == 2;
    assert obj2.root.h in Handles(obj2.root) && ptr in Handles(obj1.root);
    assert obj1.root.h != obj2.root.h;
  }

  /** TEST(object, cross_zone_copy_construct_ext): the same EXT copied with `object obj2(obj1, z2)`. */
  method CrossZoneCopyConstructExtTest() {
    var z1 := new Zone(1);
    var z2 := new Zone(2);
    var obj1 := new ObjectWithZone(z1);
    var ptr := z1.Allocate();
    obj1.root := ExtNode(ptr, 1, [1, 2]);

    var obj2 := CopyConstruct(obj1.root, z2);
    assert View(obj2) == Ext(1, [2]);
    assert obj2.ExtNode? && obj2.size == 1;
    assert obj2.raw[0] == 1 && obj2.raw[1] == 2;
    assert obj2.h in Handles(obj2) && ptr in Handles(obj1.root);
    assert obj1.root.h != obj2.h;
  }
}
