# msgpack::object — a verified model

This project models the `msgpack::object` value model of msgpack-c. Its
behaviour is pinned down by the tests in `test/object.cpp`. The model covers:

- **The value tree** (module `MsgpackObject`, `object.dfy`). It is a tagged
  union over the MessagePack kinds: NIL, BOOLEAN, POSITIVE_INTEGER,
  NEGATIVE_INTEGER, DOUBLE, STR, BIN, ARRAY, MAP and EXT. The module also
  holds the primitive constructors (default, integer, bool, double) and the
  structural `operator==`. Comparing with a native scalar first wraps the
  scalar into an object.
- **Checked interpretation** `as<T>()` / `convert(T*)` (module `Conversion`,
  `conversion.dfy`).
  - Integer requests at every C++ width and signedness (LP64) succeed exactly
    when the value is in range.
  - bool and double requests succeed exactly when the kind matches. By the
    model's choice, string and byte-vector requests also accept only their
    own kind: STR for a string, BIN for a byte vector (see "Left out").
  - Requests for a vector, a `std::map` or `myclass` also need every part to
    convert. A vector needs an ARRAY whose every element converts. A map needs
    a MAP whose every key is STR and every value BIN. `myclass` needs an ARRAY
    of four elements, each of which converts to its field's type.
  - When a part does not convert, the first failing part in stored order
    decides the error.
  - Every other request fails with `TypeError(expected, actual)`, the model
    of `msgpack::type_error`.
- **The positional aggregate mapping of `myclass`** (module `MyClassMapping`,
  `myclass.dfy`). `MSGPACK_DEFINE(num, str, vec, map)` builds a 4-element
  ARRAY in declared field order.
  - The `std::map` is a strictly key-ordered sequence. It is packed in
    iteration order.
  - It is read back by inserting the entries one by one, so a later
    duplicate key overwrites an earlier one.
  - Building and then interpreting gives back the original aggregate.
- **Zones and the cross-zone deep copy** (module `Zones`, `zone.dfy`).
  - A `Zone` is a class with an id and an allocation counter. Every
    allocation is named by a `Handle(zone id, index)`.
  - A zone-bound object is a `Node` tree. Each compound node carries the
    handle of its payload's allocation.
  - `obj << m`, `obj1 << obj2` and `object(obj, zone)` are methods that
    change the zone and the `with_zone` object in place.
  - The copy has the same value as its source. Its handles are exactly the
    ones the destination zone hands out during the copy, in preorder. It
    shares no allocation with a source whose handles that zone had already
    issued.
  - Reading an object is modelled against the set of zones still alive. The
    copy survives the teardown of the source zone.
- **The tests themselves** (module `ObjectTests`, `scenarios.dfy`).
  - The value-level tests are lemmas whose postconditions are the test's
    expectations.
  - The four cross-zone tests are methods that perform the same steps on
    `Zone` and `ObjectWithZone` and assert every `EXPECT_EQ`/`EXPECT_NE`.
    These are `CrossZoneCopyTest`, `CrossZoneCopyConstructTest`,
    `CrossZoneCopyExtTest` and `CrossZoneCopyConstructExtTest`.

`myclass::operator==` (lines 19-22) compares the four fields. In the model it
is the built-in equality of the `MyClass` datatype. The map field is compared
as the ordered sequence of its entries, as `std::map::operator==` does.

An EXT block follows msgpack-c's `object_ext` layout:

- byte 0 of the allocated block is the type tag;
- the `size` payload bytes follow it.

The copy therefore duplicates `size + 1` bytes. In the ext tests the block is
`[1, 2]` with size 1, so the tag is 1 and the one payload byte is 2. Both
`ptr[0] == 1` and `ptr[1] == 2` on the copy are consequences of `DeepCopy`'s
contract. Neither reads past the block.

## Model

| member | source | states |
|---|---|---|
| MsgpackObject.KindOf | test/object.cpp:228-247 | `obj.type`: the discriminant of each variant; the constructors' contracts and ConstructPrimitiveTest pin the kind each constructor gives |
| MsgpackObject.IsNil | test/object.cpp:190-194 | `is_nil()` holds exactly when the kind is NIL; Default and IsNilTest show it holds of a default object |
| MsgpackObject.Default | test/object.cpp:190-194 | a default-constructed object is NIL, so `is_nil()` holds, and it is primitive |
| MsgpackObject.FromInt | test/object.cpp:233-239 | `object(n)` is POSITIVE_INTEGER when n >= 0 and NEGATIVE_INTEGER otherwise, and holds n |
| MsgpackObject.IntegerValue | test/object.cpp:233-239 | an integer object's value is within int64/uint64 range, and it is non-negative exactly for POSITIVE_INTEGER |
| MsgpackObject.FromBool | test/object.cpp:245-247 | `object(true)` is BOOLEAN with the given payload |
| MsgpackObject.FromDouble | test/object.cpp:241-243 | `object(d)` is DOUBLE with payload d |
| MsgpackObject.Equal | test/object.cpp:209-225 | `operator==` on two objects: same kind, same scalar payload, and for ARRAY and MAP equal lengths and pairwise equal elements (keys then values); EqualIsStructural proves this is identity of the value trees |
| MsgpackObject.EqualsInt | test/object.cpp:214-216 | `obj == n` wraps n into an object first; EqualsIntMeans gives its meaning |
| MsgpackObject.EqualsBool | test/object.cpp:222-224 | `obj == b` wraps b into an object first; EqualsBoolMeans gives its meaning |
| MsgpackObject.EqualsDouble | test/object.cpp:218-220 | `obj == d` wraps d into an object first; EqualsDoubleMeans gives its meaning |
| MsgpackObject.EqualIsStructural | test/object.cpp:209-225 | `operator==` holds exactly when the two value trees are identical, at every depth (both directions) |
| MsgpackObject.EqualReflexiveSymmetric | test/object.cpp:211-215 | every object equals itself, and equality is symmetric |
| MsgpackObject.EqualsIntMeans | test/object.cpp:214-216 | `obj == n` holds exactly when obj is an integer-kind object holding n |
| MsgpackObject.EqualsBoolMeans | test/object.cpp:222-224 | `obj == b` holds exactly when obj is BOOLEAN holding b |
| MsgpackObject.EqualsDoubleMeans | test/object.cpp:218-220 | `obj == d` holds exactly when obj is DOUBLE holding the same payload |
| MsgpackObject.DefaultsAreEqualNil | test/object.cpp:211-212 | a default object has kind NIL, is nil, and equals another default object |
| Conversion.MinOf | test/object.cpp:202-205 | the least value of each C++ integer type lies between INT64_MIN and 0 |
| Conversion.MaxOf | test/object.cpp:202-205 | the greatest value of each C++ integer type lies between 1 and UINT64_MAX |
| Conversion.AsInt | test/object.cpp:199-205 | `as<T>` for an integer type succeeds iff the object is of integer kind and its value is in T's range; it then yields that value, which builds back to the object; otherwise it fails with a type error naming T and the actual kind |
| Conversion.AsBool | test/object.cpp:245-247 | `as<bool>` succeeds iff the kind is BOOLEAN, yields the payload, and otherwise fails with a type error |
| Conversion.AsDouble | test/object.cpp:14 | `as<double>` succeeds iff the kind is DOUBLE, yields the payload, and otherwise fails with a type error |
| Conversion.AsString | test/object.cpp:200 | `as<std::string>` succeeds iff the kind is STR, yields its bytes, and otherwise fails with a type error |
| Conversion.AsCharVector | test/object.cpp:15 | `as<std::vector<char>>` succeeds iff the kind is BIN, yields its bytes, and otherwise fails with a type error |
| Conversion.AsEach | test/object.cpp:201 | element-wise conversion succeeds iff every element converts, and then the results match pointwise; on failure the error is the first failing element's |
| Conversion.AsVector | test/object.cpp:201 | `as<std::vector<T>>` succeeds iff the object is an ARRAY all of whose elements convert; a non-ARRAY fails with a type error naming its kind |
| Conversion.AsIntOfFromInt | test/object.cpp:202-205 | an integer object read back at any width that holds its value yields that value |
| Conversion.IntegerKindRejectsOtherTargets | test/object.cpp:199-201 | an integer-kind object fails with a type error as a string, a byte vector, any vector, a bool or a double |
| MyClassMapping.Less | test/object.cpp:15 | `std::string`'s `<`, which orders the keys of the `std::map`: lexicographic over unsigned bytes, a proper prefix first; LessIrreflexive, LessTransitive, LessTotal and LessAsymmetric prove it a strict total order |
| MyClassMapping.LessIrreflexive | test/object.cpp:15 | no string orders strictly before itself |
| MyClassMapping.LessTransitive | test/object.cpp:15 | the string order is transitive |
| MyClassMapping.LessTotal | test/object.cpp:15 | of two different strings, one orders before the other |
| MyClassMapping.LessAsymmetric | test/object.cpp:15 | the string order is asymmetric |
| MyClassMapping.Insert | test/object.cpp:70 | `m[k] = v` binds k to v, keeps every other binding, and keeps keys unique and ascending |
| MyClassMapping.InsertKeys | test/object.cpp:70 | after `m[k] = v` the key set is the old key set plus k |
| MyClassMapping.InsertAbove | test/object.cpp:70 | inserting a key greater than every present key appends it |
| MyClassMapping.DefaultMyClass | test/object.cpp:5 | `myclass()` has num 0, str "default", and an empty vec and map |
| MyClassMapping.NewMyClass | test/object.cpp:7-8 | `myclass(num, str)` holds num and str, with an empty vec and map |
| MyClassMapping.Pack | test/object.cpp:17 | a myclass builds a 4-element ARRAY whose elements read back as num (int), str (STR), vec (ARRAY of DOUBLE) and map (MAP of STR to BIN in iteration order) |
| MyClassMapping.AsEntries | test/object.cpp:15 | reading a MAP as the std::map succeeds iff every key is STR and every value is BIN; on failure the error is the first bad entry's, its key checked before its value |
| MyClassMapping.AsEntriesKeys | test/object.cpp:15 | the keys of the map read from a MAP are exactly the STR keys among its entries |
| MyClassMapping.AsEntriesLastWins | test/object.cpp:15 | each binding of the map read from a MAP is an entry of the MAP with no later entry for the same key, so a later duplicate overwrites an earlier one |
| MyClassMapping.AsStrMap | test/object.cpp:15 | a non-MAP fails with a type error; a MAP is read entry by entry |
| MyClassMapping.Convert | test/object.cpp:42 | `convert(&m)` succeeds iff the object is a 4-element ARRAY whose four elements each read as their field's type, and then each field is what its element reads as; any other shape fails with a type error naming the aggregate; otherwise the error is the first field's that does not read, in the order num, str, vec, map |
| MyClassMapping.ConvertOverwritesAllFields | test/object.cpp:41-42 | the result of `convert` does not depend on the instance converted into |
| MyClassMapping.AsMyClass | test/object.cpp:58 | `as<myclass>` of a non-ARRAY fails with a type error |
| MyClassMapping.AsEntriesOfPack | test/object.cpp:15-17 | reading back the MAP built from a std::map gives the same map |
| MyClassMapping.ConvertOfPack | test/object.cpp:31-45 | converting the array built from m into any instance gives m |
| MyClassMapping.AsMyClassOfPack | test/object.cpp:48-59 | `as<myclass>` of the array built from m gives m |
| Zones.RunMembers | test/object.cpp:145 | the handles a zone issues between two counter values belong to that zone and have indices in that range |
| Zones.RunAvoidsEarlierHandles | test/object.cpp:85-96 | handles a zone issues after a point are not reachable from a node whose handles of that zone all came before it |
| Zones.ViewShape | test/object.cpp:82-84 | a node's value fixes its kind and, for STR, BIN, ARRAY and MAP, the values of its parts |
| Zones.Read | test/object.cpp:97-99 | an object can be read only while every zone holding one of its allocations is alive; OutlivesOtherZones and CrossZoneCopyTest show the copy stays readable and the source does not |
| Zones.OutlivesOtherZones | test/object.cpp:97-99 | a node allocated wholly in one zone still reads as its value after any other zone is torn down |
| Zones.Zone.constructor | test/object.cpp:72 | a new zone has its id and has made no allocation |
| Zones.Zone.Allocate | test/object.cpp:145 | an allocation is the handle (zone id, counter), and the counter advances by one |
| Zones.DeepCopy | test/object.cpp:80 | the copy has the source's value; its handles are exactly those the zone issued during the copy, in preorder; it shares no allocation with a source whose handles were already issued |
| Zones.CopyElems | test/object.cpp:85-87 | an array's elements are deep-copied in order into consecutive allocations |
| Zones.CopyPairs | test/object.cpp:88-96 | a map's entries are deep-copied in order into consecutive allocations |
| Zones.CopyPair | test/object.cpp:91-96 | one entry's key and then its value are deep-copied |
| Zones.PackString | test/object.cpp:78 | a std::string builds a STR in one new allocation |
| Zones.PackCharVector | test/object.cpp:78 | a std::vector<char> builds a BIN in one new allocation |
| Zones.PackDoubleVector | test/object.cpp:78 | a std::vector<double> builds an ARRAY of DOUBLE in one new allocation |
| Zones.PackStrMap | test/object.cpp:78 | a std::map builds a MAP in iteration order, allocating the entries, then each key and value |
| Zones.PackMyClass | test/object.cpp:78 | a myclass builds the value `Pack` describes, using only new allocations of the zone |
| Zones.ObjectWithZone.constructor | test/object.cpp:73 | a `with_zone` object starts NIL and bound to its zone |
| Zones.ObjectWithZone.PackFrom | test/object.cpp:78 | `obj << m` makes the object the array built from m, backed only by its own zone |
| Zones.ObjectWithZone.CopyFrom | test/object.cpp:80 | `obj1 << obj2` makes the object a deep copy of obj2, backed only by its own zone and sharing no allocation with obj2 |
| Zones.CopyConstruct | test/object.cpp:118 | `object(obj2, z1)` is a deep copy of obj2 in z1, with the same guarantees as `<<` |
| ObjectTests.CrossZoneSample | test/object.cpp:63-70 | m1 built as in the test, with `m1.map["one"] = vc` as `Insert` into the empty map: num 1, str "custom", vec [1.0, 0.1], and the single entry "one" to 't','w','o' |
| ObjectTests.ConvertAndAsTest | test/object.cpp:31-59 | `convert` and `as<myclass>` give back `myclass(1, "custom")` |
| ObjectTests.IsNilTest | test/object.cpp:190-194 | a default object is nil |
| ObjectTests.TypeErrorTest | test/object.cpp:197-206 | `object(1)` fails as a string and as a vector of int, and reads as 1 via int, short, unsigned int and unsigned long |
| ObjectTests.EqualPrimitiveTest | test/object.cpp:209-225 | default, 1, 1.2 and true each equal the object built the same way and the scalar itself |
| ObjectTests.ConstructPrimitiveTest | test/object.cpp:228-247 | the kinds and payloads of the default object and of `object(1)`, `object(-1)`, `object(1.2)` and `object(true)` |
| ObjectTests.CrossZoneCopyTest | test/object.cpp:61-100 | runs `obj2 << m1` and `obj1 << obj2` across two zones; asserts the three reads, the four allocation inequalities, that obj2 is unreadable once z2 is gone, and that obj1 still reads as m1 |
| ObjectTests.CrossZoneCopyConstructTest | test/object.cpp:102-136 | the same with `object obj1(obj2, z1)`: the three reads, the four inequalities and the round trip to m1 |
| ObjectTests.CrossZoneCopyExtTest | test/object.cpp:138-159 | an EXT of size 1 over the block [1, 2], copied with `<<`, keeps size 1, byte 0 == 1 and byte 1 == 2, in a different allocation |
| ObjectTests.CrossZoneCopyConstructExtTest | test/object.cpp:161-181 | the same EXT copied with `object obj2(obj1, z2)` |
| ObjectTests.SampleValue | test/object.cpp:63-70 | the sample builds a vec element holding 1.0 and 0.1 and a map element holding the one entry "one" to 't','w','o' |
| ObjectTests.SampleLayout | test/object.cpp:82-84 | in any node holding the sample, element 2 is an ARRAY whose first element is 1.0; element 3's first key is a STR starting 'o', and its first value is a BIN starting 't'; all these allocations are reachable from the node |

## Left out

- The byte-level codec is not modelled: `msgpack::sbuffer`, `msgpack::pack` and `msgpack::unpack` (test/object.cpp:35-39, 52-56). The convert and as tests build the object directly from the aggregate and then interpret it.
- Stream printing is not modelled: `operator<<(std::ostream&, const myclass&)` (lines 25-28) and `TEST(object, print)` (lines 183-187). It is I/O.
- Floating point is not modelled. A DOUBLE payload is an opaque 64-bit pattern compared by identity. Nothing converts between integers and doubles, and the model does not reason about NaN or signed zero.
- Zone internals are not modelled: chunk growth, alignment in `allocate_align`, finalizers and allocation failure. A zone only hands out fresh, zone-tagged handles. The size of an allocation is not recorded.
- Memory layout is left out. Each compound node has exactly one allocation, and its elements live inside that node rather than in a separate contiguous block. Handle inequality stands for address inequality.
- Zone lifetime is a set of live zone ids passed to `Read`. C++ scope-based destruction is not modelled. Each zone gets its id from its constructor argument.
- C++ exceptions become `Failure(TypeError(...))`. `EXPECT_THROW` becomes a `Failure?` postcondition.
- Conversion.AsString: only the STR kind is accepted as a source for `std::string`. Whether the library also accepts BIN is not shown in the tests.
- MyClassMapping.Convert: an ARRAY whose length is not 4 is rejected. The tests do not show how the library treats a shorter or longer array.
- Conversion.AsCharVector: only the BIN kind is accepted as a source for `std::vector<char>`. Whether the library also accepts STR is not shown in the tests, so `AsEntries` likewise rejects a MAP whose values are STR.
- MyClassMapping.Convert: the order num, str, vec, map in which a failing field decides the error is the model's own; the tests do not fix it, and `msgpack::type_error` carries no payload. A failed `convert` returns only the error: the partial overwrite of the target's fields before the failure is not modelled.
- MyClassMapping.AsMyClass: states only the non-ARRAY failure. Its success case is the same as `Convert` into `myclass()`, and its round trip is `AsMyClassOfPack`.
- The gtest harness is left out. Each TEST is a lemma or a method of `ObjectTests`.
