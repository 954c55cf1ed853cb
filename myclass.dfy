/**
 * The positional aggregate mapping of the test type `myclass` (declared with
 * MSGPACK_DEFINE(num, str, vec, map)): building an object from it gives a
 * 4-element ARRAY in declared field order, and interpreting such an array gives
 * the aggregate back.
 *
 * Field types: `int` (int32), `std::string` (STR), `std::vector<double>` (ARRAY
 * of DOUBLE) and `std::map<std::string, std::vector<char>>` (MAP of STR to BIN,
 * in the map's iteration order, i.e. ascending keys).
 */
module MyClassMapping {
  import opened Wrappers
  import opened MsgpackObject
  import opened Conversion

  newtype int32 = x: int | -0x8000_0000 <= x < 0x8000_0000

  /** std::string's operator<: lexicographic over unsigned bytes, a proper prefix being smaller. */
  predicate Less(a: seq<byte>, b: seq<byte>) {
    |b| > 0 && (|a| == 0 || a[0] < b[0] || (a[0] == b[0] && Less(a[1..], b[1..])))
  }

  lemma {:induction false} LessIrreflexive(a: seq<byte>)
    ensures !Less(a, a)
  {
    if |a| > 0 {
      LessIrreflexive(a[1..]);
    }
  }

  lemma {:induction false} LessTransitive(a: seq<byte>, b: seq<byte>, c: seq<byte>)
    requires Less(a, b) && Less(b, c)
    ensures Less(a, c)
  {
    if |a| > 0 && a[0] == b[0] && b[0] == c[0] {
      LessTransitive(a[1..], b[1..], c[1..]);
    }
  }

  lemma {:induction false} LessTotal(a: seq<byte>, b: seq<byte>)
    requires a != b
    ensures Less(a, b) || Less(b, a)
  {
    if |a| > 0 && |b| > 0 && a[0] == b[0] {
      assert a == [a[0]] + a[1..] && b == [b[0]] + b[1..];
      LessTotal(a[1..], b[1..]);
    }
  }

  lemma LessAsymmetric(a: seq<byte>, b: seq<byte>)
    requires Less(a, b)
    ensures !Less(b, a)
  {
    if Less(b, a) {
      LessTransitive(a, b, a);
      LessIrreflexive(a);
    }
  }

  datatype CharsEntry = CharsEntry(key: seq<byte>, val: seq<byte>)

  predicate StrictlySorted(s: seq<CharsEntry>) {
    forall i, j :: 0 <= i < j < |s| ==> Less(s[i].key, s[j].key)
  }

  /** std::map<std::string, std::vector<char>>, in iteration order: keys unique and ascending. */
  type StrMap = s: seq<CharsEntry> | StrictlySorted(s)

  function Keys(s: seq<CharsEntry>): set<seq<byte>> {
    set e | e in s :: e.key
  }

  lemma SortedPrepend(e: CharsEntry, s: StrMap)
    requires forall x :: x in s ==> Less(e.key, x.key)
    ensures StrictlySorted([e] + s)
  {
    var r := [e] + s;
    forall i, j | 0 <= i < j < |r| ensures Less(r[i].key, r[j].key) {
      if i == 0 {
        assert r[j] in s;
      } else {
        assert r[i] == s[i - 1] && r[j] == s[j - 1];
      }
    }
  }

  /** Every entry after the first has a key above the first one's. */
  lemma TailAboveHead(s: StrMap)
    requires s != []
    ensures forall x :: x in s[1..] ==> Less(s[0].key, x.key)
  {
    forall x | x in s[1..] ensures Less(s[0].key, x.key) {
      var j :| 0 <= j < |s[1..]| && s[1..][j] == x;
      assert s[j + 1] == x;
    }
  }

  /** A key below the first key is below every key, so it is not present. */
  lemma BelowHead(s: StrMap, k: seq<byte>)
    requires s != [] && Less(k, s[0].key)
    ensures forall x :: x in s ==> Less(k, x.key) && x.key != k
  {
    TailAboveHead(s);
    LessIrreflexive(k);
    forall x | x in s ensures Less(k, x.key) && x.key != k {
      if x != s[0] {
        assert s == [s[0]] + s[1..];
        LessTransitive(k, s[0].key, x.key);
      }
    }
  }

  /**
   * `m[k] = v` on the map: k ends up bound to v, every other binding stays, and
   * the keys stay unique and ascending.
   */
  function Insert(s: StrMap, k: seq<byte>, v: seq<byte>): (r: StrMap)
    ensures forall e :: e in r <==> (e in s && e.key != k) || e == CharsEntry(k, v)
    decreases |s|
  {
    if s == [] then [CharsEntry(k, v)]
    else if s[0].key == k then
      TailAboveHead(s);
      SortedPrepend(CharsEntry(k, v), s[1..]);
      LessIrreflexive(k);
      assert s == [s[0]] + s[1..];
      [CharsEntry(k, v)] + s[1..]
    else if Less(k, s[0].key) then
      BelowHead(s, k);
      SortedPrepend(CharsEntry(k, v), s);
      [CharsEntry(k, v)] + s
    else
      LessTotal(k, s[0].key);
      TailAboveHead(s);
      var rest := Insert(s[1..], k, v);
      SortedPrepend(s[0], rest);
      assert s == [s[0]] + s[1..];
      [s[0]] + rest
  }

  /** After `m[k] = v` the keys are the old keys plus k. */
  lemma InsertKeys(s: StrMap, k: seq<byte>, v: seq<byte>)
    ensures Keys(Insert(s, k, v)) == Keys(s) + {k}
  {
    var r := Insert(s, k, v);
    forall x | x in Keys(s) + {k} ensures x in Keys(r) {
      if x != k {
        var e :| e in s && e.key == x;
        assert e in r;
      } else {
        assert CharsEntry(k, v) in r;
      }
    }
  }

  /** A key above the first key is inserted into the rest of the map. */
  lemma InsertPastHead(s: StrMap, k: seq<byte>, v: seq<byte>)
    requires s != [] && Less(s[0].key, k)
    ensures Insert(s, k, v) == [s[0]] + Insert(s[1..], k, v)
  {
    LessAsymmetric(s[0].key, k);
    LessIrreflexive(k);
  }

  /** Every key of `s` orders before k. */
  predicate AllBelow(s: seq<CharsEntry>, k: seq<byte>) {
    forall i :: 0 <= i < |s| ==> Less(s[i].key, k)
  }

  lemma AllBelowTail(s: StrMap, k: seq<byte>)
    requires s != [] && AllBelow(s, k)
    ensures Less(s[0].key, k) && AllBelow(s[1..], k) && StrictlySorted(s[1..])
  {
    assert forall i :: 0 <= i < |s| - 1 ==> s[1..][i] == s[i + 1];
  }

  /** Appending a key above every present key puts it at the end. */
  lemma {:induction false} InsertAbove(s: StrMap, k: seq<byte>, v: seq<byte>)
    requires AllBelow(s, k)
    ensures Insert(s, k, v) == s + [CharsEntry(k, v)]
    decreases |s|
  {
    if s != [] {
      AllBelowTail(s, k);
      var t: StrMap := s[1..];
      calc {
        Insert(s, k, v);
      == { InsertPastHead(s, k, v); }
        [s[0]] + Insert(t, k, v);
      == { InsertAbove(t, k, v); }
        [s[0]] + (t + [CharsEntry(k, v)]);
      == { assert s == [s[0]] + t; }
        s + [CharsEntry(k, v)];
      }
    }
  }

  /** myclass; the field `map` is called `dict` here, since `map` is a Dafny keyword. */
  datatype MyClass = MyClass(num: int32, str: seq<byte>, vec: seq<Double>, dict: StrMap)

  /** The bytes "default". */
  const DEFAULT_STR: seq<byte> := [0x64, 0x65, 0x66, 0x61, 0x75, 0x6C, 0x74]

  /** myclass(): num 0, str "default", empty vec and map. */
  function DefaultMyClass(): (m: MyClass)
    ensures m.num == 0 && m.str == DEFAULT_STR && m.vec == [] && m.dict == []
  {
    MyClass(0, DEFAULT_STR, [], [])
  }

  /** myclass(num, str): empty vec and map. */
  function NewMyClass(num: int32, str: seq<byte>): (m: MyClass)
    ensures m.num == num && m.str == str && m.vec == [] && m.dict == []
  {
    MyClass(num, str, [], [])
  }

  function PackDoubles(v: seq<Double>): seq<Object> {
    seq(|v|, i requires 0 <= i < |v| => Float(v[i]))
  }

  function PackEntries(s: seq<CharsEntry>): seq<KeyValue> {
    seq(|s|, i requires 0 <= i < |s| => KeyValue(Str(s[i].key), Bin(s[i].val)))
  }

  /**
   * Building an object from a myclass: an ARRAY of the four fields in declared
   * order, each field built by its own type's rule.
   */
  function Pack(m: MyClass): (o: Object)
    ensures o.Array? && |o.elems| == 4
    ensures AsInt(o.elems[0], Int) == Success(m.num as int)
    ensures AsString(o.elems[1]) == Success(m.str)
    ensures o.elems[2].Array? && |o.elems[2].elems| == |m.vec|
    ensures forall i :: 0 <= i < |m.vec| ==> AsDouble(o.elems[2].elems[i]) == Success(m.vec[i])
    ensures o.elems[3].Map? && |o.elems[3].entries| == |m.dict|
    ensures forall i :: 0 <= i < |m.dict| ==>
      AsString(o.elems[3].entries[i].key) == Success(m.dict[i].key) &&
      AsCharVector(o.elems[3].entries[i].val) == Success(m.dict[i].val)
  {
    AsIntOfFromInt(m.num as int, Int);
    Array([FromInt(m.num as int), Str(m.str), Array(PackDoubles(m.vec)), Map(PackEntries(m.dict))])
  }

  /** `kvs` has an entry binding e's key to e's value, and no later entry with that key. */
  predicate LastBinding(kvs: seq<KeyValue>, e: CharsEntry) {
    exists i :: 0 <= i < |kvs| && kvs[i] == KeyValue(Str(e.key), Bin(e.val)) &&
                forall j :: i < j < |kvs| ==> kvs[j].key != Str(e.key)
  }

  /** An entry of a MAP reads as a std::map binding: a STR key and a BIN value. */
  predicate EntryReads(kv: KeyValue) {
    KindOf(kv.key) == STR && KindOf(kv.val) == BIN
  }

  /** Why an entry does not read: its key is checked first, then its value. */
  function EntryError(kv: KeyValue): Error {
    if KindOf(kv.key) != STR then TypeError(StringTarget, KindOf(kv.key))
    else TypeError(CharVectorTarget, KindOf(kv.val))
  }

  /**
   * Interpreting a MAP as the std::map: each entry's key must be a STR and its
   * value a BIN; entries are inserted in stored order, so a later duplicate key
   * overwrites an earlier one.
   */
  function AsEntries(kvs: seq<KeyValue>): (r: Result<StrMap, Error>)
    ensures r.Success? <==> forall i :: 0 <= i < |kvs| ==> EntryReads(kvs[i])
    ensures r.Failure? ==>
      exists k :: 0 <= k < |kvs| && !EntryReads(kvs[k]) && r.error == EntryError(kvs[k]) &&
                  forall j :: 0 <= j < k ==> EntryReads(kvs[j])
  {
    if kvs == [] then Success([])
    else
      var init :- AsEntries(kvs[..|kvs| - 1]);
      var key :- AsString(kvs[|kvs| - 1].key);
      var val :- AsCharVector(kvs[|kvs| - 1].val);
      assert kvs == kvs[..|kvs| - 1] + [kvs[|kvs| - 1]];
      Success(Insert(init, key, val))
  }

  /** The keys of the STR-keyed entries of a MAP. */
  function StrKeys(kvs: seq<KeyValue>): set<seq<byte>> {
    set kv | kv in kvs && kv.key.Str? :: kv.key.str
  }

  lemma StrKeysSnoc(kvs: seq<KeyValue>, k: seq<byte>, val: Object)
    ensures StrKeys(kvs + [KeyValue(Str(k), val)]) == StrKeys(kvs) + {k}
  {
    var last := KeyValue(Str(k), val);
    assert last in kvs + [last];
    forall x | x in StrKeys(kvs + [last]) ensures x in StrKeys(kvs) + {k} {
      var kv :| kv in kvs + [last] && kv.key.Str? && kv.key.str == x;
      if kv != last {
        assert kv in kvs;
      }
    }
    forall x | x in StrKeys(kvs) ensures x in StrKeys(kvs + [last]) {
      var kv :| kv in kvs && kv.key.Str? && kv.key.str == x;
      assert kv in kvs + [last];
    }
  }

  /** The keys of the map read from a MAP are exactly the STR keys among its entries. */
  lemma {:induction false} AsEntriesKeys(kvs: seq<KeyValue>)
    requires AsEntries(kvs).Success?
    ensures Keys(AsEntries(kvs).value) == StrKeys(kvs)
    decreases |kvs|
  {
    if kvs != [] {
      var n := |kvs| - 1;
      var init, last := kvs[..n], kvs[n];
      assert kvs == init + [last];
      AsEntriesKeys(init);
      var k, v := last.key.str, last.val.bin;
      assert AsEntries(kvs).value == Insert(AsEntries(init).value, k, v);
      InsertKeys(AsEntries(init).value, k, v);
      StrKeysSnoc(init, k, last.val);
    }
  }

  /** An entry for a different key, appended after the last binding of e, leaves it the last. */
  lemma LastBindingSnoc(kvs: seq<KeyValue>, kv: KeyValue, e: CharsEntry)
    requires LastBinding(kvs, e) && kv.key != Str(e.key)
    ensures LastBinding(kvs + [kv], e)
  {
    var i :| 0 <= i < |kvs| && kvs[i] == KeyValue(Str(e.key), Bin(e.val)) &&
             forall j :: i < j < |kvs| ==> kvs[j].key != Str(e.key);
    var r := kvs + [kv];
    assert r[i] == kvs[i];
    assert forall j :: i < j < |r| ==> r[j].key != Str(e.key);
  }

  /** The last entry of the sequence is the last binding of its key. */
  lemma LastBindingLast(kvs: seq<KeyValue>, e: CharsEntry)
    ensures LastBinding(kvs + [KeyValue(Str(e.key), Bin(e.val))], e)
  {
    var r := kvs + [KeyValue(Str(e.key), Bin(e.val))];
    assert r[|kvs|] == KeyValue(Str(e.key), Bin(e.val));
  }

  /** Each binding of the map read from a MAP is the last entry for its key: later duplicates win. */
  lemma {:induction false} AsEntriesLastWins(kvs: seq<KeyValue>)
    requires AsEntries(kvs).Success?
    ensures forall e :: e in AsEntries(kvs).value ==> LastBinding(kvs, e)
    decreases |kvs|
  {
    if kvs != [] {
      var n := |kvs| - 1;
      var init, last := kvs[..n], kvs[n];
      assert kvs == init + [last];
      AsEntriesLastWins(init);
      var k, v := last.key.str, last.val.bin;
      assert AsEntries(kvs).value == Insert(AsEntries(init).value, k, v);
      forall e | e in AsEntries(kvs).value ensures LastBinding(kvs, e) {
        if e == CharsEntry(k, v) {
          LastBindingLast(init, e);
        } else {
          LastBindingSnoc(init, last, e);
        }
      }
    }
  }

  /** as<std::map<std::string, std::vector<char>>>() */
  function AsStrMap(o: Object): (r: Result<StrMap, Error>)
    ensures !o.Map? ==> r == Failure(TypeError(MapTarget, KindOf(o)))
    ensures o.Map? ==> r == AsEntries(o.entries)
  {
    if o.Map? then AsEntries(o.entries) else Failure(TypeError(MapTarget, KindOf(o)))
  }

  /**
   * convert(&m): reads the four fields positionally from an ARRAY of arity 4
   * into the caller's instance `into`, overwriting each field.
   */
  function Convert(o: Object, into: MyClass): (r: Result<MyClass, Error>)
    ensures r.Success? <==>
      o.Array? && |o.elems| == 4 &&
      AsInt(o.elems[0], Int).Success? && AsString(o.elems[1]).Success? &&
      AsVector(o.elems[2], AsDouble).Success? && AsStrMap(o.elems[3]).Success?
    ensures r.Success? ==>
      AsInt(o.elems[0], Int) == Success(r.value.num as int) && AsString(o.elems[1]) == Success(r.value.str) &&
      AsVector(o.elems[2], AsDouble) == Success(r.value.vec) && AsStrMap(o.elems[3]) == Success(r.value.dict)
    ensures !(o.Array? && |o.elems| == 4) ==> r == Failure(TypeError(AggregateTarget(4), KindOf(o)))
    // Otherwise the first field that does not read decides the error, in the order num, str, vec, map.
    ensures o.Array? && |o.elems| == 4 && AsInt(o.elems[0], Int).Failure? ==>
      r == Failure(TypeError(IntegerTarget(Int), KindOf(o.elems[0])))
    ensures o.Array? && |o.elems| == 4 && AsInt(o.elems[0], Int).Success? && AsString(o.elems[1]).Failure? ==>
      r == Failure(TypeError(StringTarget, KindOf(o.elems[1])))
    ensures o.Array? && |o.elems| == 4 && AsInt(o.elems[0], Int).Success? && AsString(o.elems[1]).Success? &&
            AsVector(o.elems[2], AsDouble).Failure? ==>
      r == Failure(AsVector(o.elems[2], AsDouble).error)
    ensures o.Array? && |o.elems| == 4 && AsInt(o.elems[0], Int).Success? && AsString(o.elems[1]).Success? &&
            AsVector(o.elems[2], AsDouble).Success? && AsStrMap(o.elems[3]).Failure? ==>
      r == Failure(AsStrMap(o.elems[3]).error)
  {
    if !o.Array? || |o.elems| != 4 then Failure(TypeError(AggregateTarget(4), KindOf(o)))
    else
      var num :- AsInt(o.elems[0], Int);
      var str :- AsString(o.elems[1]);
      var vec :- AsVector(o.elems[2], AsDouble);
      var dict :- AsStrMap(o.elems[3]);
      Success(into.(num := num as int32, str := str, vec := vec, dict := dict))
  }

  /** convert overwrites every field: what the instance held before never shows through. */
  lemma ConvertOverwritesAllFields(o: Object, a: MyClass, b: MyClass)
    ensures Convert(o, a) == Convert(o, b)
  {
  }

  /** as<myclass>(): convert into a default-constructed myclass. */
  function AsMyClass(o: Object): (r: Result<MyClass, Error>)
    ensures !o.Array? ==> r == Failure(TypeError(AggregateTarget(4), KindOf(o)))
  {
    Convert(o, DefaultMyClass())
  }

  /** Reading back the built std::map gives the same map. */
  lemma {:induction false} AsEntriesOfPack(s: StrMap)
    ensures AsEntries(PackEntries(s)) == Success(s)
    decreases |s|
  {
    if s != [] {
      var n := |s| - 1;
      var init: StrMap := s[..n];
      assert PackEntries(s)[..n] == PackEntries(init);
      AsEntriesOfPack(init);
      InsertAbove(init, s[n].key, s[n].val);
      assert init + [CharsEntry(s[n].key, s[n].val)] == s;
    }
  }

  /** Interpreting the array built from an aggregate gives the aggregate back, whatever instance it is converted into. */
  lemma ConvertOfPack(m: MyClass, into: MyClass)
    ensures Convert(Pack(m), into) == Success(m)
  {
    var o := Pack(m);
    AsEntriesOfPack(m.dict);
    var vec := AsVector(o.elems[2], AsDouble);
    assert vec.Success? && vec.value == m.vec;
  }

  /** as<myclass>() round trip: the built array reads back as the original aggregate. */
  lemma AsMyClassOfPack(m: MyClass)
    ensures AsMyClass(Pack(m)) == Success(m)
  {
    ConvertOfPack(m, DefaultMyClass());
  }
}
