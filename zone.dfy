/**
 * Zones and zone-bound objects.
 *
 * A msgpack::zone hands out memory and releases all of it at once. Here a zone
 * is a class with an id and an allocation counter; each allocation is named by
 * a handle (zone id, index), the index being the counter at the time of the
 * allocation. An object whose payloads live in zones is a Node: primitive kinds
 * are plain values, and every compound node (str, bin, array, map, ext) carries
 * the handle of the allocation that holds its payload.
 *
 * The deep copy of a node into a zone (operator<< on object::with_zone, and the
 * object(const object&, zone&) constructor) gives a node with the same value
 * whose every compound payload is a fresh allocation of the destination zone.
 */
module Zones {
  import opened Wrappers
  import opened MsgpackObject
  import opened MyClassMapping

  /** One zone allocation: the zone's id and the allocation's position in that zone. */
  datatype Handle = Handle(zone: nat, index: nat)

  datatype Node =
    | Scalar(value: Object)
    | StrNode(h: Handle, str: seq<byte>)
    | BinNode(h: Handle, bin: seq<byte>)
    | ArrayNode(h: Handle, elems: seq<Node>)
    | MapNode(h: Handle, pairs: seq<NodePair>)
      /** via.ext: `raw` is the allocated block, byte 0 the type tag, then `size` payload bytes. */
    | ExtNode(h: Handle, size: nat, raw: seq<byte>)

  datatype NodePair = NodePair(key: Node, val: Node)

  /** Scalars hold only primitive kinds, and an ext's declared size fits its block. */
  predicate WellFormed(n: Node) {
    match n
    case Scalar(v) => IsPrimitive(v)
    case StrNode(_, _) => true
    case BinNode(_, _) => true
    case ArrayNode(_, es) => forall i :: 0 <= i < |es| ==> WellFormed(es[i])
    case MapNode(_, ps) => forall i :: 0 <= i < |ps| ==> WellFormed(ps[i].key) && WellFormed(ps[i].val)
    case ExtNode(_, size, raw) => size < |raw|
  }

  /** The value a zone-bound object stands for. */
  function View(n: Node): Object
    requires WellFormed(n)
  {
    match n
    case Scalar(v) => v
    case StrNode(_, s) => Str(s)
    case BinNode(_, b) => Bin(b)
    case ArrayNode(_, es) => Array(seq(|es|, i requires 0 <= i < |es| => View(es[i])))
    case MapNode(_, ps) =>
      Map(seq(|ps|, i requires 0 <= i < |ps| => KeyValue(View(ps[i].key), View(ps[i].val))))
    case ExtNode(_, size, raw) => Ext(raw[0], raw[1..size + 1])
  }

  /** Every allocation reachable from a node, in preorder. */
  function Handles(n: Node): seq<Handle> {
    match n
    case Scalar(_) => []
    case StrNode(h, _) => [h]
    case BinNode(h, _) => [h]
    case ExtNode(h, _, _) => [h]
    case ArrayNode(h, es) => [h] + HandlesOfSeq(es)
    case MapNode(h, ps) => [h] + HandlesOfPairs(ps)
  }

  function HandlesOfSeq(ns: seq<Node>): seq<Handle> {
    if ns == [] then [] else HandlesOfSeq(ns[..|ns| - 1]) + Handles(ns[|ns| - 1])
  }

  function HandlesOfPairs(ps: seq<NodePair>): seq<Handle> {
    if ps == [] then [] else HandlesOfPairs(ps[..|ps| - 1]) + HandlesOfPair(ps[|ps| - 1])
  }

  function HandlesOfPair(p: NodePair): seq<Handle> {
    Handles(p.key) + Handles(p.val)
  }

  /** The handles a zone issues while its counter goes from `lo` to `hi`, in order. */
  function Run(zone: nat, lo: nat, hi: nat): seq<Handle>
    requires lo <= hi
    decreases hi - lo
  {
    if lo == hi then [] else [Handle(zone, lo)] + Run(zone, lo + 1, hi)
  }

  /** A run holds handles of its zone only, with indices from `lo` up to but excluding `hi`. */
  lemma {:induction false} RunMembers(zone: nat, lo: nat, hi: nat)
    requires lo <= hi
    ensures forall h :: h in Run(zone, lo, hi) ==> (h.zone == zone && lo <= h.index < hi)
    decreases hi - lo
  {
    if lo < hi {
      RunMembers(zone, lo + 1, hi);
    }
  }

  /** No allocation reachable from one node is reachable from the other. */
  predicate NoSharedAllocation(a: Node, b: Node) {
    forall h :: h in Handles(a) ==> h !in Handles(b)
  }

  /** Whether every allocation a node reaches belongs to a zone that is still alive. */
  predicate Backed(n: Node, live: set<nat>) {
    forall h :: h in Handles(n) ==> h.zone in live
  }

  /** Reading an object is only meaningful while the zones holding its payloads are alive. */
  function Read(n: Node, live: set<nat>): (r: Option<Object>)
    requires WellFormed(n)
  {
    if Backed(n, live) then Some(View(n)) else None
  }

  lemma HandlesOfSeqSnoc(ns: seq<Node>, n: Node)
    ensures HandlesOfSeq(ns + [n]) == HandlesOfSeq(ns) + Handles(n)
  {
    assert (ns + [n])[..|ns|] == ns;
  }

  lemma HandlesOfPairsSnoc(ps: seq<NodePair>, p: NodePair)
    ensures HandlesOfPairs(ps + [p]) == HandlesOfPairs(ps) + HandlesOfPair(p)
  {
    assert (ps + [p])[..|ps|] == ps;
  }

  lemma {:induction false} RunConcat(zone: nat, a: nat, b: nat, c: nat)
    requires a <= b <= c
    ensures Run(zone, a, b) + Run(zone, b, c) == Run(zone, a, c)
    decreases b - a
  {
    if a < b {
      RunConcat(zone, a + 1, b, c);
      assert Run(zone, a, b) + Run(zone, b, c) == [Handle(zone, a)] + (Run(zone, a + 1, b) + Run(zone, b, c));
    }
  }

  /** An array node whose elements have the values of another's has the same value, whatever the handles. */
  lemma ArrayOfCopies(h: Handle, es: seq<Node>, h': Handle, out: seq<Node>)
    requires WellFormed(ArrayNode(h, es)) && |out| == |es|
    requires forall k :: 0 <= k < |es| ==> WellFormed(out[k]) && View(out[k]) == View(es[k])
    ensures WellFormed(ArrayNode(h', out)) && View(ArrayNode(h', out)) == View(ArrayNode(h, es))
  {
    assert View(ArrayNode(h', out)).elems == View(ArrayNode(h, es)).elems;
  }

  /** A map node whose keys and values have the values of another's has the same value, whatever the handles. */
  lemma MapOfCopies(h: Handle, ps: seq<NodePair>, h': Handle, out: seq<NodePair>)
    requires WellFormed(MapNode(h, ps)) && |out| == |ps|
    requires forall k :: 0 <= k < |ps| ==> PairCopied(ps[k], out[k])
    ensures WellFormed(MapNode(h', out)) && View(MapNode(h', out)) == View(MapNode(h, ps))
  {
    assert View(MapNode(h', out)).entries == View(MapNode(h, ps)).entries;
  }

  /** q's key and value are well formed and stand for the same values as p's. */
  predicate PairCopied(p: NodePair, q: NodePair) {
    WellFormed(q.key) && WellFormed(p.key) && View(q.key) == View(p.key) &&
    WellFormed(q.val) && WellFormed(p.val) && View(q.val) == View(p.val)
  }

  /**
   * Handles issued by a zone after the moment its counter stood at `lo` are
   * not reachable from a node all of whose handles of that zone came earlier.
   */
  lemma {:induction false} RunAvoidsEarlierHandles(src: Node, zone: nat, lo: nat, hi: nat)
    requires lo <= hi
    requires forall h :: h in Handles(src) && h.zone == zone ==> h.index < lo
    ensures forall h :: h in Run(zone, lo, hi) ==> h !in Handles(src)
  {
    RunMembers(zone, lo, hi);
  }

  /** Every allocation of the i-th element is reachable from the sequence. */
  lemma {:induction false} HandlesOfSeqContains(ns: seq<Node>, i: nat)
    requires i < |ns|
    ensures forall h :: h in Handles(ns[i]) ==> h in HandlesOfSeq(ns)
    decreases |ns|
  {
    var last := |ns| - 1;
    if i < last {
      HandlesOfSeqContains(ns[..last], i);
    }
  }

  /** Every allocation of the i-th entry's key and value is reachable from the entries. */
  lemma {:induction false} HandlesOfPairsContains(ps: seq<NodePair>, i: nat)
    requires i < |ps|
    ensures forall h :: h in Handles(ps[i].key) ==> h in HandlesOfPairs(ps)
    ensures forall h :: h in Handles(ps[i].val) ==> h in HandlesOfPairs(ps)
    decreases |ps|
  {
    var last := |ps| - 1;
    if i < last {
      HandlesOfPairsContains(ps[..last], i);
    }
  }

  /** The value of a node fixes the node's kind, and for compound kinds its parts. */
  lemma ViewShape(n: Node)
    requires WellFormed(n)
    ensures IsPrimitive(View(n)) ==> n == Scalar(View(n))
    ensures View(n).Str? ==> n.StrNode? && n.str == View(n).str
    ensures View(n).Bin? ==> n.BinNode? && n.bin == View(n).bin
    ensures View(n).Ext? ==> n.ExtNode?
    ensures View(n).Array? ==>
      n.ArrayNode? && |n.elems| == |View(n).elems| &&
      forall i :: 0 <= i < |n.elems| ==> View(n.elems[i]) == View(n).elems[i]
    ensures View(n).Map? ==>
      n.MapNode? && |n.pairs| == |View(n).entries| &&
      forall i :: 0 <= i < |n.pairs| ==>
        View(n.pairs[i].key) == View(n).entries[i].key && View(n.pairs[i].val) == View(n).entries[i].val
  {
  }

  /** A node whose allocations all come from one zone survives the teardown of every other zone. */
  lemma OutlivesOtherZones(n: Node, zone: nat, lo: nat, hi: nat, live: set<nat>, gone: nat)
    requires WellFormed(n) && lo <= hi
    requires Handles(n) == Run(zone, lo, hi)
    requires zone in live && gone != zone
    ensures Read(n, live - {gone}) == Some(View(n))
  {
    RunMembers(zone, lo, hi);
  }

  /** msgpack::zone: a bump allocator that only ever hands out new allocations. */
  class Zone {
    const id: nat
    /** How many allocations the zone has made so far. */
    var next: nat

    constructor (id: nat)
      ensures this.id == id && next == 0
    {
      this.id := id;
      next := 0;
    }

    /** allocate_align: a block no earlier allocation of this zone has been given. */
    method Allocate() returns (h: Handle)
      modifies this
      ensures h == Handle(id, old(next)) && next == old(next) + 1
    {
      h := Handle(id, next);
      next := next + 1;
    }

    /** Every handle of this zone that `n` reaches has already been issued. */
    predicate Issued(n: Node)
      reads this
    {
      forall h :: h in Handles(n) && h.zone == id ==> h.index < next
    }
  }

  /**
   * The deep copy of `src` into zone `z`: the same value, with each compound
   * payload copied, at every depth, into its own fresh allocation of `z`
   * (handed out in preorder). An ext copies its tag byte and its `size`
   * payload bytes.
   */
  method DeepCopy(src: Node, z: Zone) returns (dst: Node)
    requires WellFormed(src)
    modifies z
    ensures WellFormed(dst) && View(dst) == View(src)
    ensures old(z.next) <= z.next && Handles(dst) == Run(z.id, old(z.next), z.next)
    ensures old(z.Issued(src)) ==> NoSharedAllocation(dst, src)
    decreases src
  {
    ghost var before := z.next;
    ghost var issued := z.Issued(src);
    match src {
      case Scalar(_) =>
        dst := src;
      case StrNode(_, s) =>
        var h := z.Allocate();
        dst := StrNode(h, s);
      case BinNode(_, b) =>
        var h := z.Allocate();
        dst := BinNode(h, b);
      case ExtNode(_, size, raw) =>
        var h := z.Allocate();
        dst := ExtNode(h, size, raw[..size + 1]);
      case ArrayNode(h0, es) =>
        var h := z.Allocate();
        var out := CopyElems(es, z);
        dst := ArrayNode(h, out);
        ArrayOfCopies(h0, es, h, out);
      case MapNode(h0, ps) =>
        var h := z.Allocate();
        var out := CopyPairs(ps, z);
        dst := MapNode(h, out);
        MapOfCopies(h0, ps, h, out);
    }
    if issued {
      RunAvoidsEarlierHandles(src, z.id, before, z.next);
    }
  }

  /** The elements of an array, deep-copied one after the other. */
  method CopyElems(es: seq<Node>, z: Zone) returns (out: seq<Node>)
    requires forall i :: 0 <= i < |es| ==> WellFormed(es[i])
    modifies z
    ensures |out| == |es|
    ensures forall k :: 0 <= k < |es| ==> WellFormed(out[k]) && View(out[k]) == View(es[k])
    ensures old(z.next) <= z.next && HandlesOfSeq(out) == Run(z.id, old(z.next), z.next)
    decreases es
  {
    ghost var start := z.next;
    out := [];
    for i := 0 to |es|
      invariant |out| == i && start <= z.next
      invariant forall k :: 0 <= k < i ==> WellFormed(out[k]) && View(out[k]) == View(es[k])
      invariant HandlesOfSeq(out) == Run(z.id, start, z.next)
    {
      ghost var mid := z.next;
      var e := DeepCopy(es[i], z);
      HandlesOfSeqSnoc(out, e);
      RunConcat(z.id, start, mid, z.next);
      out := out + [e];
    }
  }

  /** The entries of a map, key then value deep-copied, one entry after the other. */
  method CopyPairs(ps: seq<NodePair>, z: Zone) returns (out: seq<NodePair>)
    requires forall i :: 0 <= i < |ps| ==> WellFormed(ps[i].key) && WellFormed(ps[i].val)
    modifies z
    ensures |out| == |ps|
    ensures forall k :: 0 <= k < |ps| ==> PairCopied(ps[k], out[k])
    ensures old(z.next) <= z.next && HandlesOfPairs(out) == Run(z.id, old(z.next), z.next)
    decreases ps
  {
    ghost var start := z.next;
    out := [];
    for i := 0 to |ps|
      invariant |out| == i && start <= z.next
      invariant forall k :: 0 <= k < i ==> PairCopied(ps[k], out[k])
      invariant HandlesOfPairs(out) == Run(z.id, start, z.next)
    {
      ghost var mid := z.next;
      var p := CopyPair(ps[i], z);
      HandlesOfPairsSnoc(out, p);
      RunConcat(z.id, start, mid, z.next);
      out := out + [p];
    }
  }

  /** One map entry: its key, then its value, deep-copied. */
  method CopyPair(p: NodePair, z: Zone) returns (q: NodePair)
    requires WellFormed(p.key) && WellFormed(p.val)
    modifies z
    ensures PairCopied(p, q)
    ensures old(z.next) <= z.next && HandlesOfPair(q) == Run(z.id, old(z.next), z.next)
    decreases p
  {
    ghost var start := z.next;
    var key := DeepCopy(p.key, z);
    ghost var mid := z.next;
    var val := DeepCopy(p.val, z);
    q := NodePair(key, val);
    RunConcat(z.id, start, mid, z.next);
  }

  /** object(const std::string&, zone&): a STR whose bytes are copied into a new allocation. */
  method PackString(s: seq<byte>, z: Zone) returns (n: Node)
    modifies z
    ensures WellFormed(n) && View(n) == Str(s)
    ensures z.next == old(z.next) + 1 && Handles(n) == Run(z.id, old(z.next), z.next)
  {
    var h := z.Allocate();
    n := StrNode(h, s);
  }

  /** object(const std::vector<char>&, zone&): a BIN whose bytes are copied into a new allocation. */
  method PackCharVector(b: seq<byte>, z: Zone) returns (n: Node)
    modifies z
    ensures WellFormed(n) && View(n) == Bin(b)
    ensures z.next == old(z.next) + 1 && Handles(n) == Run(z.id, old(z.next), z.next)
  {
    var h := z.Allocate();
    n := BinNode(h, b);
  }

  /** object(const std::vector<double>&, zone&): an ARRAY of DOUBLE elements in one allocation. */
  method PackDoubleVector(v: seq<Double>, z: Zone) returns (n: Node)
    modifies z
    ensures WellFormed(n) && View(n) == Array(PackDoubles(v))
    ensures z.next == old(z.next) + 1 && Handles(n) == Run(z.id, old(z.next), z.next)
  {
    var h := z.Allocate();
    var out: seq<Node> := [];
    for i := 0 to |v|
      invariant |out| == i && z.next == old(z.next) + 1
      invariant forall k :: 0 <= k < i ==> out[k] == Scalar(Float(v[k]))
      invariant HandlesOfSeq(out) == []
    {
      HandlesOfSeqSnoc(out, Scalar(Float(v[i])));
      out := out + [Scalar(Float(v[i]))];
    }
    n := ArrayNode(h, out);
    DoublesNode(h, out, v);
  }

  /** An array node of DOUBLE scalars stands for the array built from those doubles. */
  lemma DoublesNode(h: Handle, out: seq<Node>, v: seq<Double>)
    requires |out| == |v| && forall k :: 0 <= k < |v| ==> out[k] == Scalar(Float(v[k]))
    ensures WellFormed(ArrayNode(h, out)) && View(ArrayNode(h, out)) == Array(PackDoubles(v))
  {
    assert View(ArrayNode(h, out)).elems == PackDoubles(v);
  }

  /**
   * object(const std::map<std::string, std::vector<char>>&, zone&): a MAP with
   * one allocation for the entries, then, entry by entry in iteration order,
   * one for the key's STR and one for the value's BIN.
   */
  method PackStrMap(m: StrMap, z: Zone) returns (n: Node)
    modifies z
    ensures WellFormed(n) && View(n) == Map(PackEntries(m))
    ensures old(z.next) <= z.next && Handles(n) == Run(z.id, old(z.next), z.next)
  {
    var h := z.Allocate();
    ghost var start := z.next;
    var out: seq<NodePair> := [];
    for i := 0 to |m|
      invariant |out| == i && start <= z.next
      invariant forall k :: 0 <= k < i ==> EntryBuilt(out[k], m[k])
      invariant HandlesOfPairs(out) == Run(z.id, start, z.next)
    {
      ghost var mid0 := z.next;
      var key := PackString(m[i].key, z);
      ghost var mid1 := z.next;
      var val := PackCharVector(m[i].val, z);
      HandlesOfPairsSnoc(out, NodePair(key, val));
      RunConcat(z.id, start, mid0, mid1);
      RunConcat(z.id, start, mid1, z.next);
      out := out + [NodePair(key, val)];
    }
    n := MapNode(h, out);
    EntriesNode(h, out, m);
  }

  /** q's key is a STR node holding e's key and its value a BIN node holding e's value. */
  predicate EntryBuilt(q: NodePair, e: CharsEntry) {
    WellFormed(q.key) && View(q.key) == Str(e.key) && WellFormed(q.val) && View(q.val) == Bin(e.val)
  }

  /** A map node whose entries are built from a std::map's entries stands for the MAP built from it. */
  lemma EntriesNode(h: Handle, out: seq<NodePair>, m: seq<CharsEntry>)
    requires |out| == |m| && forall k :: 0 <= k < |m| ==> EntryBuilt(out[k], m[k])
    ensures WellFormed(MapNode(h, out)) && View(MapNode(h, out)) == Map(PackEntries(m))
  {
    assert View(MapNode(h, out)).entries == PackEntries(m);
  }

  /**
   * myclass::msgpack_object (MSGPACK_DEFINE): an ARRAY of four elements
   * allocated first, then num, str, vec and map built in declared order.
   */
  method PackMyClass(m: MyClass, z: Zone) returns (n: Node)
    modifies z
    ensures WellFormed(n) && View(n) == Pack(m)
    ensures old(z.next) <= z.next && Handles(n) == Run(z.id, old(z.next), z.next)
  {
    var h := z.Allocate();
    ghost var s0 := z.next;
    var num := Scalar(FromInt(m.num as int));
    var str := PackString(m.str, z);
    ghost var s1 := z.next;
    var vec := PackDoubleVector(m.vec, z);
    ghost var s2 := z.next;
    var dict := PackStrMap(m.dict, z);
    n := ArrayNode(h, [num, str, vec, dict]);
    FourElements(h, num, str, vec, dict);
    calc {
      Handles(n);
      [h] + HandlesOfSeq([num, str, vec, dict]);
      { FourHandles(num, str, vec, dict); }
      [h] + (Handles(num) + Handles(str) + Handles(vec) + Handles(dict));
      [h] + (Run(z.id, s0, s1) + Run(z.id, s1, s2) + Run(z.id, s2, z.next));
      { RunConcat(z.id, s0, s1, s2); RunConcat(z.id, s0, s2, z.next); }
      [h] + Run(z.id, s0, z.next);
      Run(z.id, old(z.next), z.next);
    }
  }

  /** An array node of four elements stands for the array of their four values. */
  lemma FourElements(h: Handle, a: Node, b: Node, c: Node, d: Node)
    requires WellFormed(a) && WellFormed(b) && WellFormed(c) && WellFormed(d)
    ensures WellFormed(ArrayNode(h, [a, b, c, d]))
    ensures View(ArrayNode(h, [a, b, c, d])) == Array([View(a), View(b), View(c), View(d)])
  {
    var es := [a, b, c, d];
    assert View(ArrayNode(h, es)).elems == [View(a), View(b), View(c), View(d)];
  }

  /** The allocations of four elements, element by element. */
  lemma FourHandles(a: Node, b: Node, c: Node, d: Node)
    ensures HandlesOfSeq([a, b, c, d]) == Handles(a) + Handles(b) + Handles(c) + Handles(d)
  {
    var s1, s2, s3, s4 := [a], [a, b], [a, b, c], [a, b, c, d];
    assert s1[..0] == [] && s2[..1] == s1 && s3[..2] == s2 && s4[..3] == s3;
    assert HandlesOfSeq(s1) == Handles(a);
    assert HandlesOfSeq(s2) == HandlesOfSeq(s1) + Handles(b);
    assert HandlesOfSeq(s3) == HandlesOfSeq(s2) + Handles(c);
    assert HandlesOfSeq(s4) == HandlesOfSeq(s3) + Handles(d);
  }

  /**
   * msgpack::object::with_zone: an object that allocates what it is given
   * into its zone.
   */
  class ObjectWithZone {
    const zone: Zone
    /** The object's type and via union. */
    var root: Node

    /** with_zone(z): a NIL object bound to z. */
    constructor (z: Zone)
      ensures zone == z && root == Scalar(Nil)
    {
      zone := z;
      root := Scalar(Nil);
    }

    /** `obj << m`: the object becomes the array built from `m`, allocated in the zone. */
    method PackFrom(m: MyClass)
      modifies this, zone
      ensures WellFormed(root) && View(root) == Pack(m)
      ensures old(zone.next) <= zone.next && Handles(root) == Run(zone.id, old(zone.next), zone.next)
      ensures Backed(root, {zone.id})
    {
      root := PackMyClass(m, zone);
      RunMembers(zone.id, old(zone.next), zone.next);
    }

    /**
     * `obj << other`: the object becomes a deep copy of `src` in this zone,
     * sharing no allocation with it.
     */
    method CopyFrom(src: Node)
      requires WellFormed(src)
      modifies this, zone
      ensures WellFormed(root) && View(root) == View(src)
      ensures old(zone.next) <= zone.next && Handles(root) == Run(zone.id, old(zone.next), zone.next)
      ensures Backed(root, {zone.id})
      ensures old(zone.Issued(src)) ==> NoSharedAllocation(root, src)
    {
      root := DeepCopy(src, zone);
      RunMembers(zone.id, old(zone.next), zone.next);
    }
  }

  /**
   * object(const object& src, zone& z): builds a with_zone object over z,
   * streams `src` into it and returns the result.
   */
  method CopyConstruct(src: Node, z: Zone) returns (dst: Node)
    requires WellFormed(src)
    modifies z
    ensures WellFormed(dst) && View(dst) == View(src)
    ensures old(z.next) <= z.next && Handles(dst) == Run(z.id, old(z.next), z.next)
    ensures Backed(dst, {z.id})
    ensures old(z.Issued(src)) ==> NoSharedAllocation(dst, src)
  {
    var oz := new ObjectWithZone(z);
    oz.CopyFrom(src);
    dst := oz.root;
  }
}
