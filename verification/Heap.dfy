/** The contract of the world-state crate's `IndexHeap`: a capacity-bounded collection of
    (key, power) entries with distinct keys, whose least entry is evicted by a larger newcomer.
    Ties for the minimum, and the order in which entries are listed, are settled by address. */
module Heap {
  import opened Words

  type Entries = map<Address, u64>

  datatype Inserted = Fits(heap: Entries) | Evicted(heap: Entries, key: Address, power: u64) | Full

  predicate Below(h: Entries, j: Address, k: Address)
    requires j in h && k in h
  {
    h[j] < h[k] || (h[j] == h[k] && j <= k)
  }

  predicate IsMin(h: Entries, k: Address) { k in h && forall j | j in h :: Below(h, k, j) }

  lemma {:induction false} MinExists(h: Entries)
    requires h != map[]
    ensures exists k :: IsMin(h, k)
    decreases h.Keys
  {
    var k := Pick(h.Keys);
    var rest := h - {k};
    if rest == map[] {
      forall j | j in h ensures j == k { assert j != k ==> j in rest; }
      assert IsMin(h, k);
    } else {
      MinExists(rest);
      var m :| IsMin(rest, m);
      var w := if Below(h, k, m) then k else m;
      forall j | j in h ensures Below(h, w, j) {
        if j != k { assert Below(rest, m, j); }
      }
      assert IsMin(h, w);
    }
  }

  /** The entry an eviction takes: the one of least power. */
  function MinKey(h: Entries): (k: Address)
    requires h != map[]
    ensures k in h && forall j | j in h :: h[k] <= h[j]
  {
    MinExists(h);
    var k :| IsMin(h, k);
    assert forall j | j in h :: Below(h, k, j) ==> h[k] <= h[j];
    k
  }

  function Replaced(h: Entries, out: Address, key: Address, power: u64): Entries { (h - {out})[key := power] }

  /** `insert_extract`: there is room, or the newcomer beats the minimum, or nothing happens. */
  function InsertExtract(h: Entries, capacity: nat, key: Address, power: u64): (r: Inserted)
    ensures r.Evicted? ==> r.key in h && h[r.key] == r.power < power
  {
    if |h| < capacity then Fits(h[key := power])
    else if h != map[] && h[MinKey(h)] < power then
      var k := MinKey(h);
      Evicted(Replaced(h, k, key, power), k, h[k])
    else Full
  }

  /** The newcomer gets in exactly when there is room or a smaller entry; what it replaces is an entry
      of least power, and every other entry stays. */
  lemma {:induction false} InsertExtractSpec(h: Entries, capacity: nat, key: Address, power: u64)
    ensures var r := InsertExtract(h, capacity, key, power);
      && (r.Fits? <==> |h| < capacity)
      && (r.Full? <==> |h| >= capacity && forall j | j in h :: power <= h[j])
      && (r.Evicted? ==> r.key in h && forall j | j in h :: h[r.key] <= h[j])
      && (!r.Full? ==> Lookup(r.heap, key) == Some(power))
      && (!r.Full? ==>
            forall j | j != key :: Lookup(r.heap, j) == if r.Evicted? && j == r.key then None else Lookup(h, j))
  {
    if |h| >= capacity && h != map[] {
      var k := MinKey(h);
      assert k in h && forall j | j in h :: h[k] <= h[j];
    }
  }

  predicate IsLeast(s: set<Address>, k: Address) { k in s && forall j | j in s :: k <= j }

  lemma {:induction false} LeastExists(s: set<Address>)
    requires s != {}
    ensures exists k :: IsLeast(s, k)
    decreases s
  {
    var k := Pick(s);
    if s - {k} == {} {
      assert s == {k};
      assert IsLeast(s, k);
    } else {
      LeastExists(s - {k});
      var m :| IsLeast(s - {k}, m);
      var w := if k < m then k else m;
      forall j | j in s ensures w <= j { if j != k { assert j in s - {k}; } }
      assert IsLeast(s, w);
    }
  }

  /** `unordered_values`: the keys of a heap, each exactly once. */
  function Listing(s: set<Address>): (l: seq<Address>)
    ensures |l| == |s|
    ensures forall i | 0 <= i < |l| :: l[i] in s
    ensures forall k | k in s :: k in l
    ensures forall i, j | 0 <= i < j < |l| :: l[i] != l[j]
  {
    if s == {} then [] else
      LeastExists(s);
      var k :| IsLeast(s, k);
      [k] + Listing(s - {k})
  }
}
