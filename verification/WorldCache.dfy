/** The world state cache: one CacheData per kind of data over the committed world, the decoded
    network account, fee settlement on it, and the batched commit. */
module WorldCache {
  import opened Words
  import opened Network
  import opened Contract
  import opened Cache
  import opened NetworkAccounts

  type StorageWrites = map<(Address, Bytes), Bytes>

  /** One account's part of the pending storage writes. */
  function Slice(w: StorageWrites, a: Address): map<Bytes, Bytes> {
    map p | p in w && p.0 == a :: p.1 := w[p]
  }

  function Touched(w: StorageWrites): set<Address> { set p | p in w :: p.0 }

  /** Storage with the pending writes on top. */
  function OverlayStorage(s: Storage, w: StorageWrites): Storage {
    map a | a in s.Keys + Touched(w) :: Trie(s, a) + Slice(w, a)
  }

  lemma TouchedSet(w: StorageWrites, a: Address, key: Bytes, data: Bytes)
    ensures Touched(w[(a, key) := data]) == Touched(w) + {a}
  {
    var w' := w[(a, key) := data];
    assert (a, key) in w';
    forall p | p in w ensures p.0 in Touched(w') { assert p in w'; }
  }

  lemma SliceSet(w: StorageWrites, a: Address, key: Bytes, data: Bytes)
    ensures Slice(w[(a, key) := data], a) == Slice(w, a)[key := data]
    ensures forall b | b != a :: Slice(w[(a, key) := data], b) == Slice(w, b)
    ensures a !in Touched(w) ==> Slice(w, a) == map[]
  {
  }

  lemma OverlayAt(s: Storage, w: StorageWrites, a: Address)
    ensures Lookup(OverlayStorage(s, w), a)
         == if a in s || a in Touched(w) then Some(Trie(s, a) + Slice(w, a)) else None
  {
  }

  lemma OverlaySet(s: Storage, w: StorageWrites, a: Address, key: Bytes, data: Bytes)
    ensures OverlayStorage(s, w[(a, key) := data]) == SetStorage(OverlayStorage(s, w), a, key, data)
  {
    hide Slice, Touched, OverlayStorage;
    var w' := w[(a, key) := data];
    TouchedSet(w, a, key, data);
    SliceSet(w, a, key, data);
    OverlayAt(s, w, a);
    forall b ensures Lookup(OverlayStorage(s, w'), b) == Lookup(SetStorage(OverlayStorage(s, w), a, key, data), b) {
      OverlayAt(s, w', b);
      OverlayAt(s, w, b);
      if b == a {
        assert Trie(s, a) + Slice(w, a)[key := data] == (Trie(s, a) + Slice(w, a))[key := data];
      }
    }
    SameMap(OverlayStorage(s, w'), SetStorage(OverlayStorage(s, w), a, key, data));
  }

  lemma OverlayNothing(s: Storage)
    ensures OverlayStorage(s, map[]) == s
  {
    var none: StorageWrites := map[];
    forall a | a in s ensures Trie(s, a) + Slice(none, a) == s[a] {
      assert Slice(none, a) == map[];
    }
  }

  /** Apply the writes one at a time, in the given order. */
  function ApplyEach(s: Storage, w: StorageWrites, order: seq<(Address, Bytes)>): Storage
    requires forall i | 0 <= i < |order| :: order[i] in w
    decreases |order|
  {
    if order == [] then s
    else
      var k := order[|order| - 1];
      SetStorage(ApplyEach(s, w, order[..|order| - 1]), k.0, k.1, w[k])
  }

  function Restrict(w: StorageWrites, order: seq<(Address, Bytes)>): StorageWrites {
    map k | k in w && k in order :: w[k]
  }

  lemma RestrictStep(w: StorageWrites, order: seq<(Address, Bytes)>)
    requires forall i | 0 <= i < |order| :: order[i] in w
    ensures order == [] ==> Restrict(w, order) == map[]
    ensures order != [] ==>
      var k := order[|order| - 1]; Restrict(w, order) == Restrict(w, order[..|order| - 1])[(k.0, k.1) := w[k]]
  {
    if order != [] {
      assert order == order[..|order| - 1] + [order[|order| - 1]];
    }
  }

  lemma {:induction false} EachIsOverlay(s: Storage, w: StorageWrites, order: seq<(Address, Bytes)>)
    requires forall i | 0 <= i < |order| :: order[i] in w
    ensures ApplyEach(s, w, order) == OverlayStorage(s, Restrict(w, order))
    decreases |order|
  {
    hide OverlayStorage, Restrict;
    RestrictStep(w, order);
    if order == [] {
      OverlayNothing(s);
    } else {
      var k, rest := order[|order| - 1], order[..|order| - 1];
      EachIsOverlay(s, w, rest);
      OverlaySet(s, Restrict(w, rest), k.0, k.1, w[k]);
    }
  }

  /** Writing each pending value individually, in any order, gives the overlay that the batched
      commit writes. */
  lemma {:induction false} AnyOrderIsOverlay(s: Storage, w: StorageWrites, order: seq<(Address, Bytes)>)
    requires forall i | 0 <= i < |order| :: order[i] in w
    requires forall k | k in w :: k in order
    ensures ApplyEach(s, w, order) == OverlayStorage(s, w)
  {
    EachIsOverlay(s, w, order);
    assert Restrict(w, order) == w;
  }

  // ---------- what the trie answers ----------

  function WsBalance(w: World): Address -> Option<u64> { (a: Address) => Some(Get0(w.balances, a)) }

  function WsVersion(w: World): Address -> Option<u32> { (a: Address) => Lookup(w.versions, a) }

  function WsContract(w: World): Address -> Option<Bytes> { (a: Address) => Lookup(w.contracts, a) }

  function WsStorage(w: World): ((Address, Bytes)) -> Option<Bytes> {
    (p: (Address, Bytes)) => Lookup(Trie(w.storage, p.0), p.1)
  }

  // ---------- commit ----------

  /** Write every pending value, in whatever order the hash map yields them. */
  method WriteAll<K(==), V>(base: map<K, V>, writes: map<K, V>) returns (out: map<K, V>)
    ensures out == base + writes
  {
    out := base;
    var left := writes.Keys;
    while left != {}
      invariant left <= writes.Keys
      invariant out == base + (writes - left)
    {
      var k :| k in left;
      out := out[k := writes[k]];
      left := left - {k};
    }
  }

  /** Group the pending storage writes by account. */
  method Group(w: StorageWrites) returns (grouped: map<Address, map<Bytes, Bytes>>)
    ensures grouped.Keys == Touched(w)
    ensures forall a | a in grouped :: grouped[a] == Slice(w, a)
  {
    hide Slice, Touched;
    grouped := map[];
    var left := w.Keys;
    ghost var part: StorageWrites := map[];
    NothingTouched();
    while left != {}
      invariant left <= w.Keys && part == w - left
      invariant grouped.Keys == Touched(part)
      invariant forall a | a in grouped :: grouped[a] == Slice(part, a)
    {
      var p :| p in left;
      var (a, key) := p;
      SliceSet(part, a, key, w[p]);
      TouchedSet(part, a, key, w[p]);
      grouped := grouped[a := (if a in grouped then grouped[a] else map[])[key := w[p]]];
      part := part[(a, key) := w[p]];
      left := left - {p};
    }
    assert part == w;
  }

  lemma NothingTouched()
    ensures Touched(map[]) == {}
  {
  }

  /** One batch per account. */
  method BatchSet(s: Storage, w: StorageWrites) returns (out: Storage)
    ensures out == OverlayStorage(s, w)
  {
    hide Slice, Touched, OverlayStorage;
    var grouped := Group(w);
    out := s;
    var left := grouped.Keys;
    while left != {}
      invariant left <= grouped.Keys
      invariant forall a ::
        Lookup(out, a) == if a in grouped && a !in left then Some(Trie(s, a) + grouped[a]) else Lookup(s, a)
    {
      assert exists a :: a in left by { var a := Pick(left); }
      var a :| a in left;
      assert Lookup(out, a) == Lookup(s, a);
      out := out[a := Trie(out, a) + grouped[a]];
      left := left - {a};
    }
    forall a ensures Lookup(out, a) == Lookup(OverlayStorage(s, w), a) {
      OverlayAt(s, w, a);
      UntouchedSlice(s, w, a);
    }
    SameMap(out, OverlayStorage(s, w));
  }

  lemma UntouchedSlice(s: Storage, w: StorageWrites, a: Address)
    ensures a !in Touched(w) ==> Trie(s, a) + Slice(w, a) == Trie(s, a)
  {
    if a !in Touched(w) {
      assert Slice(w, a) == map[];
    }
  }

  // ---------- the cache ----------

  class WorldStateCache {
    var ws: World
    const balances: CacheData<Address, u64>
    const versions: CacheData<Address, u32>
    const contracts: CacheData<Address, Bytes>
    const storage: CacheData<(Address, Bytes), Bytes>
    const network: NetworkAccount

    ghost predicate Separate() {
      && balances as object !in {this, versions, contracts, storage, network}
      && versions as object !in {this, contracts, storage, network}
      && contracts as object !in {this, storage, network}
      && storage as object !in {this, network}
      && network as object != this
    }

    /** What commands may change; not the committed world. */
    ghost function Pending(): set<object> { {balances, versions, contracts, storage, network} }

    ghost predicate Valid()
      reads this, Pending()
    {
      && Separate() && balances.Valid(WsBalance(ws)) && versions.Valid(WsVersion(ws))
      && contracts.Valid(WsContract(ws)) && storage.Valid(WsStorage(ws))
    }

    /** Nothing written and nothing read yet. */
    ghost predicate Clean()
      reads Pending()
    {
      && balances.Empty() && versions.Empty() && contracts.Empty() && storage.Empty()
    }

    /** The world as commands see it: pending changes over the committed world. */
    ghost function View(): World
      reads this, Pending()
    {
      World(ws.balances + balances.writes, ws.nonces, ws.versions + versions.writes, ws.contracts + contracts.writes,
            OverlayStorage(ws.storage, storage.writes), network.Value())
    }

    constructor (w: World)
      ensures Valid() && Clean() && ws == w && View() == w && fresh(Pending())
    {
      ws := w;
      balances := new CacheData<Address, u64>();
      versions := new CacheData<Address, u32>();
      contracts := new CacheData<Address, Bytes>();
      storage := new CacheData<(Address, Bytes), Bytes>();
      network := new NetworkAccount(w.net);
      new;
      hide Valid, View, OverlayStorage;
      CleanView();
    }

    /** With nothing pending the view is the committed world, up to the network account. */
    lemma CleanView()
      requires Clean() && Separate()
      ensures Valid() && View() == ws.(net := network.Value())
    {
      hide OverlayStorage;
      OverlayNothing(ws.storage);
      assert ws.balances + map[] == ws.balances && ws.versions + map[] == ws.versions;
      assert ws.contracts + map[] == ws.contracts;
    }

    lemma NetView()
      ensures View().net == network.Value()
    {
    }

    /** Change the deposits of the network account. */
    method SetDeposits(d: Deposits)
      requires Valid()
      modifies network`deposits
      ensures Valid() && View() == old(View()).(net := old(View()).net.(deposits := d))
    {
      hide OverlayStorage;
      network.deposits := d;
    }

    method Balance(a: Address) returns (b: u64)
      requires Valid()
      modifies balances`fetched
      ensures Valid() && View() == old(View()) && b == Get0(View().balances, a)
    {
      var v := balances.Get(a, WsBalance(ws));
      b := v.value;
    }

    method SetBalance(a: Address, b: u64)
      requires Valid()
      modifies balances`writes
      ensures Valid() && View() == old(View()).(balances := old(View()).balances[a := b])
    {
      balances.Set(a, b);
      assert ws.balances + balances.writes == (ws.balances + old(balances.writes))[a := b];
    }

    /** Take an account's balance out of the pending writes. */
    method PurgeBalance(a: Address) returns (b: u64)
      requires Valid()
      modifies balances
      ensures Valid() && b == Get0(ws.balances + old(balances.writes), a)
      ensures balances.writes == old(balances.writes) - {a}
      ensures View() == old(View()).(balances := ws.balances + balances.writes)
    {
      b := Balance(a);
      balances.writes := balances.writes - {a};
    }

    /** Debit, then credit: the transfer behind Transfer, Call and contract payments. */
    method MoveTokens(payer: Address, recipient: Address, amount: u64) returns (ok: bool)
      requires Valid()
      modifies balances
      ensures Valid() && (ok <==> amount <= old(Get0(View().balances, payer)))
      ensures View() == if ok then old(View()).(balances := Move(old(View()).balances, payer, recipient, amount))
        else old(View())
    {
      hide View, Valid;
      var b := Balance(payer);
      if b < amount {
        return false;
      }
      SetBalance(payer, b - amount);
      var to := Balance(recipient);
      SetBalance(recipient, SatAdd(to, amount));
      ok := true;
    }

    method Version(a: Address) returns (v: Option<u32>)
      requires Valid()
      modifies versions`fetched
      ensures Valid() && View() == old(View()) && v == Lookup(View().versions, a)
    {
      v := versions.Get(a, WsVersion(ws));
    }

    method SetVersion(a: Address, v: u32)
      requires Valid()
      modifies versions`writes
      ensures Valid() && View() == old(View()).(versions := old(View()).versions[a := v])
    {
      versions.Set(a, v);
      assert ws.versions + versions.writes == (ws.versions + old(versions.writes))[a := v];
    }

    method HasCode(a: Address) returns (found: bool)
      requires Valid()
      modifies contracts`fetched
      ensures Valid() && View() == old(View()) && (found <==> a in View().contracts)
    {
      var v := contracts.Get(a, WsContract(ws));
      found := v.Some?;
    }

    /** Find the module in the engine's cache, or compile the code. */
    method LoadModule(a: Address, engine: Engine) returns (found: bool)
      requires Valid()
      modifies contracts`fetched
      ensures Valid() && View() == old(View()) && (found <==> Loads(View(), a, engine))
    {
      hide OverlayStorage;
      if engine.cached {
        return true;
      }
      found := HasCode(a);
      found := found && engine.compiles;
    }

    method SetContract(a: Address, code: Bytes)
      requires Valid()
      modifies contracts`writes
      ensures Valid() && View() == old(View()).(contracts := old(View()).contracts[a := code])
    {
      contracts.Set(a, code);
      assert ws.contracts + contracts.writes == (ws.contracts + old(contracts.writes))[a := code];
    }

    method GetStorage(a: Address, key: Bytes) returns (data: Option<Bytes>)
      requires Valid()
      modifies storage`fetched
      ensures Valid() && View() == old(View()) && data == Lookup(Trie(View().storage, a), key)
    {
      data := storage.Get((a, key), WsStorage(ws));
      StorageReads(ws, storage.writes, a, key);
    }

    method SetStorageData(a: Address, key: Bytes, data: Bytes)
      requires Valid()
      modifies storage`writes
      ensures Valid() && View() == old(View()).(storage := SetStorage(old(View()).storage, a, key, data))
    {
      storage.Set((a, key), data);
      OverlaySet(ws.storage, old(storage.writes), a, key, data);
    }

    method Revert()
      requires Valid()
      modifies Pending()
      ensures Valid() && View() == ws
    {
      balances.Revert();
      versions.Revert();
      contracts.Revert();
      storage.Revert();
      network.Load(ws.net);
      CleanView();
    }

    /** Write everything to the world state; storage goes account by account. */
    method Commit() returns (out: World)
      requires Separate()
      ensures out == View()
    {
      var bs := WriteAll(ws.balances, balances.writes);
      var vs := WriteAll(ws.versions, versions.writes);
      var cs := WriteAll(ws.contracts, contracts.writes);
      var st := BatchSet(ws.storage, storage.writes);
      out := World(bs, ws.nonces, vs, cs, st, network.Value());
    }
  }

  /** Reading through the cache is reading the overlaid storage. */
  lemma StorageReads(w: World, writes: StorageWrites, a: Address, key: Bytes)
    ensures Overlaid(writes, WsStorage(w), (a, key)) == Lookup(Trie(OverlayStorage(w.storage, writes), a), key)
  {
    OverlayAt(w.storage, writes, a);
    if (a, key) in writes {
      assert a in Touched(writes);
    }
  }
}
