/** The world state cache: pending writes over a committed world, proved to behave as a plain map. */
module Cache {
  import opened Words

  /** What one cached cell answers: the pending write, or else the world's value. */
  function Overlaid<K, V>(writes: map<K, V>, wsGet: K -> Option<V>, k: K): Option<V> {
    if k in writes then Some(writes[k]) else wsGet(k)
  }

  /** What `contains` answers: a non-empty pending write, or any value in the world. */
  predicate Contained<K, V>(writes: map<K, V>, wsGet: K -> Option<V>, len: V -> nat, k: K) {
    (k in writes && len(writes[k]) != 0) || wsGet(k).Some?
  }

  datatype CacheOp<K, V> = GetOp(key: K) | SetOp(key: K, value: V) | RevertOp

  /** The same operations on a plain map laid over the world: the writes made since the last revert. */
  function PlainRun<K, V>(m: map<K, V>, wsGet: K -> Option<V>, ops: seq<CacheOp<K, V>>): (map<K, V>, seq<Option<V>>)
    decreases |ops|
  {
    if ops == [] then (m, [])
    else
      match ops[0]
      case GetOp(k) =>
        var (m', out) := PlainRun(m, wsGet, ops[1..]);
        (m', [Overlaid(m, wsGet, k)] + out)
      case SetOp(k, v) => PlainRun(m[k := v], wsGet, ops[1..])
      case RevertOp => PlainRun(map[], wsGet, ops[1..])
  }

  class CacheData<K(==), V(==)> {
    var writes: map<K, V>
    var fetched: map<K, Option<V>>

    /** Remembered reads agree with the world. */
    ghost predicate Valid(wsGet: K -> Option<V>)
      reads this
    {
      forall k | k in fetched :: fetched[k] == wsGet(k)
    }

    ghost predicate Empty()
      reads this
    {
      writes == map[] && fetched == map[]
    }

    constructor ()
      ensures Empty()
    {
      writes, fetched := map[], map[];
    }

    /** The latest value, read through to the world and remembered. */
    method Get(key: K, wsGet: K -> Option<V>) returns (value: Option<V>)
      requires Valid(wsGet)
      modifies this`fetched
      ensures Valid(wsGet)
      ensures value == Overlaid(writes, wsGet, key)
    {
      if key in writes {
        return Some(writes[key]);
      }
      if key in fetched {
        return fetched[key];
      }
      value := wsGet(key);
      fetched := fetched[key := value];
    }

    method Set(key: K, value: V)
      modifies this`writes
      ensures writes == old(writes)[key := value]
    {
      writes := writes[key := value];
    }

    /** One-sided: a key blanked by a write but present in the world still counts as contained. */
    method Contains(key: K, wsGet: K -> Option<V>, len: V -> nat) returns (found: bool)
      requires Valid(wsGet)
      ensures found == Contained(writes, wsGet, len, key)
    {
      if key in writes && len(writes[key]) != 0 {
        return true;
      }
      if key in fetched && fetched[key].Some? {
        return true;
      }
      found := wsGet(key).Some?;
    }

    method Revert()
      modifies this
      ensures Empty()
    {
      fetched := map[];
      writes := map[];
    }

    /** Any sequence of gets, sets and reverts answers as the plain map does. */
    method Replay(ops: seq<CacheOp<K, V>>, wsGet: K -> Option<V>) returns (out: seq<Option<V>>)
      requires Valid(wsGet)
      modifies this
      ensures Valid(wsGet)
      ensures PlainRun(old(writes), wsGet, ops) == (writes, out)
    {
      out := [];
      var i := 0;
      assert ops[0..] == ops;
      assert [] + PlainRun(writes, wsGet, ops).1 == PlainRun(writes, wsGet, ops).1;
      while i < |ops|
        invariant 0 <= i <= |ops|
        invariant Valid(wsGet)
        invariant var (m, rest) := PlainRun(writes, wsGet, ops[i..]);
          PlainRun(old(writes), wsGet, ops) == (m, out + rest)
      {
        ghost var rest := PlainRun(writes, wsGet, ops[i..]).1;
        assert ops[i..][0] == ops[i] && ops[i..][1..] == ops[i + 1..];
        match ops[i] {
          case GetOp(k) =>
            var v := Get(k, wsGet);
            assert out + rest == (out + [v]) + rest[1..];
            out := out + [v];
          case SetOp(k, v) => Set(k, v);
          case RevertOp => Revert();
        }
        i := i + 1;
      }
      assert out + [] == out;
    }
  }

  /** `contains` never misses a non-empty value, and is exactly right unless the key is blanked by a
      write over a world value, or the world itself stores an empty value that no write covers. */
  lemma ContainsExactIff<K, V>(writes: map<K, V>, wsGet: K -> Option<V>, len: V -> nat, key: K)
    ensures var value := Overlaid(writes, wsGet, key);
      var present := value.Some? && len(value.value) != 0;
      var found := Contained(writes, wsGet, len, key);
      && (present ==> found)
      && (found == present <==>
            if key in writes then len(writes[key]) != 0 || wsGet(key).None?
            else wsGet(key).None? || len(wsGet(key).value) != 0)
  {
  }

  /** A key that a write blanked over a value of the world: `get` finds it empty, `contains` says yes. */
  lemma {:induction false} BlankedIsContained()
    ensures var writes: map<int, Bytes> := map[7 := []];
      var wsGet := (k: int) => if k == 7 then Some([1]) else None;
      var len := (v: Bytes) => |v|;
      Overlaid(writes, wsGet, 7) == Some([]) && Contained(writes, wsGet, len, 7)
  {
  }
}
