/** Machine words.  The source works on `u64` (and `u32`, `u8`, `u128`); here they are subset types
    of `int`, so every unchecked `+`, `-` and `*` of the source becomes a proof obligation, while its
    `saturating_*` operators are the functions below. */
module Words {
  const U64_MAX: int := 0xFFFF_FFFF_FFFF_FFFF
  const U32_MAX: int := 0xFFFF_FFFF
  const U128_MAX: int := 0xFFFF_FFFF_FFFF_FFFF_FFFF_FFFF_FFFF_FFFF

  type u8 = x: int | 0 <= x <= 255
  type u32 = x: int | 0 <= x <= U32_MAX
  type u64 = x: int | 0 <= x <= U64_MAX
  type u128 = x: int | 0 <= x <= U128_MAX

  /** A 32-byte public address; only equality (and some fixed enumeration order) matters. */
  type Address = int
  type Bytes = seq<u8>

  datatype Option<+T> = None | Some(value: T)

  function Min(a: int, b: int): int { if a <= b then a else b }

  function Max(a: int, b: int): int { if a <= b then b else a }

  function SatAdd(a: u64, b: u64): u64 { Min(a + b, U64_MAX) }

  function SatSub(a: u64, b: u64): u64 { Max(a - b, 0) }

  /** A map read with a default of zero: how the account trie answers for an unknown account. */
  function Get0<K>(m: map<K, u64>, k: K): u64 { if k in m then m[k] else 0 }

  function Lookup<K, V>(m: map<K, V>, k: K): Option<V> { if k in m then Some(m[k]) else None }

  lemma SameMap<K, V>(m: map<K, V>, n: map<K, V>)
    requires forall k :: Lookup(m, k) == Lookup(n, k)
    ensures m == n
  {
    forall k ensures k in m <==> k in n { assert Lookup(m, k) == Lookup(n, k); }
    forall k | k in m ensures m[k] == n[k] { assert Lookup(m, k) == Lookup(n, k); }
  }

  lemma Pick<T>(s: set<T>) returns (x: T)
    requires s != {}
    ensures x in s
  {
    x :| x in s;
  }
}
