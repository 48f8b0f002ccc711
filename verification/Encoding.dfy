/** Byte strings and their big-endian integer value, as math/big reads and writes them. */
module Encoding {

  newtype byte = x: int | 0 <= x < 256

  type Bytes = seq<byte>

  /** peer.ID is a Go string: the raw bytes of the identifier. The empty string means "no peer". */
  type PeerID = Bytes

  const NO_PEER: PeerID := []

  /** SHA-256 output: 32 bytes. */
  type Digest = d: Bytes | |d| == 32 witness seq(32, _ => 0)

  type Hash = Bytes -> Digest

  datatype Option<+T> = None | Some(value: T)

  /** big.Int.SetBytes: the unsigned big-endian value. */
  function BigEndian(b: Bytes): nat {
    if b == [] then 0 else BigEndian(b[..|b| - 1]) * 256 + b[|b| - 1] as nat
  }

  /** big.Int.Bytes: the shortest big-endian representation (empty for zero). */
  function MinBytes(n: nat): Bytes {
    if n == 0 then [] else MinBytes(n / 256) + [(n % 256) as byte]
  }

  function Abs(x: int): nat {
    if x < 0 then -x else x
  }

  lemma {:induction false} MinBytesRoundTrip(n: nat)
    ensures BigEndian(MinBytes(n)) == n
    ensures n > 0 ==> MinBytes(n)[0] != 0
  {
    if n > 0 {
      MinBytesRoundTrip(n / 256);
      var b := MinBytes(n);
      assert b[..|b| - 1] == MinBytes(n / 256);
    }
  }

  /** Two byte strings of one length with one integer value are the same bytes. */
  lemma {:induction false} BigEndianInjective(a: Bytes, b: Bytes)
    requires |a| == |b| && BigEndian(a) == BigEndian(b)
    ensures a == b
  {
    if a != [] {
      var a', b' := a[..|a| - 1], b[..|b| - 1];
      BigEndianInjective(a', b');
      assert a == a' + [a[|a| - 1]] && b == b' + [b[|b| - 1]];
    }
  }

  lemma {:induction false} ZeroBytes(x: Bytes, i: nat)
    requires i < |x| && BigEndian(x) == 0
    ensures x[i] == 0
  {
    if i < |x| - 1 {
      ZeroBytes(x[..|x| - 1], i);
    }
  }

  function Get<K, V>(m: map<K, V>, k: K): Option<V> {
    if k in m then Some(m[k]) else None
  }

  /** H has no collision among the values of S (no total hash can be injective outright). */
  ghost predicate InjectiveOn(H: Hash, S: set<Bytes>) {
    forall x, y | x in S && y in S && H(x) == H(y) :: x == y
  }
}
