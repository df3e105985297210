/**
 * Raw keys and session-windowed keys of a session store: `Bytes`, `SessionWindow`
 * and `Windowed<Bytes>`.
 */
module SessionKeys {

  /** An unsigned byte; `Bytes` compares its bytes as unsigned values. */
  newtype byte = x: int | 0 <= x < 256

  /** The content of a `Bytes` wrapper. */
  type Bytes = seq<byte>

  /** Java's `long`: times and offsets are 64-bit signed. */
  newtype int64 = x: int | -0x8000_0000_0000_0000 <= x < 0x8000_0000_0000_0000

  /** Java's `int`, as partition numbers are. */
  newtype int32 = x: int | -0x8000_0000 <= x < 0x8000_0000

  /** A session window: the time of its first and of its last event, in milliseconds. */
  datatype SessionWindow = SessionWindow(start: int64, end: int64)

  /** A raw key together with the session window it is stored under. */
  datatype Windowed = Windowed(key: Bytes, window: SessionWindow)

  /** The order of `Bytes.compareTo`: lexicographic over unsigned bytes, a prefix first. */
  predicate LexLessEq(a: Bytes, b: Bytes)
  {
    if a == [] then true
    else if b == [] then false
    else a[0] < b[0] || (a[0] == b[0] && LexLessEq(a[1..], b[1..]))
  }

  /** A range `[k, k]` holds the key `k` and nothing else. */
  lemma {:induction false} LexAntisymmetric(a: Bytes, b: Bytes)
    requires LexLessEq(a, b) && LexLessEq(b, a)
    ensures a == b
  {
    if a != [] && b != [] {
      LexAntisymmetric(a[1..], b[1..]);
      assert a == [a[0]] + a[1..] && b == [b[0]] + b[1..];
    }
  }

  lemma {:induction false} LexReflexive(a: Bytes)
    ensures LexLessEq(a, a)
  {
    if a != [] {
      LexReflexive(a[1..]);
    }
  }
}
