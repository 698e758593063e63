/** Values shared by every model: machine integers, byte strings and results.
    Integers of the program keep their width: `u8`, `u16`, `u32` and `u64` are
    the unsigned ranges, and every checked, saturating or truncating operation
    of the program is written out where it happens. */
module Base {

  type u8 = n: int | 0 <= n < 0x100
  type u16 = n: int | 0 <= n < 0x1_0000
  type u32 = n: int | 0 <= n < 0x1_0000_0000
  type u64 = n: int | 0 <= n < 0x1_0000_0000_0000_0000

  const U64_MAX: u64 := 0xffff_ffff_ffff_ffff

  type Bytes = seq<u8>
  type Bytes12 = s: Bytes | |s| == 12 witness seq(12, _ => 0)
  type Bytes16 = s: Bytes | |s| == 16 witness seq(16, _ => 0)
  type Bytes32 = s: Bytes | |s| == 32 witness seq(32, _ => 0)
  type Bytes64 = s: Bytes | |s| == 64 witness seq(64, _ => 0)

  /** An erased key. */
  function Zero32(): Bytes32 { seq(32, _ => 0) }

  datatype Option<+T> = None | Some(value: T)

  datatype Result<+T, +E> = Ok(value: T) | Err(error: E) {
    predicate IsFailure() { Err? }
    function PropagateFailure<U>(): Result<U, E>
      requires Err?
    {
      Err(error)
    }
    function Extract(): T
      requires Ok?
    {
      value
    }
  }

  function Min(a: int, b: int): int { if a < b then a else b }

  function Max(a: int, b: int): int { if a < b then b else a }

  /** `u64::saturating_add(1)`, the step of every checkpoint generation. */
  function SaturatingSucc(n: u64): u64 { if n == U64_MAX then U64_MAX else n + 1 }

  lemma {:induction false} SubsetSize<T>(a: set<T>, b: set<T>)
    requires a <= b
    ensures |a| <= |b|
  {
    if a != {} {
      var x :| x in a;
      SubsetSize(a - {x}, b - {x});
    }
  }

  /** A finite set has an element whose key is least. */
  lemma {:induction false} LeastExists<T>(s: set<T>, key: T -> int) returns (least: T)
    requires s != {}
    ensures least in s && forall x | x in s :: key(least) <= key(x)
  {
    least :| least in s;
    if s != {least} {
      var first := least;
      var other := LeastExists(s - {first}, key);
      least := if key(first) <= key(other) then first else other;
      forall x | x in s ensures key(least) <= key(x) { if x != first { assert x in s - {first}; } }
    }
  }
}
