/** Vocabulary shared by the whole model: optional values, outcomes that carry an error,
    the machine integers of the Rust source with their saturating addition, and sums
    over finite sets of keys. */
module Prelude {

  datatype Option<+T> = None | Some(value: T) {
    predicate IsFailure() {
      None?
    }

    function PropagateFailure<U>(): Option<U>
      requires None?
    {
      None
    }

    function Extract(): T
      requires Some?
    {
      value
    }

    function GetOr(default: T): T {
      if Some? then value else default
    }
  }

  datatype Result<+T, +E> = Ok(value: T) | Err(error: E)

  const U8_MAX: int := 0xFF
  const U32_MAX: int := 0xFFFF_FFFF
  const U64_MAX: int := 0xFFFF_FFFF_FFFF_FFFF
  const I32_MAX: int := 0x7FFF_FFFF
  const I32_MIN: int := -0x8000_0000
  const I64_MAX: int := 0x7FFF_FFFF_FFFF_FFFF
  const I64_MIN: int := -0x8000_0000_0000_0000

  type U8 = x: int | 0 <= x <= U8_MAX
  type U32 = x: int | 0 <= x <= U32_MAX
  type U64 = x: int | 0 <= x <= U64_MAX
  type I32 = x: int | I32_MIN <= x <= I32_MAX
  type I64 = x: int | I64_MIN <= x <= I64_MAX

  function Min(a: int, b: int): int {
    if a <= b then a else b
  }

  function Max(a: int, b: int): int {
    if a <= b then b else a
  }

  /** `u64::saturating_add`. */
  function SatAddU64(a: U64, b: U64): U64 {
    Min(a + b, U64_MAX)
  }

  /** `i64::saturating_add` with a non-negative right operand. */
  function SatAddI64(a: I64, b: I64): I64
    requires 0 <= b
  {
    Min(a + b, I64_MAX)
  }

  /** The sum of `f` over a finite set of keys. */
  ghost function SumOver(keys: set<nat>, f: nat -> nat): nat
  {
    if keys == {} then 0 else
      var k :| k in keys;
      f(k) + SumOver(keys - {k}, f)
  }

  /** Any element may be split off a sum. */
  lemma {:induction false} SumSplit(keys: set<nat>, f: nat -> nat, x: nat)
    requires x in keys
    ensures SumOver(keys, f) == f(x) + SumOver(keys - {x}, f)
    decreases keys
  {
    var k :| k in keys && SumOver(keys, f) == f(k) + SumOver(keys - {k}, f);
    if k != x {
      SumSplit(keys - {k}, f, x);
      SumSplit(keys - {x}, f, k);
      assert keys - {k} - {x} == keys - {x} - {k};
    }
  }

  /** Sums agree where the summed functions agree. */
  lemma {:induction false} SumCongruence(keys: set<nat>, f: nat -> nat, g: nat -> nat)
    requires forall k :: k in keys ==> f(k) == g(k)
    ensures SumOver(keys, f) == SumOver(keys, g)
    decreases keys
  {
    if keys != {} {
      var k :| k in keys;
      SumSplit(keys, f, k);
      SumSplit(keys, g, k);
      SumCongruence(keys - {k}, f, g);
    }
  }

  lemma SumWithOneMore(keys: set<nat>, x: nat, f: nat -> nat, g: nat -> nat)
    requires x !in keys && forall k :: k in keys ==> f(k) == g(k)
    ensures SumOver(keys + {x}, g) == SumOver(keys, f) + g(x)
  {
    SumSplit(keys + {x}, g, x);
    assert keys + {x} - {x} == keys;
    SumCongruence(keys, f, g);
  }

  /** A sum over fewer keys is no larger. */
  lemma {:induction false} SumMonotone(few: set<nat>, many: set<nat>, f: nat -> nat)
    requires few <= many
    ensures SumOver(few, f) <= SumOver(many, f)
    decreases many
  {
    if few != {} {
      var k :| k in few;
      SumSplit(few, f, k);
      SumSplit(many, f, k);
      SumMonotone(few - {k}, many - {k}, f);
    }
  }
}
