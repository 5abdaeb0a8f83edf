/** Small vocabulary shared by the models: optional values, `u64` arithmetic and
    two facts about finite sets. */
module Prelude {

  datatype Option<+T> = None | Some(value: T)

  datatype Result<+T> = Ok(value: T) | Err

  const U64_MAX: nat := 0xFFFF_FFFF_FFFF_FFFF

  /** `u64::saturating_sub`. */
  function SatSub(a: nat, b: nat): nat {
    if a <= b then 0 else a - b
  }

  /** `u64::saturating_add`, for operands that are themselves `u64` values. */
  function SatAdd(a: nat, b: nat): nat {
    if a + b <= U64_MAX then a + b else U64_MAX
  }

  function Min(a: int, b: int): int {
    if a <= b then a else b
  }

  function Pow2(n: nat): (p: nat)
    ensures p >= 1
  {
    if n == 0 then 1 else 2 * Pow2(n - 1)
  }

  /** A set that maps injectively into another is no larger than it. */
  lemma {:induction false} InjectionSize<A, B>(s: set<A>, t: set<B>, f: map<A, B>)
    requires s <= f.Keys
    requires forall a :: a in s ==> f[a] in t
    requires forall a, b :: a in s && b in s && f[a] == f[b] ==> a == b
    ensures |s| <= |t|
    decreases s
  {
    if s != {} {
      var a :| a in s;
      InjectionSize(s - {a}, t - {f[a]}, f);
      assert |s| == |s - {a}| + 1;
    }
  }

  lemma {:induction false} SubsetSize<A>(s: set<A>, t: set<A>)
    requires s <= t
    ensures |s| <= |t|
    decreases s
  {
    if s != {} {
      var a :| a in s;
      SubsetSize(s - {a}, t - {a});
    }
  }
}
