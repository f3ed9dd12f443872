/** The draw expression as written picks an index from 1 to the pool's
    length; the evidently intended one picks from 0 to length - 1. This
    module exhibits what the written form loses and proves the intended
    form delivers exactly `length` characters. */
module OffByOne {
  import opened JsString
  import opened Pool
  import opened Generator

  /** As written: one requested character, and a random value the source
      can produce, give an empty password; and the pool's first character
      is out of reach for every random value. */
  lemma AsWrittenShortfall()
    ensures DrawIndex(0.99, 52) == 52
    ensures Sample(BuildPool(false, false), [DrawIndex(0.99, 52)]) == ""
    ensures forall u: real :: 0.0 <= u < 1.0 ==> DrawIndex(u, 52) != 0
  {
    assert [DrawIndex(0.99, 52)][..0] == [];
  }

  /** `Math.floor(u * size)`: the index the expression was meant to give. */
  function IntendedDrawIndex(u: real, size: nat): (k: int)
    requires 0.0 <= u < 1.0
    requires size >= 1
    ensures 0 <= k < size
  {
    assert 0.0 <= u * size as real < size as real;
    (u * size as real).Floor
  }

  /** Every index of the pool, the first included, is reachable. */
  lemma IntendedDrawReachesEveryIndex(size: nat, k: nat)
    requires k < size
    ensures 0.0 <= k as real / size as real < 1.0
    ensures IntendedDrawIndex(k as real / size as real, size) == k
  {
    assert k as real / size as real * size as real == k as real;
  }

  /** Draws that all lie inside the pool yield one pool character each. */
  lemma {:induction false} InRangeSampleExact(pool: string, draws: seq<int>)
    requires forall k :: 0 <= k < |draws| ==> 0 <= draws[k] < |pool|
    ensures |Sample(pool, draws)| == |draws|
    ensures forall j :: 0 <= j < |draws| ==> Sample(pool, draws)[j] == pool[draws[j]]
    decreases |draws|
  {
    if draws != [] {
      var init := draws[..|draws| - 1];
      assert forall k :: 0 <= k < |init| ==> init[k] == draws[k];
      InRangeSampleExact(pool, init);
    }
  }

  /** The generator with the intended index: exactly `DrawCount(length)`
      characters, the `j`-th being the pool character the `j`-th random
      value selects. */
  function IntendedPasswordGenerator(length: int, numberAllowed: bool, charAllowed: bool,
                                     randoms: seq<real>): (pass: string)
    requires |randoms| == DrawCount(length)
    requires forall k :: 0 <= k < |randoms| ==> 0.0 <= randoms[k] < 1.0
    ensures |pass| == DrawCount(length)
    ensures forall j :: 0 <= j < |pass| ==>
      pass[j] == BuildPool(numberAllowed, charAllowed)[IntendedDrawIndex(randoms[j], |BuildPool(numberAllowed, charAllowed)|)]
  {
    var str := BuildPool(numberAllowed, charAllowed);
    var draws := seq(|randoms|, k requires 0 <= k < |randoms| => IntendedDrawIndex(randoms[k], |str|));
    InRangeSampleExact(str, draws);
    Sample(str, draws)
  }
}
