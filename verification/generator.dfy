/** Password generation: the sampling loop of the application's password
    generator, with each `Math.random()` call replaced by the index it
    produces. */
module Generator {
  import opened JsString
  import opened Pool

  /** How many times `for (let i = 1; i <= length; i++)` runs its body:
      `length` when positive, and never for a non-positive length. */
  function DrawCount(length: int): (n: nat)
    ensures n >= length
    ensures length > 0 ==> n == length
    ensures length <= 0 ==> n == 0
  {
    if length <= 0 then 0 else length
  }

  /** `Math.floor(u * size + 1)` for a `Math.random()` value `u`, read over
      exact reals: always an index from 1 to `size`, never 0. */
  function DrawIndex(u: real, size: nat): (k: int)
    requires 0.0 <= u < 1.0
    ensures 1 <= k
    ensures size >= 1 ==> k <= size
  {
    assert 0.0 <= u * size as real <= size as real;
    assert size >= 1 ==> u * size as real < size as real;
    (u * size as real + 1.0).Floor
  }

  /** Every draw is an index the expression above can produce for a pool of
      `size` characters. */
  ghost predicate ValidDraws(draws: seq<int>, size: nat)
  {
    forall k :: 0 <= k < |draws| ==> 1 <= draws[k] <= size
  }

  /** The indices a run of `Math.random()` values turns into. */
  function DrawsOf(randoms: seq<real>, size: nat): (draws: seq<int>)
    requires forall k :: 0 <= k < |randoms| ==> 0.0 <= randoms[k] < 1.0
    requires size >= 1
    ensures |draws| == |randoms|
    ensures ValidDraws(draws, size)
  {
    seq(|randoms|, k requires 0 <= k < |randoms| => DrawIndex(randoms[k], size))
  }

  /** Whether `pool.charAt(d)` yields a character. */
  predicate Hits(pool: string, d: int)
  {
    0 <= d < |pool|
  }

  /** How many draws fall outside `pool`, so that `charAt` appends nothing. */
  function Dropped(pool: string, draws: seq<int>): (n: nat)
    ensures n <= |draws|
  {
    if draws == [] then 0
    else Dropped(pool, draws[..|draws| - 1]) + (if Hits(pool, draws[|draws| - 1]) then 0 else 1)
  }

  /** The draws that do yield a character, in order. */
  function Kept(pool: string, draws: seq<int>): (kept: seq<int>)
    ensures |kept| + Dropped(pool, draws) == |draws|
    ensures forall j :: 0 <= j < |kept| ==> Hits(pool, kept[j]) && kept[j] in draws
  {
    if draws == [] then []
    else
      var d := draws[|draws| - 1];
      Kept(pool, draws[..|draws| - 1]) + (if Hits(pool, d) then [d] else [])
  }

  /** How many draws equal `v`. */
  function Occurrences(draws: seq<int>, v: int): (n: nat)
    ensures n <= |draws|
  {
    if draws == [] then 0
    else Occurrences(draws[..|draws| - 1], v) + (if draws[|draws| - 1] == v then 1 else 0)
  }

  /** The string built by `pass += str.charAt(d)` for each draw `d` in turn:
      one character per draw that hits the pool, none for one that misses,
      and every character taken from the pool. */
  function Sample(pool: string, draws: seq<int>): (pass: string)
    ensures |pass| == |draws| - Dropped(pool, draws)
    ensures forall j :: 0 <= j < |pass| ==> pass[j] in pool
  {
    if draws == [] then ""
    else Sample(pool, draws[..|draws| - 1]) + CharAt(pool, draws[|draws| - 1])
  }

  /** Reference reading of the fold: the password is the pool looked up at
      the draws that hit it, in draw order. */
  lemma {:induction false} SampleLooksUpKept(pool: string, draws: seq<int>)
    ensures |Sample(pool, draws)| == |Kept(pool, draws)|
    ensures forall j :: 0 <= j < |Kept(pool, draws)| ==>
      Sample(pool, draws)[j] == pool[Kept(pool, draws)[j]]
    decreases |draws|
  {
    if draws != [] {
      var init := draws[..|draws| - 1];
      SampleLooksUpKept(pool, init);
    }
  }

  /** With draws the source's expression can produce, the only draws that
      miss are those equal to the pool's length. */
  lemma {:induction false} DroppedAreEndHits(pool: string, draws: seq<int>)
    requires ValidDraws(draws, |pool|)
    ensures Dropped(pool, draws) == Occurrences(draws, |pool|)
    decreases |draws|
  {
    if draws != [] {
      var init := draws[..|draws| - 1];
      assert ValidDraws(init, |pool|) by {
        forall k | 0 <= k < |init| ensures 1 <= init[k] <= |pool| {
          assert init[k] == draws[k];
        }
      }
      DroppedAreEndHits(pool, init);
    }
  }

  /** With draws the source's expression can produce, the first character
      of the pool is never chosen, so a character that appears only there
      never appears in the password. */
  lemma NeverFirst(pool: string, draws: seq<int>)
    requires ValidDraws(draws, |pool|)
    requires forall i :: 1 <= i < |pool| ==> pool[i] != pool[0]
    ensures forall j :: 0 <= j < |Sample(pool, draws)| ==> Sample(pool, draws)[j] != pool[0]
  {
    SampleLooksUpKept(pool, draws);
    var kept := Kept(pool, draws);
    forall j | 0 <= j < |Sample(pool, draws)|
      ensures Sample(pool, draws)[j] != pool[0]
    {
      var k :| 0 <= k < |draws| && draws[k] == kept[j];
      assert 1 <= kept[j];
    }
  }

  /** The password generator: builds the pool from the two options, then
      appends `pool.charAt(d)` for each of the `DrawCount(length)` draws. */
  method PasswordGenerator(length: int, numberAllowed: bool, charAllowed: bool, draws: seq<int>)
    returns (pass: string)
    requires |draws| == DrawCount(length)
    requires ValidDraws(draws, |BuildPool(numberAllowed, charAllowed)|)
    ensures pass == Sample(BuildPool(numberAllowed, charAllowed), draws)
    ensures length <= 0 ==> pass == ""
    ensures |pass| <= DrawCount(length)
    ensures |pass| == DrawCount(length) - Occurrences(draws, |BuildPool(numberAllowed, charAllowed)|)
    ensures forall j :: 0 <= j < |pass| ==> pass[j] in BuildPool(numberAllowed, charAllowed)
    ensures forall j :: 0 <= j < |pass| ==> pass[j] != 'A'
  {
    pass := "";
    var str := Letters;
    if numberAllowed {
      str := str + Digits;
    }
    if charAllowed {
      str := str + Symbols;
    }
    assert str == BuildPool(numberAllowed, charAllowed);
    var i := 1;
    while i <= length
      invariant 1 <= i <= DrawCount(length) + 1
      invariant pass == Sample(str, draws[..i - 1])
    {
      var index := draws[i - 1];
      assert draws[..i][..i - 1] == draws[..i - 1];
      pass := pass + CharAt(str, index);
      i := i + 1;
    }
    assert draws[..i - 1] == draws;
    DroppedAreEndHits(str, draws);
    OnlyFirstIsA(numberAllowed, charAllowed);
    NeverFirst(str, draws);
  }

  /** The generator driven by `Math.random()` values: each value becomes the
      index the source's expression gives, so the password is never longer
      than requested and never contains 'A'. */
  method PasswordFromRandoms(length: int, numberAllowed: bool, charAllowed: bool, randoms: seq<real>)
    returns (pass: string)
    requires |randoms| == DrawCount(length)
    requires forall k :: 0 <= k < |randoms| ==> 0.0 <= randoms[k] < 1.0
    ensures |pass| <= DrawCount(length)
    ensures forall j :: 0 <= j < |pass| ==> pass[j] in BuildPool(numberAllowed, charAllowed)
    ensures forall j :: 0 <= j < |pass| ==> pass[j] != 'A'
  {
    var draws := DrawsOf(randoms, |BuildPool(numberAllowed, charAllowed)|);
    pass := PasswordGenerator(length, numberAllowed, charAllowed, draws);
  }
}
