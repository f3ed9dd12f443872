/** The character pool the generator samples from. */
module Pool {

  /** The upper-case half of the base alphabet. */
  const Upper: string := "ABCDEFGHIJKLMNOPQRSTUVWXYZ"

  /** The lower-case half of the base alphabet. */
  const Lower: string := "abcdefghijklmnopqrstuvwxyz"

  /** The base alphabet every pool starts with (one 52-character literal in
      the application, split here only so that its halves can be reasoned
      about separately). */
  const Letters: string := Upper + Lower

  /** Appended when numbers are allowed. */
  const Digits: string := "0123456789"

  /** Appended when special characters are allowed. */
  const Symbols: string := "!@#$%^&*-_+=[]{}~`"

  /** `n` consecutive code points starting at `first`. */
  function Run(first: char, n: nat): (s: string)
    requires first as int + n <= 0xD800
    ensures |s| == n
    ensures forall i :: 0 <= i < n ==> s[i] as int == first as int + i
  {
    seq(n, i requires 0 <= i < n => (first as int + i) as char)
  }

  /** The three fixed alphabets are runs of consecutive code points. */
  lemma AlphabetsAreRuns()
    ensures Upper == Run('A', 26)
    ensures Lower == Run('a', 26)
    ensures Digits == Run('0', 10)
  {
  }

  /** The pool built by concatenation: the letters, then the digits when
      `numberAllowed`, then the symbols when `charAllowed`. */
  function BuildPool(numberAllowed: bool, charAllowed: bool): (str: string)
    ensures |str| == 52 + (if numberAllowed then 10 else 0) + (if charAllowed then 18 else 0)
    ensures str[..52] == Letters
    ensures numberAllowed ==> str[52..62] == Digits
    ensures charAllowed ==> str[|str| - 18..] == Symbols
    ensures forall ch :: ch in str <==>
      ch in Letters || (numberAllowed && ch in Digits) || (charAllowed && ch in Symbols)
  {
    var withDigits := if numberAllowed then Letters + Digits else Letters;
    if charAllowed then withDigits + Symbols else withDigits
  }

  /** The pool only ever has one of four sizes, and with both options off it
      is exactly the letters. */
  lemma PoolSizes(numberAllowed: bool, charAllowed: bool)
    ensures |BuildPool(numberAllowed, charAllowed)| in {52, 62, 70, 80}
    ensures !numberAllowed && !charAllowed ==> BuildPool(numberAllowed, charAllowed) == Letters
  {
  }

  /** Within the letters, 'A' occurs only at the front. */
  lemma UpperHeadOnly()
    ensures Upper[0] == 'A'
    ensures forall i :: 1 <= i < |Upper| ==> Upper[i] != 'A'
    ensures 'A' !in Lower
  {
    AlphabetsAreRuns();
  }

  /** Neither optional alphabet contains 'A'. */
  lemma OptionsLackA()
    ensures 'A' !in Digits
    ensures 'A' !in Symbols
  {
  }

  /** A character found only at the front of `head`, and not in `tail`, is
      found only at the front of `head + tail`. */
  lemma FrontOnly(head: string, tail: string, c: char)
    requires |head| > 0 && head[0] == c
    requires forall i :: 1 <= i < |head| ==> head[i] != c
    requires c !in tail
    ensures (head + tail)[0] == c
    ensures forall i :: 1 <= i < |head + tail| ==> (head + tail)[i] != c
  {
    forall i | 1 <= i < |head + tail|
      ensures (head + tail)[i] != c
    {
      if i >= |head| {
        assert (head + tail)[i] == tail[i - |head|];
      }
    }
  }

  /** The pool after its upper-case letters: the lower-case letters, then
      whichever optional alphabets are enabled. */
  function AfterUpper(numberAllowed: bool, charAllowed: bool): string
  {
    Lower + (if numberAllowed then Digits else "") + (if charAllowed then Symbols else "")
  }

  /** Concatenation regroups freely. */
  lemma ConcatAssoc(a: string, b: string, c: string)
    ensures (a + b) + c == a + (b + c)
  {
  }

  /** The pool splits into the upper-case letters and the rest. */
  lemma SplitAtUpper(numberAllowed: bool, charAllowed: bool)
    ensures BuildPool(numberAllowed, charAllowed) == Upper + AfterUpper(numberAllowed, charAllowed)
  {
    var opt := (if numberAllowed then Digits else "") + (if charAllowed then Symbols else "");
    ConcatAssoc(Letters, if numberAllowed then Digits else "", if charAllowed then Symbols else "");
    ConcatAssoc(Upper, Lower, opt);
    ConcatAssoc(Lower, if numberAllowed then Digits else "", if charAllowed then Symbols else "");
  }

  /** 'A' heads every pool and occurs nowhere else in it. */
  lemma OnlyFirstIsA(numberAllowed: bool, charAllowed: bool)
    ensures BuildPool(numberAllowed, charAllowed)[0] == 'A'
    ensures forall i :: 1 <= i < |BuildPool(numberAllowed, charAllowed)| ==>
      BuildPool(numberAllowed, charAllowed)[i] != 'A'
  {
    SplitAtUpper(numberAllowed, charAllowed);
    UpperHeadOnly();
    OptionsLackA();
    assert 'A' !in AfterUpper(numberAllowed, charAllowed);
    FrontOnly(Upper, AfterUpper(numberAllowed, charAllowed), 'A');
  }
}
