/** The strength indicator: a score computed from the options alone (never
    from the generated characters), the label and colour it selects, the
    width of the bar drawn for that label, and the short-length warning. */
module Strength {

  /** The object `getPasswordStrength` returns. */
  datatype Rating = Rating(text: string, color: string)

  /** The five levels, weakest first. */
  datatype Level = VeryWeak | Weak | Medium | Strong | VeryStrong {

    /** The score that selects this level. */
    function Rank(): nat
    {
      match this
      case VeryWeak => 0
      case Weak => 1
      case Medium => 2
      case Strong => 3
      case VeryStrong => 4
    }

    /** The label and colour shown for this level. */
    function Display(): Rating
    {
      match this
      case VeryWeak => Rating("Very Weak", "bg-red-500")
      case Weak => Rating("Weak", "bg-orange-500")
      case Medium => Rating("Medium", "bg-yellow-500")
      case Strong => Rating("Strong", "bg-green-500")
      case VeryStrong => Rating("Very Strong", "bg-emerald-500")
    }
  }

  /** The four conditions the heuristic awards a point for, in the order it
      tests them. */
  function Conditions(length: int, numberAllowed: bool, charAllowed: bool): seq<bool>
  {
    [length >= 8, length >= 12, numberAllowed, charAllowed]
  }

  /** How many of `conditions` hold. */
  function CountTrue(conditions: seq<bool>): (n: nat)
    ensures n <= |conditions|
  {
    if conditions == [] then 0
    else (if conditions[0] then 1 else 0) + CountTrue(conditions[1..])
  }

  /** The score `strength`, built by one increment per condition met. */
  function Score(length: int, numberAllowed: bool, charAllowed: bool): (strength: nat)
    ensures strength <= 4
    ensures strength == 0 <==> length < 8 && !numberAllowed && !charAllowed
  {
    var s0 := 0;
    var s1 := if length >= 8 then s0 + 1 else s0;
    var s2 := if length >= 12 then s1 + 1 else s1;
    var s3 := if numberAllowed then s2 + 1 else s2;
    var s4 := if charAllowed then s3 + 1 else s3;
    s4
  }

  /** The score is the number of the four conditions that hold. */
  lemma ScoreCountsConditions(length: int, numberAllowed: bool, charAllowed: bool)
    ensures Score(length, numberAllowed, charAllowed) == CountTrue(Conditions(length, numberAllowed, charAllowed))
  {
    var c := Conditions(length, numberAllowed, charAllowed);
    assert c[1..][1..][1..][1..] == [];
    assert CountTrue(c[1..][1..][1..]) == (if charAllowed then 1 else 0);
    assert CountTrue(c[1..][1..]) == (if numberAllowed then 1 else 0) + (if charAllowed then 1 else 0);
  }

  /** The switch over the score, including its `default` branch: a score
      from 0 to 4 selects the level of that rank, and whatever the score,
      the result is the display of one of the five levels. */
  function StrengthSwitch(strength: int): (r: Rating)
    ensures 0 <= strength <= 4 ==> exists level: Level :: level.Rank() == strength && r == level.Display()
    ensures !(0 <= strength <= 4) ==> r == VeryWeak.Display()
  {
    assert VeryWeak.Rank() == 0 && Weak.Rank() == 1 && Medium.Rank() == 2;
    assert Strong.Rank() == 3 && VeryStrong.Rank() == 4;
    match strength
    case 0 => Rating("Very Weak", "bg-red-500")
    case 1 => Rating("Weak", "bg-orange-500")
    case 2 => Rating("Medium", "bg-yellow-500")
    case 3 => Rating("Strong", "bg-green-500")
    case 4 => Rating("Very Strong", "bg-emerald-500")
    case _ => Rating("Very Weak", "bg-red-500")
  }

  /** The level a configuration earns: the one whose rank is its score. */
  function LevelOf(length: int, numberAllowed: bool, charAllowed: bool): (level: Level)
    ensures level.Rank() == Score(length, numberAllowed, charAllowed)
  {
    match Score(length, numberAllowed, charAllowed)
    case 0 => VeryWeak
    case 1 => Weak
    case 2 => Medium
    case 3 => Strong
    case _ => VeryStrong
  }

  /** `getPasswordStrength`: the switch never reaches its `default` branch,
      so the rating shown is exactly the display of the level earned. */
  function GetPasswordStrength(length: int, numberAllowed: bool, charAllowed: bool): (r: Rating)
    ensures r == LevelOf(length, numberAllowed, charAllowed).Display()
  {
    StrengthSwitch(Score(length, numberAllowed, charAllowed))
  }

  /** The bar width, in percent, chosen by comparing the label's text:
      one of the five widths, and the narrowest for any unknown text. */
  function BarWidth(text: string): (w: int)
    ensures w in {10, 25, 50, 75, 100}
    ensures text !in {"Very Strong", "Strong", "Medium", "Weak"} ==> w == 10
  {
    if text == "Very Strong" then 100
    else if text == "Strong" then 75
    else if text == "Medium" then 50
    else if text == "Weak" then 25
    else 10
  }

  /** Each level's bar width, and the widths strictly increase with rank. */
  lemma BarWidthByLevel(level: Level, other: Level)
    ensures BarWidth(level.Display().text) == [10, 25, 50, 75, 100][level.Rank()]
    ensures level.Rank() < other.Rank() ==> BarWidth(level.Display().text) < BarWidth(other.Display().text)
  {
  }

  /** The rendered bar grows strictly with the score. */
  lemma BarWidthIncreasesWithScore(length: int, numberAllowed: bool, charAllowed: bool,
                                   length': int, numberAllowed': bool, charAllowed': bool)
    requires Score(length, numberAllowed, charAllowed) < Score(length', numberAllowed', charAllowed')
    ensures BarWidth(GetPasswordStrength(length, numberAllowed, charAllowed).text)
          < BarWidth(GetPasswordStrength(length', numberAllowed', charAllowed').text)
  {
    BarWidthByLevel(LevelOf(length, numberAllowed, charAllowed), LevelOf(length', numberAllowed', charAllowed'));
  }

  /** Whether the short-length warning is shown: exactly when the length
      alone earns no point, i.e. a configuration with both options off
      scores zero. */
  function ShowsLengthWarning(length: int): (shown: bool)
    ensures shown <==> Score(length, false, false) == 0
  {
    length < 8
  }

  /** The warning is shown exactly when the length point is missing: the
      score is then made of the two options alone, and the rating is at
      most Medium. */
  lemma WarningIffNoLengthPoint(length: int, numberAllowed: bool, charAllowed: bool)
    ensures ShowsLengthWarning(length) <==>
      Score(length, numberAllowed, charAllowed) == CountTrue([numberAllowed, charAllowed])
    ensures ShowsLengthWarning(length) ==> LevelOf(length, numberAllowed, charAllowed).Rank() <= Medium.Rank()
  {
    assert [numberAllowed, charAllowed][1..][1..] == [];
  }

  /** A longer password never scores lower, and switching either option on
      never lowers the score. */
  lemma ScoreMonotone(length: int, longer: int, numberAllowed: bool, charAllowed: bool)
    requires length <= longer
    ensures Score(length, numberAllowed, charAllowed) <= Score(longer, numberAllowed, charAllowed)
    ensures Score(length, false, charAllowed) <= Score(length, true, charAllowed)
    ensures Score(length, numberAllowed, false) <= Score(length, numberAllowed, true)
  {
  }

  /** Worked examples of the heuristic. */
  lemma StrengthExamples()
    ensures LevelOf(6, false, false) == VeryWeak
    ensures LevelOf(10, true, false) == Medium
    ensures LevelOf(14, true, true) == VeryStrong
    ensures LevelOf(100, false, false) == LevelOf(12, false, false) == Medium
  {
  }
}
