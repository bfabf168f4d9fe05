/** The English number vocabulary shared by the renderers and the parser:
    the word tables, the numeral words as values, and how each is spelled. */
module EnglishWords {

  /** "zero" .. "nineteen", indexed by value. */
  const SmallNames: seq<string> := [
    "zero", "one", "two", "three", "four", "five", "six", "seven", "eight",
    "nine", "ten", "eleven", "twelve", "thirteen", "fourteen", "fifteen",
    "sixteen", "seventeen", "eighteen", "nineteen"]

  /** The multiples of ten from twenty: `TensNames[k - 2]` names `k * 10`. */
  const TensNames: seq<string> := [
    "twenty", "thirty", "forty", "fifty", "sixty", "seventy", "eighty", "ninety"]

  /** Scale words in order: `ScaleNames[0]` is "thousand" and `ScaleNames[k]`
      for k >= 1 is the k-th "-illion". Under the short scale the group
      `1000^(k+1)` is named `ScaleNames[k]`; under the long scale the chunk
      `(10^6)^k` is. */
  const ScaleNames: seq<string> := [
    "thousand", "million", "billion", "trillion", "quadrillion",
    "quintillion", "sextillion", "septillion", "octillion", "nonillion",
    "decillion", "undecillion", "duodecillion", "tredecillion",
    "quattuordecillion", "quinquadecillion", "sedecillion",
    "septendecillion", "octodecillion", "novendecillion", "vigintillion",
    "unvigintillion", "uuovigintillion", "tresvigintillion",
    "quattuorvigintillion", "quinquavigintillion", "qesvigintillion",
    "septemvigintillion", "octovigintillion", "novemvigintillion",
    "trigintillion", "untrigintillion", "duotrigintillion",
    "trestrigintillion", "quattuortrigintillion", "quinquatrigintillion",
    "sestrigintillion", "septentrigintillion", "octotrigintillion",
    "noventrigintillion", "quadragintillion"] + [
    "quinquagintillion", "sexagintillion", "septuagintillion",
    "octogintillion", "nonagintillion", "centillion", "uncentillion",
    "millinillion"]

  /** How many scale words the table holds. */
  const ScaleCount := 49

  type SmallIndex = k: nat | k < 20
  type TensIndex = k: nat | 2 <= k <= 9 witness 2
  type ScaleIndex = k: nat | k < ScaleCount

  /** A numeral word: `Small(k)` names k < 20, `Tens(k)` names 10 * k,
      `Scale(k)` is `ScaleNames[k]`, and `Ordinal(w)` is the ordinal form of
      `w` ("sixth", "hundredth", "millionth"). */
  datatype Word =
    | Small(k: SmallIndex)
    | Tens(t: TensIndex)
    | Hundred
    | And
    | Minus
    | Point
    | Oh
    | Scale(s: ScaleIndex)
    | Ordinal(base: Word)

  /** How a word is spelled. */
  function WordText(w: Word): (s: string)
  {
    assert |ScaleNames| == ScaleCount;
    match w
    case Small(k) => SmallNames[k]
    case Tens(t) => TensNames[t - 2]
    case Hundred => "hundred"
    case And => "and"
    case Minus => "minus"
    case Point => "point"
    case Oh => "oh"
    case Scale(s) => ScaleNames[s]
    case Ordinal(b) => OrdinalWord(WordText(b))
  }

  function Pow(b: nat, e: nat): (r: nat)
    ensures b >= 1 ==> r >= 1
    decreases e
  {
    if e == 0 then 1 else b * Pow(b, e - 1)
  }

  /** The value of the scale word `Scale(k)`: under the short scale it is
      1000^(k+1); under the long scale "thousand" is still 10^3 and the k-th
      "-illion" is (10^6)^k. */
  function ScaleValue(k: ScaleIndex, shortScale: bool): (v: nat)
    ensures v >= 1000
  {
    if shortScale || k == 0 then Pow(1000, k + 1) else Pow(1000000, k)
  }

  /** The ordinal form of a cardinal word, as the last word of an ordinal
      numeral takes it. */
  function OrdinalWord(w: string): (o: string)
    ensures o in ["first", "second", "third"] || (|o| >= 2 && o[|o| - 2..] == "th")
  {
    if w == "one" then "first"
    else if w == "two" then "second"
    else if w == "three" then "third"
    else if w == "five" then "fifth"
    else if w == "eight" then "eighth"
    else if w == "nine" then "ninth"
    else if w == "twelve" then "twelfth"
    else if w != "" && w[|w| - 1] == 'y' then w[..|w| - 1] + "ieth"
    else w + "th"
  }
}
