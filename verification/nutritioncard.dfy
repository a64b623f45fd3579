/**
 The health-score badge of the result card (components/NutritionCard.tsx):
 `getScoreColor` sorts a score into one of three colour bands.
 */
module NutritionCard {

  datatype Band = Green | Yellow | Red

  /** The thresholds of the classifier. */
  const GreenFrom: real := 80.0
  const YellowFrom: real := 50.0

  /** The style classes each band renders with. */
  function BandClasses(b: Band): string {
    match b
    case Green => "text-green-600 bg-green-50"
    case Yellow => "text-yellow-600 bg-yellow-50"
    case Red => "text-red-600 bg-red-50"
  }

  /** The band of a score: green from 80 up, yellow from 50 up to but not
      including 80, red below 50. */
  function ScoreBand(score: real): (b: Band)
    ensures b == Green <==> score >= 80.0
    ensures b == Yellow <==> 50.0 <= score < 80.0
    ensures b == Red <==> score < 50.0
  {
    if score >= GreenFrom then Green
    else if score >= YellowFrom then Yellow
    else Red
  }

  /** `getScoreColor`: the class string of the score's band, so each score
      gets exactly one of the three class strings. */
  function GetScoreColor(score: real): (classes: string)
    ensures classes == "text-green-600 bg-green-50" <==> score >= 80.0
    ensures classes == "text-yellow-600 bg-yellow-50" <==> 50.0 <= score < 80.0
    ensures classes == "text-red-600 bg-red-50" <==> score < 50.0
  {
    BandClasses(ScoreBand(score))
  }

  /** Better bands rank higher. */
  function Rank(b: Band): nat {
    match b
    case Red => 0
    case Yellow => 1
    case Green => 2
  }

  /** A higher score never gets a worse band. */
  lemma ScoreBandMonotone(a: real, b: real)
    requires a <= b
    ensures Rank(ScoreBand(a)) <= Rank(ScoreBand(b))
  {
  }

  /** The three bands render differently, so the colour identifies the band. */
  lemma BandClassesInjective(b1: Band, b2: Band)
    ensures BandClasses(b1) == BandClasses(b2) <==> b1 == b2
  {
  }

  /** The values either side of each threshold. */
  lemma ScoreBandBoundaries()
    ensures ScoreBand(80.0) == Green
    ensures ScoreBand(79.0) == Yellow
    ensures ScoreBand(50.0) == Yellow
    ensures ScoreBand(49.0) == Red
  {
  }
}
