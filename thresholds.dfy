/** The two `when` expressions of the animation loop, which map the latest amplitude to the
    eye radius and the mouth width. Both are evaluated with the `> 1000` test first and the
    `< 200` test second; amplitudes are whole numbers (see module Sampler), so they are `int`. */
module Thresholds {

  const LoudAbove: int := 1000
  const QuietBelow: int := 200

  /** The loud, quiet and in-between tiers of both mappings. */
  predicate IsLoud(amplitude: int) { amplitude > LoudAbove }
  predicate IsQuiet(amplitude: int) { amplitude < QuietBelow }
  predicate IsModerate(amplitude: int) { QuietBelow <= amplitude <= LoudAbove }

  /** The first `when`: 50 when loud, 20 when quiet, 30 otherwise. */
  function EyeSize(amplitude: int): (eye: int)
    ensures eye == 50 <==> IsLoud(amplitude)
    ensures eye == 20 <==> IsQuiet(amplitude)
    ensures eye == 30 <==> IsModerate(amplitude)
  {
    if amplitude > LoudAbove then 50
    else if amplitude < QuietBelow then 20
    else 30
  }

  /** The second `when`: 100 when loud, 60 when quiet, 80 otherwise. */
  function MouthWidth(amplitude: int): (mouth: int)
    ensures mouth == 100 <==> IsLoud(amplitude)
    ensures mouth == 60 <==> IsQuiet(amplitude)
    ensures mouth == 80 <==> IsModerate(amplitude)
  {
    if amplitude > LoudAbove then 100
    else if amplitude < QuietBelow then 60
    else 80
  }

  /** The three (eye, mouth) pairs the screen can show. */
  predicate IsFacePair(eye: int, mouth: int)
  {
    (eye == 50 && mouth == 100) || (eye == 20 && mouth == 60) || (eye == 30 && mouth == 80)
  }

  /** Every amplitude falls in exactly one tier. */
  lemma TiersPartition(amplitude: int)
    ensures IsLoud(amplitude) || IsQuiet(amplitude) || IsModerate(amplitude)
    ensures !(IsLoud(amplitude) && IsQuiet(amplitude))
    ensures !(IsLoud(amplitude) && IsModerate(amplitude))
    ensures !(IsQuiet(amplitude) && IsModerate(amplitude))
  {
  }

  /** The two `when`s agree: they always produce one of the three pairs, and within a pair
      either component determines the other. */
  lemma FaceIsPaired(amplitude: int)
    ensures IsFacePair(EyeSize(amplitude), MouthWidth(amplitude))
    ensures EyeSize(amplitude) == 50 <==> MouthWidth(amplitude) == 100
    ensures EyeSize(amplitude) == 20 <==> MouthWidth(amplitude) == 60
    ensures EyeSize(amplitude) == 30 <==> MouthWidth(amplitude) == 80
  {
  }

  /** A louder sound never gives smaller eyes or a narrower mouth. */
  lemma FaceMonotone(quieter: int, louder: int)
    requires quieter <= louder
    ensures EyeSize(quieter) <= EyeSize(louder)
    ensures MouthWidth(quieter) <= MouthWidth(louder)
  {
  }

  /** The boundaries themselves: 200 and 1000 are in the middle tier, 199 and 1001 are not. */
  lemma Boundaries()
    ensures EyeSize(199) == 20 && MouthWidth(199) == 60
    ensures EyeSize(200) == 30 && MouthWidth(200) == 80
    ensures EyeSize(1000) == 30 && MouthWidth(1000) == 80
    ensures EyeSize(1001) == 50 && MouthWidth(1001) == 100
  {
  }
}
