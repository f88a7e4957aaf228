/**
 * The parts of the hiveminder game library that the core relies on but that are
 * not part of this model (hiveminder/headings.py, hiveminder/_util.py,
 * hiveminder/game_params.py, hiveminder/hive.py). Each is given the smallest
 * definition the core needs.
 */
module Hiveminder {

  /** The six headings, in degrees, as the game writes them. */
  predicate IsHeading(h: int) {
    h == 0 || h == 60 || h == 120 || h == 180 || h == -120 || h == -60
  }

  type Heading = h: int | IsHeading(h) witness 0

  /** The six headings in turning order, each 60 degrees from the next. */
  const Compass: seq<Heading> := [0, 60, 120, 180, -120, -60]

  /** The position of `h` in Compass. */
  function CompassIndex(h: Heading): (k: nat)
    ensures k < 6 && Compass[k] == h
  {
    if h == 0 then 0 else if h == 60 then 1 else if h == 120 then 2
    else if h == 180 then 3 else if h == -120 then 4 else assert IsHeading(h); 5
  }

  /** The heading reached from `h` by turning `steps` times 60 degrees. */
  function Turned(h: Heading, steps: int): Heading {
    Compass[(CompassIndex(h) + steps) % 6]
  }

  /** LEGAL_NEW_HEADINGS[h]: a unit may rotate in place to either neighbouring heading. */
  function LegalNewHeadings(h: Heading): set<int> {
    {Turned(h, 1) as int, Turned(h, -1) as int}
  }

  /** OPPOSITE_HEADINGS[h]: the heading turned through 180 degrees. */
  function OppositeHeading(h: Heading): (r: Heading)
    ensures r != h
  {
    Turned(h, 3)
  }

  /** Turning round twice restores the heading. */
  lemma OppositeInvolution(h: Heading)
    ensures OppositeHeading(OppositeHeading(h)) == h
  {
  }

  /** `is_even` of hiveminder._util; Python's `%` and Dafny's agree for divisor 2. */
  predicate IsEven(n: int) {
    n % 2 == 0
  }

  /** heading_to_delta(heading, is_even(x)): the step on the offset hex grid. Not part of
      this model, so every operation that moves a unit takes it as a parameter. */
  type Delta = (Heading, bool) -> (int, int)

  type Pos = n: int | n > 0 witness 1

  /** The game-balance constants the core reads. The two divisors are positive, as in the
      game's configuration (Python would raise ZeroDivisionError on zero). */
  datatype GameParams = GameParams(
    beeNectarCapacity: int,
    beeEnergyBoostPerNectar: int,
    flowerLifespan: int,
    flowerLifespanVisitImpact: int,
    flowerVisitPotencyRatio: Pos,
    flowerSeedVisitInitialThreshold: int,
    flowerSeedVisitSubsequentThreshold: Pos)

  /** hiveminder.hive.Hive: a tile and the nectar stored there. */
  datatype Hive = Hive(x: int, y: int, nectar: int)
}
