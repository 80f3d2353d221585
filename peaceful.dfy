/** A peaceful animat flees from attacks it witnesses close by. */
module Peaceful {
  /** In tiles: attacks nearer than this startle the animat. */
  const FLEE_DISTANCE := 15

  /** `PeacefulAnimat._saw_attack`'s test: the attacker is remembered, strictly closer than `FLEE_DISTANCE`. */
  predicate ShouldFlee(remembered: map<string, int>, attacker: string) {
    attacker in remembered && remembered[attacker] < FLEE_DISTANCE
  }

  /** The memory decides alone: only a remembered attacker can startle, and only below the distance, whatever else is remembered. */
  lemma ShouldFleeCases(remembered: map<string, int>, attacker: string, other: string, d: int)
    ensures attacker !in remembered ==> !ShouldFlee(remembered, attacker)
    ensures ShouldFlee(remembered[attacker := d], attacker) <==> d < FLEE_DISTANCE
    ensures other != attacker ==> (ShouldFlee(remembered[other := d], attacker) <==> ShouldFlee(remembered, attacker))
    ensures ShouldFlee(remembered - {other}, attacker) <==> other != attacker && ShouldFlee(remembered, attacker)
  {}
}
