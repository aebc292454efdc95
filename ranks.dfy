/**
 * The rank policy of the mission service: the ordinal of each ninja rank,
 * the minimum ninja rank a mission letter demands, and the eligibility
 * comparison an assignment must pass. Ranks are free strings; nothing
 * validates them when a ninja or a mission is created.
 */
module Ranks {

  /** Ordinal of each recognised ninja rank (`RANGO_ORDEN`). */
  const RangoOrden: map<string, nat> := map["Genin" := 1, "Chūnin" := 2, "Jōnin" := 3]

  /** Minimum ninja rank for each recognised mission letter (`MISION_RANGO_NINJA`). */
  const MisionRangoNinja: map<string, string> :=
    map["D" := "Genin", "C" := "Genin", "B" := "Chūnin", "A" := "Jōnin", "S" := "Jōnin"]

  /** Ordinal assumed for a ninja rank missing from `RangoOrden`. */
  const UnknownNinjaValue: nat := 0

  /** Ordinal assumed for a required rank missing from `RangoOrden`. */
  const UnknownRequiredValue: nat := 999

  /**
   * The `rango_minimo` stored with a new mission of letter `rango`: the
   * table's entry, and the most demanding rank for any other letter.
   */
  function MinimumRankFor(rango: string): (minimo: string)
    ensures minimo in RangoOrden
    ensures rango == "D" || rango == "C" ==> minimo == "Genin"
    ensures rango == "B" ==> minimo == "Chūnin"
    ensures rango == "A" || rango == "S" ==> minimo == "Jōnin"
    ensures rango !in {"D", "C", "B", "A", "S"} ==> minimo == "Jōnin"
  {
    if rango in MisionRangoNinja then MisionRangoNinja[rango] else "Jōnin"
  }

  /** `RANGO_ORDEN.get(rango, 0)`: the ordinal of a ninja's rank. */
  function NinjaRankValue(rango: string): (v: nat)
    ensures rango in RangoOrden ==> v == RangoOrden[rango] && 1 <= v <= 3
    ensures rango !in RangoOrden ==> v == UnknownNinjaValue
  {
    if rango in RangoOrden then RangoOrden[rango] else UnknownNinjaValue
  }

  /** `RANGO_ORDEN.get(rango_minimo, 999)`: the ordinal a mission demands. */
  function RequiredRankValue(rango: string): (v: nat)
    ensures rango in RangoOrden ==> v == RangoOrden[rango] && 1 <= v <= 3
    ensures rango !in RangoOrden ==> v == UnknownRequiredValue
  {
    if rango in RangoOrden then RangoOrden[rango] else UnknownRequiredValue
  }

  /**
   * The assignment guard: the ninja's ordinal is at least the demanded one.
   * Because the defaults sit below and above every real ordinal, this is the
   * plain rank order on recognised ranks and false whenever either rank is
   * unrecognised.
   */
  function IsEligible(ninjaRango: string, rangoMinimo: string): (ok: bool)
    ensures ok <==> ninjaRango in RangoOrden && rangoMinimo in RangoOrden
                    && RangoOrden[rangoMinimo] <= RangoOrden[ninjaRango]
    ensures ninjaRango == "Jōnin" && rangoMinimo in RangoOrden ==> ok
  {
    NinjaRankValue(ninjaRango) >= RequiredRankValue(rangoMinimo)
  }

  /** A Jōnin may take every mission that can be created, whatever its letter. */
  lemma JoninTakesEveryMission(rango: string)
    ensures IsEligible("Jōnin", MinimumRankFor(rango))
  {
  }

  /** A ninja whose rank is not in the table can take no mission at all. */
  lemma UnknownRankTakesNothing(ninjaRango: string, rangoMinimo: string)
    requires ninjaRango !in RangoOrden
    ensures !IsEligible(ninjaRango, rangoMinimo)
  {
  }

  /** Eligibility is transitive along the rank order. */
  lemma EligibilityTransitive(a: string, b: string, c: string)
    requires IsEligible(a, b) && IsEligible(b, c)
    ensures IsEligible(a, c)
  {
  }
}
