/**
 * The fixed unit catalog: five categories, each with its ordered list of
 * unit definitions, and the lookup of a category's units.
 */
module Catalog {

  import opened Wrappers
  import opened Units

  /** The category names in catalog order (the order offered for selection). */
  function CategoryNames(): seq<string> {
    ["HQ", "Troops & Transports", "Elites", "Fast Attack", "Heavy Support"]
  }

  function HqUnits(): seq<Unit> {
    [
      Unit("Legion Praetor", 120, "HQ"),
      Unit("Legion Cataphractii Praetor", 135, "HQ"),
      Unit("Legion Tartaros Praetor", 110, "HQ"),
      Unit("Legion Centurion", 60, "HQ"),
      Unit("Legion Cataphractii Centurion", 85, "HQ"),
      Unit("Legion Tartaros Centurion", 75, "HQ"),
      Unit("Legion Command Squad", 85, "HQ"),
      Unit("Legion Cataphractii Command Squad", 125, "HQ"),
      Unit("Legion Tartaros Command Squad", 110, "HQ"),
      Unit("Legion Damocles Command Rhino", 150, "HQ")
    ]
  }

  function TroopsAndTransportsUnits(): seq<Unit> {
    [
      Unit("Tactical Squad (10)", 100, "Troops & Transports"),
      Unit("Despoiler Squad (10)", 100, "Troops & Transports"),
      Unit("Assault Squad (10)", 145, "Troops & Transports"),
      Unit("Breacher Squad (10)", 155, "Troops & Transports"),
      Unit("Tactical support squad (5)", 85, "Troops & Transports"),
      Unit("Scout Squad (5)", 65, "Troops & Transports"),
      Unit("Rhino Transport", 35, "Troops & Transports"),
      Unit("Drop pod", 35, "Troops & Transports"),
      Unit("Dreadnought Drop pod", 100, "Troops & Transports"),
      Unit("Termite Assult Drill", 80, "Troops & Transports")
    ]
  }

  function ElitesUnits(): seq<Unit> {
    [
      Unit("Legion veteran squad", 115, "Elites"),
      Unit("Cataphractii Terminator Squad (5)", 175, "Elites"),
      Unit("Tartaros Terminator Squad (5)", 150, "Elites"),
      Unit("destroyer assult squad", 130, "Elites"),
      Unit("Mortalis Destroyer Squad", 105, "Elites"),
      Unit("Apothecarion detachment", 45, "Elites"),
      Unit("Techmarine Covenant", 55, "Elites"),
      Unit("Contemptor Dreadnought Talon", 175, "Elites"),
      Unit("Rapier Battery", 40, "Elites")
    ]
  }

  function FastAttackUnits(): seq<Unit> {
    [
      Unit("Seeker Squad", 105, "Fast Attack"),
      Unit("Outrider Squadron", 85, "Fast Attack"),
      Unit("Sabre Strike Squadron", 80, "Fast Attack"),
      Unit("Sky-hunter Squadron", 105, "Fast Attack"),
      Unit("Javelin Squadron", 90, "Fast Attack"),
      Unit("Protues Land Raider Squadron", 60, "Fast Attack"),
      Unit("Storm Eagle Gunship", 210, "Fast Attack"),
      Unit("Xiphon Interceptor", 105, "Fast Attack"),
      Unit("Dreadclaw Drop Pod", 115, "Fast Attack")
    ]
  }

  function HeavySupportUnits(): seq<Unit> {
    [
      Unit("Leviathan Dreadnought Talon", 270, "Heavy Support"),
      Unit("Deredeo Dreadnought Talon", 205, "Heavy Support"),
      Unit("Heavy Support Squad (5)", 100, "Heavy Support"),
      Unit("Predator Squadron", 120, "Heavy Support"),
      Unit("Sicarian Squadron", 190, "Heavy Support"),
      Unit("Sicarian Aecus Squadron", 215, "Heavy Support"),
      Unit("Sicarian Punisher Squadron", 190, "Heavy Support"),
      Unit("Sicarian Venator Squadron", 200, "Heavy Support"),
      Unit("Sicarian Omega Squadron", 230, "Heavy Support"),
      Unit("Kratos Squadron", 300, "Heavy Support"),
      Unit("Land Raider Proteus Carrier Squadron", 220, "Heavy Support"),
      Unit("Land Raider Proteus Explorator", 0, "Heavy Support"),
      Unit("Vindicator Squadron", 120, "Heavy Support"),
      Unit("Land Raider Spartan", 350, "Heavy Support"),
      Unit("Scorpius Squadron", 120, "Heavy Support"),
      Unit("Arquitor Squadron", 200, "Heavy Support"),
      Unit("Fire Raptor Gunship", 280, "Heavy Support"),
      Unit("Deathstorm Drop Pod Squadron", 90, "Heavy Support"),
      Unit("Kharydis Assult Claw", 235, "Heavy Support")
    ]
  }

  /** The catalog: category name to its unit definitions. */
  function UnitIndex(): map<string, seq<Unit>> {
    map[
      "HQ" := HqUnits(),
      "Troops & Transports" := TroopsAndTransportsUnits(),
      "Elites" := ElitesUnits(),
      "Fast Attack" := FastAttackUnits(),
      "Heavy Support" := HeavySupportUnits()
    ]
  }

  /** Every unit is stored under the key equal to its own category. */
  ghost predicate CategoriesMatchKeys(index: map<string, seq<Unit>>) {
    forall k, u :: k in index && u in index[k] ==> u.category == k
  }

  /** Every unit of `us` has category `c`. */
  predicate AllOfCategory(us: seq<Unit>, c: string) {
    forall i :: 0 <= i < |us| ==> us[i].category == c
  }

  /** The catalog's keys are exactly its category names, and each unit sits under its own category. */
  lemma UnitIndexWellFormed()
    ensures UnitIndex().Keys == set c | c in CategoryNames()
    ensures CategoriesMatchKeys(UnitIndex())
  {
    HqUnitsInCategory();
    TroopsAndTransportsUnitsInCategory();
    ElitesUnitsInCategory();
    FastAttackUnitsInCategory();
    HeavySupportUnitsInCategory();
    forall k | k in UnitIndex()
      ensures AllOfCategory(UnitIndex()[k], k)
    {
    }
  }

  lemma HqUnitsInCategory()
    ensures AllOfCategory(HqUnits(), "HQ")
  {
  }

  lemma TroopsAndTransportsUnitsInCategory()
    ensures AllOfCategory(TroopsAndTransportsUnits(), "Troops & Transports")
  {
  }

  lemma ElitesUnitsInCategory()
    ensures AllOfCategory(ElitesUnits(), "Elites")
  {
  }

  lemma FastAttackUnitsInCategory()
    ensures AllOfCategory(FastAttackUnits(), "Fast Attack")
  {
  }

  lemma HeavySupportUnitsInCategory()
    ensures AllOfCategory(HeavySupportUnits(), "Heavy Support")
  {
  }

  /** The units of a category, or None for a name that is not a catalog key. */
  function UnitsIn(category: string): (r: Option<seq<Unit>>)
    ensures r.Some? <==> category in CategoryNames()
    ensures r.Some? ==> r.value != [] && forall u :: u in r.value ==> u.category == category
  {
    UnitIndexWellFormed();
    if category in UnitIndex() then Some(UnitIndex()[category]) else None
  }

  /** The catalog holds a unit that costs nothing. */
  lemma ZeroCostEntry()
    ensures Unit("Land Raider Proteus Explorator", 0, "Heavy Support") in UnitIndex()["Heavy Support"]
  {
  }
}
