/**
 * Uses of the army list that follow the user interface's actions, showing what
 * the contracts of the aggregate let a caller conclude.
 */
module Scenarios {

  import opened Wrappers
  import opened Units
  import opened ArmyText
  import Army

  /** A unit whose cost is exactly the points still free is accepted and fills the list to its limit. */
  method AddExactRemainder(army: Army.ArmyList, name: string, category: string) returns (ok: bool)
    requires army.Valid()
    modifies army
    ensures ok && army.Valid()
    ensures army.TotalPoints() == army.pointsLimit
  {
    ok := army.AddUnit(Unit(name, army.pointsLimit - army.TotalPoints(), category));
  }

  /** A unit that costs nothing, such as the catalog's zero-cost entry, is accepted whatever the list holds. */
  method AddFreeUnit(army: Army.ArmyList, u: Unit) returns (ok: bool)
    requires army.Valid() && u.points == 0
    modifies army
    ensures ok && army.Valid()
    ensures army.units == old(army.units) + [u]
    ensures army.TotalPoints() == old(army.TotalPoints())
  {
    ok := army.AddUnit(u);
  }

  /** Clearing twice leaves the same empty list as clearing once. */
  method ClearTwice(army: Army.ArmyList)
    requires army.Valid()
    modifies army
    ensures army.units == [] && army.TotalPoints() == 0 && army.Valid()
  {
    army.Clear();
    ghost var once := army.units;
    army.Clear();
    assert army.units == once;
  }

  /** A 500-point list: 120 fits, 400 does not, 380 fills it exactly, then 1 more does not. */
  method SonsOfHorus() {
    var army := new Army.ArmyList("Sons of Horus", 500);
    var ok := army.AddUnit(Unit("Legion Praetor", 120, "HQ"));
    assert ok && army.TotalPoints() == 120;
    ok := army.AddUnit(Unit("Heavy Detachment", 400, "Heavy Support"));
    assert !ok && army.TotalPoints() == 120;
    ok := army.AddUnit(Unit("Assault Detachment", 380, "Elites"));
    assert ok && army.TotalPoints() == 500;
    ok := army.AddUnit(Unit("Lone Scout", 1, "Troops & Transports"));
    assert !ok && army.TotalPoints() == 500;
    var removed := army.RemoveLast();
    assert removed == Some(Unit("Assault Detachment", 380, "Elites"));
    assert army.TotalPoints() == 120;
  }

  /** Units added as A (category X), B (Y), C (X) are grouped as X: [A, C], then Y: [B]. */
  lemma GroupingExample(a: Unit, b: Unit, c: Unit)
    requires a.category == c.category != b.category
    ensures GroupedView([a, b, c]) == [Group(a.category, [a, c]), Group(b.category, [b])]
  {
    var x, y := a.category, b.category;
    ExampleCategories(a, b, c);
    ExampleMembers(a, b, c);
    assert [x, y][..1] == [x] && [x][..0] == [];
    assert GroupsOf([x], [a, b, c]) == [Group(x, [a, c])];
  }

  lemma ExampleCategories(a: Unit, b: Unit, c: Unit)
    requires a.category == c.category != b.category
    ensures Categories([a, b, c]) == [a.category, b.category]
  {
    assert [a, b, c][..2] == [a, b] && [a, b][..1] == [a] && [a][..0] == [];
    assert Categories([a]) == [a.category];
    assert Categories([a, b]) == [a.category, b.category];
  }

  lemma ExampleMembers(a: Unit, b: Unit, c: Unit)
    requires a.category == c.category != b.category
    ensures InCategory([a, b, c], a.category) == [a, c]
    ensures InCategory([a, b, c], b.category) == [b]
  {
    assert [a, b, c][..2] == [a, b] && [a, b][..1] == [a] && [a][..0] == [];
    assert InCategory([a], a.category) == [a];
    assert InCategory([a], b.category) == [];
    assert InCategory([a, b], a.category) == [a];
    assert InCategory([a, b], b.category) == [b];
  }
}
