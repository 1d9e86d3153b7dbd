/**
 * The army-list aggregate: a faction, a points limit and the ordered list of
 * chosen units, with the budget-checked add, the undo and clear operations of
 * the user interface, and the text rendering.
 */
module Army {

  import opened Wrappers
  import opened Units
  import ArmyText

  /** The bounds the points-limit input enforces. */
  const MinPointsLimit: nat := 100
  const MaxPointsLimit: nat := 10000

  class ArmyList {
    const faction: string
    const pointsLimit: nat
    var units: seq<Unit>

    /** The limit lies in its input bounds and the chosen units fit within it. */
    ghost predicate Valid()
      reads this
    {
      MinPointsLimit <= pointsLimit <= MaxPointsLimit && Total(units) <= pointsLimit
    }

    function TotalPoints(): nat
      reads this
    {
      Total(units)
    }

    constructor (faction: string, pointsLimit: nat)
      requires MinPointsLimit <= pointsLimit <= MaxPointsLimit
      ensures Valid()
      ensures this.faction == faction && this.pointsLimit == pointsLimit
      ensures units == [] && TotalPoints() == 0
    {
      this.faction := faction;
      this.pointsLimit := pointsLimit;
      units := [];
    }

    /**
     * Appends `u` when it fits in what is left of the budget (a cost equal to
     * the remaining points fits); otherwise rejects it and changes nothing.
     */
    method AddUnit(u: Unit) returns (ok: bool)
      modifies this
      ensures ok <==> old(TotalPoints()) + u.points <= pointsLimit
      ensures units == if ok then old(units) + [u] else old(units)
      ensures TotalPoints() == if ok then old(TotalPoints()) + u.points else old(TotalPoints())
      ensures old(TotalPoints()) <= pointsLimit ==> TotalPoints() <= pointsLimit
      ensures old(Valid()) ==> Valid()
    {
      if TotalPoints() + u.points <= pointsLimit {
        TotalAppend(units, u);
        units := units + [u];
        ok := true;
      } else {
        ok := false;
      }
    }

    /**
     * Undo: removes and returns the most recently added unit, or reports that
     * there is nothing to remove and changes nothing.
     */
    method RemoveLast() returns (removed: Option<Unit>)
      modifies this
      ensures old(units) == [] ==> removed == None && units == []
      ensures old(units) != [] ==>
        && removed == Some(old(units)[|old(units)| - 1])
        && units == old(units)[..|old(units)| - 1]
        && TotalPoints() + removed.value.points == old(TotalPoints())
      ensures old(Valid()) ==> Valid()
    {
      if units == [] {
        removed := None;
      } else {
        TotalDropLast(units);
        removed := Some(units[|units| - 1]);
        units := units[..|units| - 1];
      }
    }

    /** Removes every unit; faction and limit are kept. */
    method Clear()
      modifies this
      ensures units == [] && TotalPoints() == 0
      ensures old(Valid()) ==> Valid()
    {
      units := [];
    }

    /**
     * The text of the list, built as the source builds it: the header, then
     * either the empty notice or, after grouping the units into an
     * insertion-ordered dictionary keyed by category, one section per key.
     */
    method DisplayText() returns (text: string)
      ensures text == ArmyText.Render(faction, pointsLimit, units)
    {
      text := ArmyText.Header(faction, TotalPoints(), pointsLimit);
      if units == [] {
        text := text + ArmyText.EmptyNotice;
        return;
      }
      var keys, groups := GroupByCategory(units);
      var sections := WriteSections(keys, groups, units);
      text := text + sections;
    }
  }

  /**
   * Groups `s` by category into a dictionary that remembers key insertion
   * order: `keys` lists the categories in first-seen order and `groups` maps
   * each to its units in list order.
   */
  method GroupByCategory(s: seq<Unit>) returns (keys: seq<string>, groups: map<string, seq<Unit>>)
    ensures keys == ArmyText.Categories(s)
    ensures forall c :: c in groups <==> c in keys
    ensures forall c :: c in groups ==> groups[c] == ArmyText.InCategory(s, c)
  {
    keys, groups := [], map[];
    for i := 0 to |s|
      invariant keys == ArmyText.Categories(s[..i])
      invariant forall c :: c in groups <==> c in keys
      invariant forall c :: c in groups ==> groups[c] == ArmyText.InCategory(s[..i], c)
    {
      var u := s[i];
      ghost var done := s[..i];
      assert s[..i + 1] == done + [u];
      ArmyText.GroupingAppend(done, u);
      // setdefault(u.category, []).append(u)
      if u.category !in groups {
        NoneInAbsentCategory(done, u.category);
        keys := keys + [u.category];
        groups := groups[u.category := []];
      }
      groups := groups[u.category := groups[u.category] + [u]];
    }
    assert s[..|s|] == s;
  }

  /** Writes one section per key, in key order: the heading, the unit lines, a blank line. */
  method WriteSections(keys: seq<string>, groups: map<string, seq<Unit>>, ghost s: seq<Unit>) returns (text: string)
    requires forall c :: c in keys ==> c in groups && groups[c] == ArmyText.InCategory(s, c)
    ensures text == ArmyText.Sections(ArmyText.GroupsOf(keys, s))
  {
    text := "";
    for j := 0 to |keys|
      invariant text == ArmyText.Sections(ArmyText.GroupsOf(keys[..j], s))
    {
      var c := keys[j];
      assert keys[..j + 1] == keys[..j] + [c];
      ArmyText.SectionsAppend(keys[..j], c, s);
      var lines := WriteLines(groups[c]);
      text := text + (c + ":\n" + lines + "\n");
    }
    assert keys[..|keys|] == keys;
  }

  /** Writes the listing line of each unit, in order. */
  method WriteLines(us: seq<Unit>) returns (lines: string)
    ensures lines == ArmyText.Lines(us)
  {
    lines := "";
    for k := 0 to |us|
      invariant lines == ArmyText.Lines(us[..k])
    {
      assert us[..k + 1][..k] == us[..k];
      lines := lines + ArmyText.UnitLine(us[k]);
    }
    assert us[..|us|] == us;
  }

  /** A category that does not occur in a list has no units in it. */
  lemma {:induction false} NoneInAbsentCategory(s: seq<Unit>, c: string)
    requires c !in ArmyText.Categories(s)
    ensures ArmyText.InCategory(s, c) == []
  {
    if s != [] {
      var p := s[..|s| - 1];
      assert c !in ArmyText.Categories(p);
      NoneInAbsentCategory(p, c);
    }
  }

  /**
   * Undo round trip: a successful add followed by an undo removes exactly the
   * added unit and restores the list and its total.
   */
  method AddThenUndo(army: ArmyList, u: Unit) returns (added: bool, removed: Option<Unit>)
    modifies army
    ensures added <==> old(army.TotalPoints()) + u.points <= army.pointsLimit
    ensures added ==> removed == Some(u) && army.units == old(army.units)
    ensures added ==> army.TotalPoints() == old(army.TotalPoints())
  {
    added := army.AddUnit(u);
    removed := army.RemoveLast();
  }
}
