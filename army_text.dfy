/**
 * The text rendering of an army list: a header with faction and points, then
 * the units grouped by category. Groups come in the order in which their
 * category first occurs in the list; within a group units keep insertion order.
 */
module ArmyText {

  import opened Decimal
  import opened Units

  /** One category and the units listed under it. */
  datatype Group = Group(category: string, members: seq<Unit>)

  /** Some unit of `s` has category `c`. */
  predicate HasCategory(s: seq<Unit>, c: string) {
    exists i :: 0 <= i < |s| && s[i].category == c
  }

  /**
   * The categories of `s`, each once, in order of first occurrence:
   * exactly the categories some unit of `s` has, with no repetition.
   */
  function Categories(s: seq<Unit>): (cats: seq<string>)
    ensures forall c :: c in cats <==> HasCategory(s, c)
    ensures forall i, j :: 0 <= i < j < |cats| ==> cats[i] != cats[j]
  {
    if s == [] then []
    else
      var prev, c := Categories(s[..|s| - 1]), s[|s| - 1].category;
      assert forall c' :: HasCategory(s, c') <==> HasCategory(s[..|s| - 1], c') || c' == c by {
        forall c' | HasCategory(s, c') ensures HasCategory(s[..|s| - 1], c') || c' == c {
          var i :| 0 <= i < |s| && s[i].category == c';
          if i < |s| - 1 { assert s[..|s| - 1][i] == s[i]; }
        }
        forall c' | HasCategory(s[..|s| - 1], c') ensures HasCategory(s, c') {
          var i :| 0 <= i < |s| - 1 && s[..|s| - 1][i].category == c';
          assert s[i] == s[..|s| - 1][i];
        }
      }
      if c in prev then prev else prev + [c]
  }

  /** The position of the first unit of category `c` in `s`. */
  function FirstIndex(s: seq<Unit>, c: string): (k: nat)
    requires HasCategory(s, c)
    ensures k < |s| && s[k].category == c
    ensures forall i :: 0 <= i < k ==> s[i].category != c
  {
    if s[0].category == c then 0
    else
      assert HasCategory(s[1..], c) by {
        var i :| 0 <= i < |s| && s[i].category == c;
        assert s[1..][i - 1] == s[i];
      }
      1 + FirstIndex(s[1..], c)
  }

  /** The first occurrence of a category is the same in `s` and in any extension of it. */
  lemma FirstIndexExtend(s: seq<Unit>, t: seq<Unit>, c: string)
    requires HasCategory(s, c)
    ensures HasCategory(s + t, c)
    ensures FirstIndex(s + t, c) == FirstIndex(s, c)
  {
    var k := FirstIndex(s, c);
    assert (s + t)[k] == s[k];
    assert forall i :: 0 <= i < k ==> (s + t)[i] == s[i];
  }

  /** Categories are listed in strictly increasing order of their first occurrence. */
  lemma {:induction false} CategoriesFirstSeenOrder(s: seq<Unit>)
    ensures forall i, j :: 0 <= i < j < |Categories(s)| ==>
      FirstIndex(s, Categories(s)[i]) < FirstIndex(s, Categories(s)[j])
  {
    if s != [] {
      var p, u := s[..|s| - 1], s[|s| - 1];
      assert s == p + [u];
      CategoriesFirstSeenOrder(p);
      var prev, cats := Categories(p), Categories(s);
      forall c | c in prev
        ensures FirstIndex(s, c) == FirstIndex(p, c)
      {
        FirstIndexExtend(p, [u], c);
      }
      if u.category !in prev {
        assert FirstIndex(s, u.category) == |p|;
        forall i, j | 0 <= i < j < |cats|
          ensures FirstIndex(s, cats[i]) < FirstIndex(s, cats[j])
        {
          assert cats[i] == prev[i];
          if j < |prev| {
            assert cats[j] == prev[j];
          }
        }
      }
    }
  }

  /** The units of `s` whose category is `c`, in their order in `s`. */
  function InCategory(s: seq<Unit>, c: string): seq<Unit> {
    if s == [] then []
    else
      var p, u := s[..|s| - 1], s[|s| - 1];
      InCategory(p, c) + if u.category == c then [u] else []
  }

  /** Every occurrence of a unit of category `c` is in its group, and no other unit is. */
  lemma {:induction false} InCategoryCounts(s: seq<Unit>, c: string)
    ensures forall u :: multiset(InCategory(s, c))[u] == if u.category == c then multiset(s)[u] else 0
  {
    if s != [] {
      var p, u := s[..|s| - 1], s[|s| - 1];
      assert s == p + [u];
      InCategoryCounts(p, c);
    }
  }

  /** The groups of the categories `cats`, in that order, each with its units from `s`. */
  function GroupsOf(cats: seq<string>, s: seq<Unit>): (gs: seq<Group>)
    ensures |gs| == |cats|
    ensures forall i :: 0 <= i < |gs| ==> gs[i].category == cats[i]
  {
    if cats == [] then []
    else
      var c := cats[|cats| - 1];
      GroupsOf(cats[..|cats| - 1], s) + [Group(c, InCategory(s, c))]
  }

  /** The list grouped by category, in first-seen category order. */
  function GroupedView(s: seq<Unit>): seq<Group> {
    GroupsOf(Categories(s), s)
  }

  /** The units of the groups, group after group. */
  function Flatten(gs: seq<Group>): seq<Unit> {
    if gs == [] then [] else Flatten(gs[..|gs| - 1]) + gs[|gs| - 1].members
  }

  lemma {:induction false} GroupsOfCount(cats: seq<string>, s: seq<Unit>, u: Unit)
    requires forall i, j :: 0 <= i < j < |cats| ==> cats[i] != cats[j]
    ensures multiset(Flatten(GroupsOf(cats, s)))[u] == if u.category in cats then multiset(s)[u] else 0
  {
    if cats != [] {
      var p, c := cats[..|cats| - 1], cats[|cats| - 1];
      GroupsOfCount(p, s, u);
      InCategoryCounts(s, c);
      var gs := GroupsOf(cats, s);
      assert gs[..|gs| - 1] == GroupsOf(p, s);
      assert u.category in cats <==> u.category in p || u.category == c;
    }
  }

  /** Every unit of the list occurs in the grouped view exactly as often as in the list. */
  lemma GroupedViewPartition(s: seq<Unit>)
    ensures multiset(Flatten(GroupedView(s))) == multiset(s)
  {
    var cats := Categories(s);
    forall u
      ensures multiset(Flatten(GroupsOf(cats, s)))[u] == multiset(s)[u]
    {
      GroupsOfCount(cats, s, u);
      if u in s {
        var i :| 0 <= i < |s| && s[i] == u;
        assert HasCategory(s, u.category);
      }
    }
  }

  /**
   * The groups of the view are non-empty, their categories are distinct, and
   * each holds exactly the units of its category.
   */
  lemma GroupedViewGroups(s: seq<Unit>, k: nat)
    requires k < |GroupedView(s)|
    ensures GroupedView(s)[k].members != []
    ensures GroupedView(s)[k].members == InCategory(s, GroupedView(s)[k].category)
    ensures forall j :: 0 <= j < k ==> GroupedView(s)[j].category != GroupedView(s)[k].category
  {
    var cats := Categories(s);
    var g := GroupedView(s)[k];
    GroupsOfIsInCategory(cats, s, k);
    InCategoryCounts(s, g.category);
    assert HasCategory(s, cats[k]);
    var i :| 0 <= i < |s| && s[i].category == g.category;
    assert s[i] in multiset(s);
    assert multiset(g.members)[s[i]] > 0;
  }

  lemma {:induction false} GroupsOfIsInCategory(cats: seq<string>, s: seq<Unit>, k: nat)
    requires k < |cats|
    ensures GroupsOf(cats, s)[k] == Group(cats[k], InCategory(s, cats[k]))
  {
    if k < |cats| - 1 {
      GroupsOfIsInCategory(cats[..|cats| - 1], s, k);
    }
  }

  /** Grouping one more unit: the categories and the group of its category grow. */
  lemma GroupingAppend(s: seq<Unit>, u: Unit)
    ensures Categories(s + [u]) ==
      if u.category in Categories(s) then Categories(s) else Categories(s) + [u.category]
    ensures forall c :: InCategory(s + [u], c) ==
                        InCategory(s, c) + if u.category == c then [u] else []
  {
    assert (s + [u])[..|s|] == s;
  }

  /** Rendering the groups of one more category appends that category's section. */
  lemma SectionsAppend(cats: seq<string>, c: string, s: seq<Unit>)
    ensures Sections(GroupsOf(cats + [c], s)) ==
      Sections(GroupsOf(cats, s)) + Section(Group(c, InCategory(s, c)))
  {
    assert (cats + [c])[..|cats|] == cats;
    var gs := GroupsOf(cats + [c], s);
    assert gs[..|gs| - 1] == GroupsOf(cats, s);
  }

  /** One listing line of a unit. */
  function UnitLine(u: Unit): string {
    " - " + Label(u) + "\n"
  }

  function Lines(us: seq<Unit>): string {
    if us == [] then "" else Lines(us[..|us| - 1]) + UnitLine(us[|us| - 1])
  }

  /** A category heading, its unit lines, and a closing blank line. */
  function Section(g: Group): string {
    g.category + ":\n" + Lines(g.members) + "\n"
  }

  function Sections(gs: seq<Group>): string {
    if gs == [] then "" else Sections(gs[..|gs| - 1]) + Section(gs[|gs| - 1])
  }

  function Header(faction: string, total: nat, limit: nat): string {
    faction + " Army List\n" + "Points: " + NatToString(total) + " / " + NatToString(limit) + "\n\n"
  }

  const EmptyNotice := "No units added yet.\n"

  /** The whole text of an army list. */
  function Render(faction: string, limit: nat, s: seq<Unit>): string {
    Header(faction, Total(s), limit) + if s == [] then EmptyNotice else Sections(GroupedView(s))
  }

  /** The text of an empty list: the header with 0 points and the empty notice. */
  lemma RenderEmpty(faction: string, limit: nat)
    ensures Render(faction, limit, []) ==
      faction + " Army List\nPoints: 0 / " + NatToString(limit) + "\n\nNo units added yet.\n"
  {
    HeaderZero(faction, NatToString(limit));
    assert "\n\n" + EmptyNotice == "\n\nNo units added yet.\n";
  }

  /** With a total of 0 the points line reads "Points: 0 / " before the limit. */
  lemma HeaderZero(faction: string, n: string)
    ensures faction + " Army List\n" + "Points: " + NatToString(0) + " / " + n ==
      faction + " Army List\nPoints: 0 / " + n
  {
    assert NatToString(0) == "0";
    assert " Army List\n" + "Points: " + "0" + " / " == " Army List\nPoints: 0 / ";
  }
}
