/**
 * Unit definitions (name, point cost, category), their display label, and
 * the point sum over a list of them.
 */
module Units {

  import opened Decimal

  /** A unit as the catalog defines it; identity is by value. */
  datatype Unit = Unit(name: string, points: nat, category: string)

  /** The label `name (points pts)` under which a unit is shown and listed. */
  function Label(u: Unit): string {
    u.name + " (" + NatToString(u.points) + " pts)"
  }

  /** A label can be read back: the name, then " (", the cost in decimal, then " pts)". */
  lemma LabelRoundTrip(u: Unit)
    ensures var l, n := Label(u), |u.name|;
      && |l| >= n + 8
      && l[..n] == u.name
      && l[n..n + 2] == " ("
      && l[|l| - 5..] == " pts)"
      && AllDigits(l[n + 2..|l| - 5])
      && DigitsValue(l[n + 2..|l| - 5]) == u.points
  {
    var l, n, d := Label(u), |u.name|, NatToString(u.points);
    assert l == u.name + " (" + d + " pts)";
    assert l[n + 2..|l| - 5] == d;
    NatToStringRoundTrip(u.points);
  }

  /** The point total of a list, summed from the front. */
  function Total(s: seq<Unit>): nat {
    if s == [] then 0 else s[0].points + Total(s[1..])
  }

  /** No unit costs more than the total, and the total is zero exactly when every unit is free. */
  lemma {:induction false} TotalBounds(s: seq<Unit>)
    ensures forall i :: 0 <= i < |s| ==> s[i].points <= Total(s)
    ensures Total(s) == 0 <==> forall i :: 0 <= i < |s| ==> s[i].points == 0
  {
    if s != [] {
      TotalBounds(s[1..]);
      assert forall i :: 1 <= i < |s| ==> s[i] == s[1..][i - 1];
    }
  }

  /** Appending a unit adds its cost to the total. */
  lemma {:induction false} TotalAppend(s: seq<Unit>, u: Unit)
    ensures Total(s + [u]) == Total(s) + u.points
  {
    if s != [] {
      assert (s + [u])[1..] == s[1..] + [u];
      TotalAppend(s[1..], u);
    }
  }

  /** The total of a list is the total without its last unit plus that unit's cost. */
  lemma TotalDropLast(s: seq<Unit>)
    requires s != []
    ensures Total(s[..|s| - 1]) + s[|s| - 1].points == Total(s)
  {
    assert s == s[..|s| - 1] + [s[|s| - 1]];
    TotalAppend(s[..|s| - 1], s[|s| - 1]);
  }
}
