# Horus Heresy army-list builder: a Dafny model of the army-list core

This project models the core of a small army-list builder for a tabletop
wargame. The user picks units from a fixed catalog grouped by category and
adds them to an army list. The list has a faction name and a points limit.
A unit is added only if the new total stays within the limit. The list can
be undone one unit at a time, cleared, and rendered as text grouped by
category.

Modules (one concept each):

- `Units` (`units.dfy`): the `Unit` value (name, point cost, category), its
  display label `name (N pts)`, and `Total`, the point sum over a list.
- `Decimal` (`decimal.dfy`): the decimal text of a non-negative integer, as
  Python's `str` renders an `int`, with a reading function and a round trip.
- `ArmyText` (`army_text.dfy`): the specification of the text view.
  `Categories` lists categories in first-seen order. `InCategory` selects one
  category's units in insertion order. `GroupedView` pairs them up. `Render`
  is the full text.
- `Army` (`army.dfy`): the `ArmyList` class. It has `const` fields `faction`
  and `pointsLimit` and a mutable `units` sequence. Its methods are
  `AddUnit`, `RemoveLast` (undo), `Clear` and `DisplayText`. `DisplayText`
  builds the text with the same loops as the source. It fills an
  insertion-ordered dictionary (a key sequence plus a map) and then writes
  one section per key. It is proved equal to `ArmyText.Render`.
- `Catalog` (`catalog.dfy`): the full `unit_index` catalog, unit by unit. It
  includes the category lookup and proofs that every unit sits under its
  own category key.
- `Scenarios` (`scenarios.dfy`): callers of the class that follow the
  interface's actions. They cover the exact-remainder boundary, zero-cost
  units, double clear, a 500-point walk-through and a grouping example.
- `Wrappers` (`wrappers.dfy`): `Option`, used for undo and catalog lookup.

Two choices about army creation follow the code:
- The code does not check the faction name, so the constructor accepts any
  string.
- The limit's range comes only from the number input's bounds
  (heresy_app.py:141), so the constructor requires
  `100 <= pointsLimit <= 10000`.

`Scenarios.SonsOfHorus` is a worked example with no contract of its own. It
builds a 500-point list. It adds 120 points, which fits. It then tries 400,
which is rejected, and 380, which fills the list exactly. A further 1-point
unit is rejected. The final undo returns the 380-point unit, leaving a total
of 120. Each step is an assertion that follows from the class contracts.

## Model

| member | source | states |
|---|---|---|
| `Units.Label` | heresy_app.py:14-15 | A unit's display label, `name (N pts)`, as `__str__` formats it. Its contract is stated by `Units.LabelRoundTrip`. |
| `Units.LabelRoundTrip` | heresy_app.py:14-15 | The label is the name, then " (", then the cost in decimal digits, then " pts)". Reading the digits back gives the cost. |
| `Decimal.NatToString` | heresy_app.py:36 | An integer's text is non-empty and all digits. It starts with '0' exactly when the number is zero, so there are no leading zeros. |
| `Decimal.NatToStringRoundTrip` | heresy_app.py:36 | Reading the decimal text of `n` back gives `n`. |
| `Decimal.NatToStringInjective` | heresy_app.py:36 | Different totals and limits always print as different texts. |
| `Units.Total` | heresy_app.py:30-31 | The point sum over a list of units, taken from the front. Its properties are stated by `Units.TotalBounds`, `Units.TotalAppend` and `Units.TotalDropLast`. |
| `Army.ArmyList.TotalPoints` | heresy_app.py:30-31 | `total_points` is `Units.Total` of the list's units. |
| `Units.TotalBounds` | heresy_app.py:30-31 | No unit costs more than the list's total. The total is 0 exactly when every unit is free. |
| `Units.TotalAppend` | heresy_app.py:30-31 | Appending a unit adds exactly its cost to the sum. |
| `Units.TotalDropLast` | heresy_app.py:30-31 | The total equals the total without the last unit plus that unit's cost. |
| `Army.ArmyList.constructor` | heresy_app.py:18-21 | A new list keeps the given faction and limit and has no units. The total is 0 and the budget invariant holds. The limit must lie in [100, 10000]. |
| `Army.ArmyList.AddUnit` | heresy_app.py:23-28 | Succeeds exactly when the old total plus the cost is at most the limit, so an exact fit is accepted. On success the unit is appended at the end and the total grows by its cost. On failure nothing changes. A total within the limit stays within the limit either way. |
| `Army.ArmyList.RemoveLast` | heresy_app.py:176-180 | On a non-empty list, removes and returns the last unit. The rest keeps its order and the total drops by that unit's cost. On an empty list it returns None and changes nothing. The budget invariant is kept. |
| `Army.ArmyList.Clear` | heresy_app.py:183 | Afterwards the list is empty and the total is 0. Faction and limit are constants and cannot change. |
| `ArmyText.Render` | heresy_app.py:33-48 | The text `display_text` returns. It is the header, then either the empty notice or one section per category in first-seen order. Its properties are stated by `ArmyText.RenderEmpty`, the grouping lemmas and `Army.ArmyList.DisplayText`. |
| `Army.ArmyList.DisplayText` | heresy_app.py:33-48 | The text built by the two loops equals `Render` of the faction, the limit and the units. |
| `Army.GroupByCategory` | heresy_app.py:40-42 | The dictionary filled by `setdefault(...).append` has its keys in first-seen category order. It holds exactly those keys, and each key maps to that category's units in list order. |
| `Army.WriteSections` | heresy_app.py:43-47 | Writes one section per dictionary key, in key order. Each section is the heading, the unit lines and a blank line. |
| `Army.WriteLines` | heresy_app.py:45-46 | Writes one ` - name (N pts)` line per unit, in order. |
| `Army.AddThenUndo` | heresy_app.py:168-180 | After a successful add, undo returns exactly the added unit. It restores the previous list and total. |
| `ArmyText.Categories` | heresy_app.py:40-43 | The group headings are exactly the categories that occur in the list, each once. |
| `ArmyText.CategoriesFirstSeenOrder` | heresy_app.py:40-43 | Groups appear in strictly increasing order of their category's first position in the list. |
| `ArmyText.InCategoryCounts` | heresy_app.py:41-42 | A category's group keeps every occurrence of a unit of that category and no other unit. |
| `ArmyText.GroupingAppend` | heresy_app.py:41-42 | Grouping one more unit adds its category at the end if the category is new. It appends the unit to its own category's group and leaves the other groups unchanged. |
| `ArmyText.GroupedViewPartition` | heresy_app.py:40-47 | Each unit of the list appears in the grouped view exactly as many times as in the list. |
| `ArmyText.GroupedViewGroups` | heresy_app.py:40-45 | Every group is non-empty and has a category no earlier group has. It holds exactly its category's units in insertion order. |
| `ArmyText.RenderEmpty` | heresy_app.py:35-39 | An empty list renders as `faction + " Army List\nPoints: 0 / " + limit + "\n\nNo units added yet.\n"`. |
| `Catalog.UnitIndex` | heresy_app.py:53-125 | The catalog, entry by entry and in source order. Its structure is stated by `Catalog.UnitIndexWellFormed`. |
| `Catalog.UnitIndexWellFormed` | heresy_app.py:53-125 | The catalog's keys are the five category names. Every unit is stored under the key equal to its own category. Costs are non-negative by type. |
| `Catalog.UnitsIn` | heresy_app.py:161-163 | Looking up a category succeeds exactly for the five catalog names. The result is non-empty and every unit in it has that category. |
| `Catalog.ZeroCostEntry` | heresy_app.py:116 | The catalog holds "Land Raider Proteus Explorator" at cost 0 under "Heavy Support". |
| `Scenarios.AddExactRemainder` | heresy_app.py:24-25 | A unit costing exactly the points still free is accepted and brings the total to the limit. |
| `Scenarios.AddFreeUnit` | heresy_app.py:24-25 | A zero-cost unit is always appended and leaves the total unchanged. |
| `Scenarios.ClearTwice` | heresy_app.py:183 | Clearing twice leaves the same empty list, total 0, as clearing once. |
| `Scenarios.GroupingExample` | heresy_app.py:40-47 | Adding A (category X), then B (Y), then C (X) groups as X: [A, C], then Y: [B]. |

## Left out

- The Streamlit interface (heresy_app.py:130-200) is not modelled: page layout, columns, buttons, select boxes, `st.session_state` and status widgets. This includes "Reset Army", which only sets the session's army to `None`. Undo and clear are modelled as `RemoveLast` and `Clear`.
- `Army.ArmyList.AddUnit`: returns only the success flag. The two emoji message strings are left out. The success message embeds the unit's name and cost.
- `Army.ArmyList.RemoveLast`: the "Removed last unit" and "No units to remove." status messages are left out.
- The download button and its file name `faction + "_army.txt"` are I/O and are not modelled.
- `StringIO` is modelled as string concatenation. Each `write` appends to the text.
- Unit costs are `nat`. Python would accept a negative cost in `Unit`, but the catalog only uses non-negative costs. Undo keeping the budget relies on this.
- Python integers are unbounded, like Dafny's `int`, so no wrap-around is modelled.
- Faction names are not validated. The code does no validation.
- Rendering twice without a change gives the same text. `Render` is a function, so this needs no separate lemma.
- `Catalog.UnitsIn`: for a name that is not a key, `unit_index[category]` (heresy_app.py:163) raises `KeyError`. The model returns `None` instead.
