# Gilded Rose inventory update, modelled in Dafny

This project models the Gilded Rose shop from `rust/src/gildedrose.rs`. The shop keeps an ordered list of items. Each item has a
variant, a number of days remaining (`i32`) and a quality (`u32`). Once a day every item is advanced by the rule of its variant.

- **Classification** (`Item::new`): the name "Aged Brie" gives the Brie variant. "Backstage passes to a TAFKAL80ETC concert" gives
  Backstage. "Sulfuras, Hand of Ragnaros" gives Sulfuras. Matching is exact and case-sensitive. Any other name gives an ordinary item,
  and only an ordinary item keeps its name (`Items.Kind`, `Items.Classify`, `Items.KindName`).
- **The per-variant tick**: `Items.Item` is a class with a constant `kind` and two mutable fields, `days` and `quality`.
  `Items.Item.Tick` updates them in place, step by step and with the same early returns as each Rust `tick`. It is proved equal to
  `Items.Ticked`, which is built from closed-form reference rules (`OrdinaryRule`, `BrieRule`, `BackstageRule`). Those rules give
  the net effect of a day: ordinary items lose one point a day, or two once the sell date has passed, and never go below zero. Brie
  gains one or two points a day, up to 50. A backstage pass gains one, two or three points as the concert nears, and drops to
  zero once it has passed. Sulfuras never changes.
- **The shop**: `Shop.GildedRose` holds its items as a sequence that never changes after construction. `Valid()` says that no
  item appears twice, which is what Rust's ownership of the `Vec` guarantees. `GildedRose.Tick` ticks each item once, in
  order, and the inventory's value becomes `TickAll` of the old value.
- **The report** (`Display`): the header `name, sellIn, quality`, then one line `name, days, quality` per item, each line ending
  in a newline. Integers are written in decimal, as Rust writes them (`Decimal.IntToString`). `GildedRose.Render` builds the
  report row by row, as the formatter loop does.

Rust's integer widths are kept as the newtypes `i32` and `u32`, so every subtraction and addition in the model is checked to stay in
range. `Decimal.ParseInt`, `Items.SplitLast` and `Items.ParseLine` do not exist in the source. They are the inverse of the
rendering, used to prove that a report line gives back the item it was printed from. `Shop.SeveralItems` repeats the source's
several-items test as a client of the classes. `Items.UnitTestExpectations` states every before/after pair of the per-variant
unit tests.

On three points the model follows the code's arithmetic exactly:
- Quality is a `u32`, so it is never negative.
- Brie's `+= 1` at line 24 has no guard, so it overflows at `u32::MAX`, and every `days_remaining -= 1` overflows at
  `i32::MIN`. Both limits are preconditions (`Items.CanTick`).
- Brie quality above 50 is not clamped: it keeps rising by one a day (`Items.BrieRule`). A backstage pass above 50 keeps its
  quality until the concert has passed (`Items.BackstageRule`).

## Model

| member | source | states |
|---|---|---|
| `Items.Classify` | rust/src/gildedrose.rs:132-156 | exactly "Aged Brie", the backstage-pass name and the Sulfuras name give their variants (each an if-and-only-if). Every other name gives an ordinary item carrying that very name. The result is never an ordinary item with a special name. |
| `Items.KindName` | rust/src/gildedrose.rs:29-113 | `name()`: an ordinary item returns the name it carries, and each special variant returns one of the three special literals. For a kind that classification can produce, the name is special exactly when the variant is not ordinary. |
| `Items.NameOfClassify` | rust/src/gildedrose.rs:132-156 | `name()` of the item built from any name is that name: the special variants return their fixed literal, and an ordinary item returns what it was given |
| `Items.ClassifyOfName` | rust/src/gildedrose.rs:132-156 | classifying the name of any kind that classification can produce gives back that kind |
| `Items.OrdinaryRule` | rust/src/gildedrose.rs:104-110 | days drop by exactly one. Quality never rises and falls by at most the day's step (1, or 2 once the post-decrement day is negative). It falls by exactly that step unless it reaches 0. |
| `Items.BrieRule` | rust/src/gildedrose.rs:19-28 | days drop by one. Quality in [0, 50] stays in [0, 50] and never falls. It rises by at most the day's step (1, or 2 after the sell date), and by exactly that step unless it reaches 50. Below 50 it strictly rises. Quality above 50 rises by one. |
| `Items.BackstageRule` | rust/src/gildedrose.rs:47-65 | days drop by one. Quality is 0 if and only if the post-decrement day is negative. Before that it never falls and rises by at most 1 + (1 if day < 10) + (1 if day < 5). Quality in range stays at most 50, and rises by exactly that amount unless it reaches 50. Quality at or above 50 stays unchanged. |
| `Items.Ticked` | rust/src/gildedrose.rs:122-129 | a tick keeps the variant. Sulfuras is returned unchanged. Every other variant loses exactly one day, and its quality stays at most 50 if it started at most 50. |
| `Items.SulfurasIsFixed` | rust/src/gildedrose.rs:83-84 | any number of ticks leaves a Sulfuras item, both days and quality, unchanged |
| `Items.TicksKeepQualityInRange` | rust/src/gildedrose.rs:18-120 | an item other than Sulfuras, starting with quality in [0, 50] and at least `n` days above `i32::MIN`, can take `n` ticks without overflow. It then has exactly `n` days fewer, the same variant, and quality still in [0, 50]. |
| `Items.Item.constructor` | rust/src/gildedrose.rs:132-156 | `Item::new` stores the classified variant and the given days and quality, and the item's `name()` is the given name |
| `Items.Item.Tick` | rust/src/gildedrose.rs:18-120 | the step-by-step in-place update of each variant leaves the item equal to `Ticked` of its old value |
| `Items.TickedOnce` | rust/src/gildedrose.rs:158-163 | a fresh item ticked once has the value `Ticked(Item::new(...))` |
| `Items.UnitTestExpectations` | rust/src/gildedrose.rs:217-444 | every before/after pair of the ordinary, Brie, Sulfuras and backstage-pass unit tests |
| `Decimal.NatToString` | rust/src/gildedrose.rs:168-174 | a non-negative number (the quality, or the magnitude of the days) is written as a non-empty string of decimal digits, with no leading zero unless the number is 0 |
| `Decimal.IntToString` | rust/src/gildedrose.rs:168-174 | the text of an integer contains neither ',' nor ' ', so it cannot be confused with the ", " separator |
| `Decimal.ParseNatToString` | rust/src/gildedrose.rs:168-174 | reading back the digits written for a non-negative number gives the number |
| `Decimal.ParseIntToString` | rust/src/gildedrose.rs:168-174 | reading back the text written for any integer, negative days included, gives the integer |
| `Items.Line` | rust/src/gildedrose.rs:166-176 | an item's line `name, days, quality` is read back, splitting from the right, as exactly that name, days and quality, even when an ordinary name itself contains ", " |
| `Items.LineDeterminesItem` | rust/src/gildedrose.rs:166-176 | two items that classification can produce print the same line only when they are equal |
| `Shop.TickAll` | rust/src/gildedrose.rs:188-192 | a day keeps the number of items, and item `i` of the result is item `i` ticked once |
| `Shop.TickAllKeepsKinds` | rust/src/gildedrose.rs:188-192 | a day changes no item's position, variant or name |
| `Shop.TickAllKeepsQualityInRange` | rust/src/gildedrose.rs:188-192 | after a day, every item other than Sulfuras whose quality was in [0, 50] still has quality in [0, 50] |
| `Shop.GildedRose.constructor` | rust/src/gildedrose.rs:184-186 | `GildedRose::new` keeps the given items, in the given order |
| `Shop.GildedRose.Tick` | rust/src/gildedrose.rs:188-192 | the loop leaves the inventory equal to `TickAll` of its old value. The list itself never changes. |
| `Shop.Rows` | rust/src/gildedrose.rs:198-200 | there is one row per item, in order, and row `i` is item `i`'s line followed by a newline |
| `Shop.ConcatAppend` | rust/src/gildedrose.rs:198-200 | writing two runs of rows one after the other writes the first run's text, then the second's |
| `Shop.Report` | rust/src/gildedrose.rs:195-203 | the report is the header `name, sellIn, quality` with its newline, followed by the items' rows in stored order |
| `Shop.SeveralItems` | rust/src/gildedrose.rs:517-532 | ticking a shop holding the ordinary item (5, 10) and Aged Brie (3, 10) leaves them at (4, 9) and (2, 11) |
| `Shop.GildedRose.Render` | rust/src/gildedrose.rs:195-203 | writing the header and then each item's row in a loop produces exactly the report of the current inventory |

## Left out

- `rust/src/main.rs` is not part of this model. It is a separate demonstration of equality on a trait object and prints a message. It contains no shop logic.
- The `enum_dispatch` machinery (lines 1, 4 and 122) is not modelled. A `match` on `Items.Kind` takes its place, and there is no dispatch behaviour to verify.
- Formatter plumbing is not modelled: the `fmt::Formatter`, the `?` error propagation and `fmt::Result`. The report is modelled as the string the formatter receives.
- The ignored "Conjured" tests (lines 447-515) describe unimplemented behaviour and are not modelled. "Conjured Mana Cake" classifies as an ordinary item, as the code does.
- Items.Item.Tick: requires `days > i32::MIN` for every variant but Sulfuras, and `quality < u32::MAX` for Brie. Without them Rust's `-=`/`+=` would panic in a debug build or wrap in a release build, and neither behaviour is modelled.
- Items.Ticked: has the same overflow preconditions as `Items.Item.Tick` (`Items.CanTick`), for the same reason.
- Shop.GildedRose.Tick: requires every item to satisfy those overflow preconditions. It also requires that no item appears twice, which Rust's ownership of the `Vec` guarantees and the model has to state.
- The accessors `days_remaining()` and `quality()` are the fields `days` and `quality` of `Items.Item`. `name()` is `Items.Item.Name`, defined by `Items.KindName`.
- The derived `PartialEq` and `Debug` are not modelled separately: the tests' comparisons are equality of `Items.Entry` values.
