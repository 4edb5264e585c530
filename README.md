# Gilded Rose inventory update

A model of `GildedRose.updateQuality()` from the Gilded Rose kata (Kotlin
version). The shop holds an array of items. Each item has a name, a sell-in
(days left to sell it) and a quality. Once per simulated day,
`updateQuality()` rewrites every item's sell-in and quality in place,
following a rule chosen by the item's exact name:

- **Standard** (any other name): sell-in drops by 1. Quality drops by 1, or
  by 2 once the sell-by date is reached (sell-in at or below 0 before the
  update). Quality never drops below 0, and a quality that is already
  negative is left alone.
- **Aged Brie**: sell-in drops by 1. Quality rises by 1, or by 2 past the
  sell-by date, never past 50. A quality already above 50 is kept.
- **Backstage passes to a TAFKAL80ETC concert**: sell-in drops by 1. Quality
  rises by 1, 2 or 3 as the concert nears (more than 10 days, 6..10 days,
  1..5 days), never past 50, and is 0 once the concert has passed.
- **Sulfuras, Hand of Ragnaros**: never changes.

The model takes the assertions in `GildedRoseTest.kt` as its specification
of `updateQuality()`. The tests assert the standard-item rules and the Aged
Brie rules before the sell-by date. The backstage-pass tiers, Sulfuras and
Aged Brie past its sell-by date follow the kata's original
`updateQuality()`. The tests
do not assert them, so they have their own lemmas, apart from the
test-backed ones.

Layout:

- `Items.dfy` (module `Items`): the `Item` record, the three special names,
  the ceiling 50, and the name-to-category dispatch.
- `Rules.dfy` (module `Rules`): the per-item daily rule `Step` and its
  properties. Quality moves one unit at a time. Each unit is guarded, by
  "still above 0" when lowering (`Degrade`) and by "still below 50" when
  raising (`Improve`). Their contracts give the closed form: floored or
  capped, with out-of-range values passed through.
- `Inventory.dfy` (module `Inventory`): `UpdateAll`, the update of a whole
  item sequence, and class `GildedRose`. Its `UpdateQuality` loops over the
  item array and rewrites each slot in place. It is proved equal to
  `UpdateAll` of the old contents.
- `Days.dfy` (module `Days`): several elapsed days, for one item (`Age`) and
  for the whole inventory (`AfterDays`).

A standard item with negative quality keeps it:
`Kotlin/src/test/kotlin/com/gildedrose/GildedRoseTest.kt:92-96` expects -1
to stay -1.

## Model

| member | source | states |
|---|---|---|
| `Items.CategoryOf` | Kotlin/src/test/kotlin/com/gildedrose/GildedRoseTest.kt:101-107 | The rule is chosen by exact name: Sulfuras, Aged Brie and the backstage pass each map to their own category, and every other name (such as "Thing") is standard. Each direction of the match is stated. |
| `Rules.Degrade` | Kotlin/src/test/kotlin/com/gildedrose/GildedRoseTest.kt:44-52 | Lowering quality unit by unit, each unit only while above 0, leaves a quality at or below 0 unchanged, subtracts exactly when the quality covers the units, and otherwise ends at exactly 0. |
| `Rules.Improve` | Kotlin/src/test/kotlin/com/gildedrose/GildedRoseTest.kt:80-85 | Raising quality unit by unit, each unit only while below 50, leaves a quality at or above 50 unchanged, adds exactly when the sum stays within 50, and otherwise ends at exactly 50. |
| `Rules.PassGain` | Kotlin/src/test/kotlin/com/gildedrose/GildedRoseTest.kt:101 | Before the concert a backstage pass gains 1 unit more than 10 days out, 2 units at 6..10 days, and 3 units at 1..5 days. These are the kata's tiers; the tests do not assert them. |
| `Rules.Step` | Kotlin/src/test/kotlin/com/gildedrose/GildedRoseTest.kt:27-31 | One day never renames an item. Sulfuras is returned unchanged. Every other item's sell-in drops by exactly 1. |
| `Rules.StandardLosesOne` | Kotlin/src/test/kotlin/com/gildedrose/GildedRoseTest.kt:27-31 | A standard item before its sell-by date, with positive quality, loses exactly one unit. Sell-in drops by 1 and the name is kept. |
| `Rules.StandardOverdueLosesTwo` | Kotlin/src/test/kotlin/com/gildedrose/GildedRoseTest.kt:34-42 | A standard item with sell-in at or below 0 (any value, as far down as the test goes) and quality at least 2 loses exactly two units. |
| `Rules.StandardFloorsAtZero` | Kotlin/src/test/kotlin/com/gildedrose/GildedRoseTest.kt:44-64 | A standard item past its sell-by date with quality 0, 1 or 2 ends at quality 0 and sell-in one lower. |
| `Rules.StandardNegativeQualityUnchanged` | Kotlin/src/test/kotlin/com/gildedrose/GildedRoseTest.kt:92-96 | A standard item with negative quality keeps that quality. It is neither lowered nor corrected to 0. Sell-in still drops by 1. |
| `Rules.StandardNeverGains` | Kotlin/src/test/kotlin/com/gildedrose/GildedRoseTest.kt:27-64 | A standard item's quality never rises in a day, and a quality at 0 or above never becomes negative. |
| `Rules.BrieGainsOne` | Kotlin/src/test/kotlin/com/gildedrose/GildedRoseTest.kt:71-77 | Aged Brie before its sell-by date with quality below 50 gains exactly one unit; sell-in drops by 1. |
| `Rules.BrieCapped` | Kotlin/src/test/kotlin/com/gildedrose/GildedRoseTest.kt:80-85 | Aged Brie at or above 50 keeps its quality, so 50 stays 50 and 51 stays 51, while sell-in still drops by 1. |
| `Rules.BrieOverdueGainsTwo` | Kotlin/src/test/kotlin/com/gildedrose/GildedRoseTest.kt:71-85 | This is the kata's rule; the tests only use Brie before its sell-by date. Once sell-in is at or below 0, Aged Brie gains exactly two units when that stays within 50, and ends at exactly 50 from 49. Sell-in drops by 1. |
| `Rules.BrieNeverLoses` | Kotlin/src/test/kotlin/com/gildedrose/GildedRoseTest.kt:71-85 | Aged Brie never loses quality in a day, and from 50 or below it never rises past 50. |
| `Rules.AboveCeilingBeforeSellBy` | Kotlin/src/test/kotlin/com/gildedrose/GildedRoseTest.kt:99-107 | With quality above 50 before the sell-by date, Aged Brie and backstage passes keep their quality and a standard item loses one unit. |
| `Rules.PassTiers` | Kotlin/src/test/kotlin/com/gildedrose/GildedRoseTest.kt:101-107 | These are the kata's backstage-pass rules; the tests do not assert them. A pass gains 1, 2 or 3 units by days to the concert, ends at exactly 50 when the gain would pass it, and is worth 0 once sell-in was at or below 0. |
| `Rules.SulfurasUnchanged` | Kotlin/src/test/kotlin/com/gildedrose/GildedRoseTest.kt:99-107 | This is the kata's Sulfuras rule; the tests do not assert it. For any sell-in and quality, the update leaves the item exactly as it was. |
| `Rules.StepKeepsQualityInRange` | Kotlin/src/test/kotlin/com/gildedrose/GildedRoseTest.kt:44-53 | For every category, a quality within 0..50 is still within 0..50 after one day. |
| `Inventory.UpdateAll` | Kotlin/src/test/kotlin/com/gildedrose/GildedRoseTest.kt:28-31 | The updated inventory has the same length, and each position holds that position's own item, updated by its own rule. |
| `Inventory.UpdateEmpty` | Kotlin/src/test/kotlin/com/gildedrose/GildedRoseTest.kt:13-18 | Updating an empty inventory gives an empty inventory. |
| `Inventory.UpdateAllSplits` | Kotlin/src/test/kotlin/com/gildedrose/GildedRoseTest.kt:28-31 | Items are updated independently. Updating two inventories joined end to end gives the two updated inventories joined in the same order. |
| `Inventory.UpdateKeepsNames` | Kotlin/src/test/kotlin/com/gildedrose/GildedRoseTest.kt:101-107 | No item is added, dropped or renamed. Each position keeps its name. This follows from `UpdateAll` and `Step` and is stated on its own for callers that only track names. |
| `Inventory.GildedRose.constructor` | Kotlin/src/test/kotlin/com/gildedrose/GildedRoseTest.kt:14-15 | The shop holds exactly the array it was given, with no copy made. |
| `Inventory.GildedRose.UpdateQuality` | Kotlin/src/test/kotlin/com/gildedrose/GildedRoseTest.kt:13-18 | The update works in place on the shop's own array and changes nothing else. Afterwards the array holds `UpdateAll` of its old contents. An empty array stays empty, and no call fails. |
| `Days.Age` | Kotlin/src/test/kotlin/com/gildedrose/GildedRoseTest.kt:27-31 | Aging an item over any number of days never renames it. |
| `Days.AgeSellIn` | Kotlin/src/test/kotlin/com/gildedrose/GildedRoseTest.kt:35-41 | After n days every item except Sulfuras has sell-in lower by exactly n, with no floor. Sulfuras is unchanged after any number of days. |
| `Days.AgeKeepsQualityInRange` | Kotlin/src/test/kotlin/com/gildedrose/GildedRoseTest.kt:44-53 | A quality that starts in 0..50 stays in 0..50 after any number of days. |
| `Days.StandardBecomesWorthless` | Kotlin/src/test/kotlin/com/gildedrose/GildedRoseTest.kt:27-53 | A standard item with quality q >= 0 has quality exactly 0 after any number of days that is at least q. |
| `Days.BrieNeverLosesOverTime` | Kotlin/src/test/kotlin/com/gildedrose/GildedRoseTest.kt:71-85 | Aged Brie never ends below its starting quality, whatever the number of days. |
| `Days.PassWorthlessAfterConcert` | Kotlin/src/test/kotlin/com/gildedrose/GildedRoseTest.kt:101-107 | This is the kata's rule; the tests do not assert it. A backstage pass whose sell-in has reached 0 is worth 0 on every day that follows. |
| `Days.AfterDays` | Kotlin/src/test/kotlin/com/gildedrose/GildedRoseTest.kt:14-17 | Updating the inventory repeatedly never changes its length. |
| `Days.AfterDaysAgesEachItem` | Kotlin/src/test/kotlin/com/gildedrose/GildedRoseTest.kt:28-31 | After n daily updates of the whole inventory, each position holds its own starting item aged n days. |

## Left out

- Where the tests are silent (Sulfuras, backstage passes, Aged Brie past its sell-by date), the rules follow the kata's original `updateQuality()`.
- Rules.BrieOverdueGainsTwo: states the kata's rule for Aged Brie past its sell-by date. The tests use Brie only at sell-in 10.
- Rules.PassTiers: this and the other backstage-pass and Sulfuras members (`Rules.PassGain`, `Rules.SulfurasUnchanged`, `Days.PassWorthlessAfterConcert`) state the kata's rules. The tests assert nothing about them except a pass at quality 51.
- 32-bit `Int` arithmetic: sell-in and quality are unbounded integers. Wrap-around at `Int.MIN_VALUE` and `Int.MAX_VALUE` is not modelled. The tests stop at `Int.MIN_VALUE + 1`, where `sellIn - 1` still fits.
- Aliasing of `Item` objects: an item is modelled as a value in the array. In Kotlin, one `Item` object stored in two slots would be updated twice. The model updates each slot once.
- The test at `GildedRoseTest.kt:55-65` ignores its parameters and only checks quality 1 at sell-in 0. Its CSV values (999 to 997 and so on) are therefore not modelled as asserted facts. `Rules.StandardOverdueLosesTwo` covers them only as a consequence of the general rule.
- Test machinery (JUnit parameterisation, AssertJ recursive comparison), the build script, and any printing fixture are not logic and are left out.
