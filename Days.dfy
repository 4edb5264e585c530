// Several elapsed days: calling the update once per day, and what holds of
// an item after any number of days.

module Days {
  import opened Items
  import opened Rules
  import opened Inventory

  /** The item after `days` successive daily updates. */
  function Age(item: Item, days: nat): (r: Item)
    ensures r.name == item.name
    decreases days
  {
    if days == 0 then item else Age(Step(item), days - 1)
  }

  /** Every item but Sulfuras loses exactly one day of sell-in per day; Sulfuras never changes. */
  lemma {:induction false} AgeSellIn(item: Item, days: nat)
    ensures CategoryOf(item.name) == Immortal ==> Age(item, days) == item
    ensures CategoryOf(item.name) != Immortal ==> Age(item, days).sellIn == item.sellIn - days
    decreases days
  {
    if days > 0 {
      AgeSellIn(Step(item), days - 1);
    }
  }

  /** Quality that starts in 0..50 stays in 0..50 however many days pass. */
  lemma {:induction false} AgeKeepsQualityInRange(item: Item, days: nat)
    requires 0 <= item.quality <= MaxQuality
    ensures 0 <= Age(item, days).quality <= MaxQuality
    decreases days
  {
    if days > 0 {
      StepKeepsQualityInRange(item);
      AgeKeepsQualityInRange(Step(item), days - 1);
    }
  }

  /** A standard item with quality q >= 0 is worthless after q days at the latest, and stays so. */
  lemma {:induction false} StandardBecomesWorthless(item: Item, days: nat)
    requires CategoryOf(item.name) == Standard
    requires 0 <= item.quality <= days
    ensures Age(item, days).quality == 0
    decreases days
  {
    if days > 0 {
      StandardBecomesWorthless(Step(item), days - 1);
    }
  }

  /** Aged Brie never loses quality over any number of days. */
  lemma {:induction false} BrieNeverLosesOverTime(item: Item, days: nat)
    requires item.name == AgedBrie
    ensures Age(item, days).quality >= item.quality
    decreases days
  {
    if days > 0 {
      BrieNeverLosesOverTime(Step(item), days - 1);
    }
  }

  /** Once the concert has happened a backstage pass is worth 0 on every later day. */
  lemma {:induction false} PassWorthlessAfterConcert(item: Item, days: nat)
    requires item.name == BackstagePasses
    requires item.sellIn <= 0 && days >= 1
    ensures Age(item, days).quality == 0
    decreases days
  {
    if days > 1 {
      PassWorthlessAfterConcert(Step(item), days - 1);
    }
  }

  /** The inventory after `days` successive calls of the daily update. */
  function AfterDays(items: seq<Item>, days: nat): (r: seq<Item>)
    decreases days
    ensures |r| == |items|
  {
    if days == 0 then items else AfterDays(UpdateAll(items), days - 1)
  }

  /**
   * Updating the whole inventory day after day ages every item on its own:
   * after any number of days each position holds its own item aged by that
   * many days.
   */
  lemma {:induction false} AfterDaysAgesEachItem(items: seq<Item>, days: nat)
    ensures forall k :: 0 <= k < |items| ==> AfterDays(items, days)[k] == Age(items[k], days)
    decreases days
  {
    if days > 0 {
      AfterDaysAgesEachItem(UpdateAll(items), days - 1);
    }
  }
}
