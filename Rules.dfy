// The once-per-day update of a single item, and what it promises for each
// category of item.

module Rules {
  import opened Items

  /**
   * Lowers quality by `units`, one unit at a time; each unit is taken only
   * while quality is still above 0. A quality already at or below 0 is
   * therefore left where it is, and a positive one stops at 0.
   */
  function Degrade(q: int, units: nat): (r: int)
    decreases units
    ensures q <= 0 ==> r == q
    ensures 0 < q && units <= q ==> r == q - units
    ensures 0 < q && q <= units ==> r == 0
  {
    if units == 0 then q
    else Degrade(if q > 0 then q - 1 else q, units - 1)
  }

  /**
   * Raises quality by `units`, one unit at a time; each unit is added only
   * while quality is still below MaxQuality. A quality already at or above
   * the ceiling is left where it is, and a lower one stops at the ceiling.
   */
  function Improve(q: int, units: nat): (r: int)
    decreases units
    ensures MaxQuality <= q ==> r == q
    ensures q < MaxQuality && q + units <= MaxQuality ==> r == q + units
    ensures q < MaxQuality && MaxQuality <= q + units ==> r == MaxQuality
  {
    if units == 0 then q
    else Improve(if q < MaxQuality then q + 1 else q, units - 1)
  }

  /** Units a backstage pass gains on a day, by the days left before the concert. */
  function PassGain(sellIn: int): (units: nat)
    requires sellIn > 0
    ensures sellIn > 10 ==> units == 1
    ensures 5 < sellIn <= 10 ==> units == 2
    ensures sellIn <= 5 ==> units == 3
  {
    if sellIn <= 5 then 3 else if sellIn <= 10 then 2 else 1
  }

  /**
   * One elapsed day for one item. Every item but Sulfuras loses a day of
   * sell-in; the quality rule depends on the category and on whether the
   * sell-by date had already been reached (sell-in at or below 0) before
   * the update.
   */
  function Step(item: Item): (r: Item)
    ensures r.name == item.name
    ensures CategoryOf(item.name) == Immortal ==> r == item
    ensures CategoryOf(item.name) != Immortal ==> r.sellIn == item.sellIn - 1
  {
    var overdue := item.sellIn <= 0;
    match CategoryOf(item.name)
    case Immortal => item
    case Standard =>
      Item(item.name, item.sellIn - 1, Degrade(item.quality, if overdue then 2 else 1))
    case Aged =>
      Item(item.name, item.sellIn - 1, Improve(item.quality, if overdue then 2 else 1))
    case EventTicket =>
      Item(item.name, item.sellIn - 1, if overdue then 0 else Improve(item.quality, PassGain(item.sellIn)))
  }

  // ---------------------------------------------------------------------
  // Standard items

  /** Before the sell-by date a standard item loses one unit of quality. */
  lemma StandardLosesOne(item: Item)
    requires CategoryOf(item.name) == Standard
    requires item.sellIn > 0 && item.quality > 0
    ensures Step(item) == Item(item.name, item.sellIn - 1, item.quality - 1)
  {
  }

  /** From the sell-by date on a standard item degrades twice as fast. */
  lemma StandardOverdueLosesTwo(item: Item)
    requires CategoryOf(item.name) == Standard
    requires item.sellIn <= 0 && item.quality >= 2
    ensures Step(item) == Item(item.name, item.sellIn - 1, item.quality - 2)
  {
  }

  /** Degradation stops at 0: a quality of 0, 1 or 2 past the sell-by date ends at 0. */
  lemma StandardFloorsAtZero(item: Item)
    requires CategoryOf(item.name) == Standard
    requires 0 <= item.quality <= 2 && item.sellIn <= 0
    ensures Step(item) == Item(item.name, item.sellIn - 1, 0)
  {
  }

  /** A quality already below 0 is neither lowered nor corrected. */
  lemma StandardNegativeQualityUnchanged(item: Item)
    requires CategoryOf(item.name) == Standard
    requires item.quality < 0
    ensures Step(item) == Item(item.name, item.sellIn - 1, item.quality)
  {
  }

  /** A standard item never gains quality and, starting at 0 or above, never drops below 0. */
  lemma StandardNeverGains(item: Item)
    requires CategoryOf(item.name) == Standard
    ensures Step(item).quality <= item.quality
    ensures item.quality >= 0 ==> Step(item).quality >= 0
  {
  }

  // ---------------------------------------------------------------------
  // Aged Brie

  /** Before the sell-by date Aged Brie gains one unit of quality below the ceiling. */
  lemma BrieGainsOne(item: Item)
    requires item.name == AgedBrie
    requires item.sellIn > 0 && item.quality < MaxQuality
    ensures Step(item) == Item(AgedBrie, item.sellIn - 1, item.quality + 1)
  {
  }

  /** Aged Brie at or above the ceiling keeps its quality; it is not pulled down to 50. */
  lemma BrieCapped(item: Item)
    requires item.name == AgedBrie
    requires item.quality >= MaxQuality
    ensures Step(item) == Item(AgedBrie, item.sellIn - 1, item.quality)
  {
  }

  /**
   * Past the sell-by date Aged Brie gains two units, still never past the
   * ceiling (the kata's rule; the tests only use Brie before that date).
   */
  lemma BrieOverdueGainsTwo(item: Item)
    requires item.name == AgedBrie && item.sellIn <= 0
    ensures item.quality <= MaxQuality - 2 ==> Step(item) == Item(AgedBrie, item.sellIn - 1, item.quality + 2)
    ensures item.quality == MaxQuality - 1 ==> Step(item) == Item(AgedBrie, item.sellIn - 1, MaxQuality)
  {
  }

  /** Aged Brie never loses quality, and never rises above the ceiling from below it. */
  lemma BrieNeverLoses(item: Item)
    requires item.name == AgedBrie
    ensures Step(item).quality >= item.quality
    ensures item.quality <= MaxQuality ==> Step(item).quality <= MaxQuality
  {
  }

  // ---------------------------------------------------------------------
  // Quality above the ceiling

  /**
   * Quality above 50 before the sell-by date: Aged Brie and backstage
   * passes keep it, a standard item loses one unit.
   */
  lemma AboveCeilingBeforeSellBy(item: Item)
    requires item.quality > MaxQuality && item.sellIn > 0
    ensures CategoryOf(item.name) in {Aged, EventTicket} ==> Step(item).quality == item.quality
    ensures CategoryOf(item.name) == Standard ==> Step(item).quality == item.quality - 1
  {
  }

  // ---------------------------------------------------------------------
  // Backstage passes and Sulfuras (the kata's rules; not asserted by the tests)

  /**
   * A backstage pass gains 1 more than ten days out, 2 from ten days out, 3
   * from five days out, never past the ceiling, and is worth 0 once the
   * concert has happened.
   */
  lemma PassTiers(item: Item)
    requires item.name == BackstagePasses
    ensures item.sellIn <= 0 ==> Step(item).quality == 0
    ensures item.sellIn > 10 && item.quality < MaxQuality ==>
              Step(item).quality == item.quality + 1
    ensures 5 < item.sellIn <= 10 && item.quality <= MaxQuality - 2 ==>
              Step(item).quality == item.quality + 2
    ensures 0 < item.sellIn <= 5 && item.quality <= MaxQuality - 3 ==>
              Step(item).quality == item.quality + 3
    ensures 0 < item.sellIn && item.quality <= MaxQuality ==>
              item.quality <= Step(item).quality <= MaxQuality
    ensures 0 < item.sellIn && item.quality < MaxQuality <= item.quality + PassGain(item.sellIn) ==>
              Step(item).quality == MaxQuality
  {
  }

  /** Sulfuras is never sold and never decays: neither sell-in nor quality moves. */
  lemma SulfurasUnchanged(sellIn: int, quality: int)
    ensures Step(Item(Sulfuras, sellIn, quality)) == Item(Sulfuras, sellIn, quality)
  {
  }

  // ---------------------------------------------------------------------
  // The nominal range

  /** An item of any category whose quality is within 0..50 stays within 0..50. */
  lemma StepKeepsQualityInRange(item: Item)
    requires 0 <= item.quality <= MaxQuality
    ensures 0 <= Step(item).quality <= MaxQuality
  {
  }
}
