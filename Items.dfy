// The inventory record of the Gilded Rose and the categories its update
// rules are keyed by.

module Items {

  /** The item whose quality rises as it ages. */
  const AgedBrie: string := "Aged Brie"
  /** The concert ticket whose quality rises towards the concert and is lost after it. */
  const BackstagePasses: string := "Backstage passes to a TAFKAL80ETC concert"
  /** The legendary item that never has to be sold and never changes. */
  const Sulfuras: string := "Sulfuras, Hand of Ragnaros"

  /** The ceiling that an update never raises quality beyond. */
  const MaxQuality: int := 50

  /**
   * One entry of the inventory. `sellIn` counts the days left to sell the
   * item and may go negative; `quality` is nominally 0..50, but nothing
   * forbids an item built outside that range.
   */
  datatype Item = Item(name: string, sellIn: int, quality: int)

  /** The rule set an item follows, chosen by the exact spelling of its name. */
  datatype Category = Immortal | Aged | EventTicket | Standard

  function CategoryOf(name: string): (c: Category)
    ensures c == Immortal <==> name == Sulfuras
    ensures c == Aged <==> name == AgedBrie
    ensures c == EventTicket <==> name == BackstagePasses
    ensures c == Standard <==> name !in {Sulfuras, AgedBrie, BackstagePasses}
  {
    if name == Sulfuras then Immortal
    else if name == AgedBrie then Aged
    else if name == BackstagePasses then EventTicket
    else Standard
  }
}
