// The inventory as a whole: the shop object that owns an array of items and
// updates all of them, in place and in order, once per day.

module Inventory {
  import opened Items
  import opened Rules

  /** The inventory after one day: each item stepped by its own rule, order kept. */
  function UpdateAll(items: seq<Item>): (r: seq<Item>)
    ensures |r| == |items|
    ensures forall k :: 0 <= k < |items| ==> r[k] == Step(items[k])
  {
    if items == [] then [] else [Step(items[0])] + UpdateAll(items[1..])
  }

  /** An empty inventory stays empty. */
  lemma UpdateEmpty()
    ensures UpdateAll([]) == []
  {
  }

  /**
   * Items are updated independently: updating two inventories side by side
   * is updating each of them and putting the results side by side.
   */
  lemma UpdateAllSplits(a: seq<Item>, b: seq<Item>)
    ensures UpdateAll(a + b) == UpdateAll(a) + UpdateAll(b)
  {
  }

  /**
   * An update neither adds, drops nor renames items: a corollary of
   * UpdateAll's contract and Step's name clause, stated for callers that
   * only care about names.
   */
  lemma UpdateKeepsNames(items: seq<Item>)
    ensures |UpdateAll(items)| == |items|
    ensures forall k :: 0 <= k < |items| ==> UpdateAll(items)[k].name == items[k].name
  {
  }

  class GildedRose {
    var items: array<Item>

    constructor (items: array<Item>)
      ensures this.items == items
    {
      this.items := items;
    }

    /** One elapsed day: every item is updated in place by its own rule. */
    method UpdateQuality()
      modifies items
      ensures items[..] == UpdateAll(old(items[..]))
    {
      var i := 0;
      while i < items.Length
        invariant 0 <= i <= items.Length
        invariant forall k :: 0 <= k < i ==> items[k] == Step(old(items[k]))
        invariant forall k :: i <= k < items.Length ==> items[k] == old(items[k])
      {
        items[i] := Step(items[i]);
        i := i + 1;
      }
    }
  }
}
