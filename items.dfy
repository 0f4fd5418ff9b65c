/**
 * Items as the loot sheet sees them, and what they are worth: the name and
 * price a player is shown (the unidentified ones when the item is not
 * identified), and the sale value of an item, container contents included.
 */
module Items {

  datatype Option<T> = None | Some(value: T)

  /** The item types of the game system the sheet distinguishes. */
  datatype ItemType = Weapon | Equipment | Consumable | Tool | Loot | Container | OtherType(name: string)

  /** What an unidentified item is shown as. */
  datatype Unidentified = Unidentified(name: string, price: real)

  /** The loot sheet's own flags on an item. */
  datatype LootFlags = LootFlags(infinite: bool, secret: bool)

  /**
   * An item: its id, name, type and sub-type, stack size, price in gold,
   * whether it is identified, its unidentified record if any, the loot
   * sheet's flags if any, and for a container the items inside it.
   */
  datatype Item = Item(
    id: string,
    name: string,
    kind: ItemType,
    subType: string,
    quantity: int,
    price: real,
    identified: bool,
    unidentified: Option<Unidentified>,
    flags: Option<LootFlags>,
    contents: seq<Item>)

  /** The sub-type that always sells at full price. */
  const TradeGoods := "tradeGoods"

  predicate IsInfinite(item: Item)
  {
    item.flags.Some? && item.flags.value.infinite
  }

  predicate IsSecret(item: Item)
  {
    item.flags.Some? && item.flags.value.secret
  }

  /** The types whose items sell for a share of their cost. */
  predicate Listed(kind: ItemType)
  {
    kind == Weapon || kind == Equipment || kind == Consumable || kind == Tool || kind == Loot
  }

  /**
   * The name shown for an item: the unidentified name when the item is not
   * identified and has a non-empty unidentified name, otherwise its name;
   * nothing for a missing item.
   */
  function ItemName(item: Option<Item>): (r: string)
    ensures item.None? ==> r == ""
    ensures item.Some? ==> (r == item.value.name <==>
              item.value.identified || item.value.unidentified.None? || item.value.unidentified.value.name == ""
              || item.value.unidentified.value.name == item.value.name)
    ensures item.Some? && r != item.value.name ==> r == item.value.unidentified.value.name
  {
    match item
    case None => ""
    case Some(i) =>
      if i.identified || i.unidentified.None? || i.unidentified.value.name == "" then i.name
      else i.unidentified.value.name
  }

  /**
   * The price shown for an item: the unidentified price when the item is not
   * identified and has an unidentified record, otherwise its price; zero for
   * a missing item. Unlike the name, an unidentified record is used even
   * when its name is empty.
   */
  function ItemCost(item: Option<Item>): (r: real)
    ensures item.None? ==> r == 0.0
    ensures item.Some? && (item.value.identified || item.value.unidentified.None?) ==> r == item.value.price
    ensures item.Some? && !item.value.identified && item.value.unidentified.Some? ==> r == item.value.unidentified.value.price
  {
    match item
    case None => 0.0
    case Some(i) => if i.identified || i.unidentified.None? then i.price else i.unidentified.value.price
  }

  /**
   * The sale value of an item at the given ratio: a container is worth its
   * own cost times the ratio plus the sale value of everything inside it; a
   * weapon, equipment, consumable, tool or loot item its cost times the
   * ratio, or its full cost when it is trade goods; any other item nothing.
   */
  function SaleValue(item: Item, ratio: real): real
    decreases item, 1, 0
  {
    if item.kind == Container then ItemCost(Some(item)) * ratio + ContentsValue(item, |item.contents|, ratio)
    else if Listed(item.kind) then
      if item.subType != TradeGoods then ItemCost(Some(item)) * ratio else ItemCost(Some(item))
    else 0.0
  }

  /** The sale value of the first n items inside a container. */
  function ContentsValue(parent: Item, n: nat, ratio: real): real
    requires n <= |parent.contents|
    decreases parent, 0, n
  {
    if n == 0 then 0.0 else ContentsValue(parent, n - 1, ratio) + SaleValue(parent.contents[n - 1], ratio)
  }

  /**
   * What the whole item is worth at full price: a container's own cost plus
   * that of its contents, a listed item's cost, nothing for any other item.
   */
  function ListedCost(item: Item): real
    decreases item, 1, 0
  {
    if item.kind == Container then ItemCost(Some(item)) + ContentsCost(item, |item.contents|)
    else if Listed(item.kind) then ItemCost(Some(item))
    else 0.0
  }

  function ContentsCost(parent: Item, n: nat): real
    requires n <= |parent.contents|
    decreases parent, 0, n
  {
    if n == 0 then 0.0 else ContentsCost(parent, n - 1) + ListedCost(parent.contents[n - 1])
  }

  /** No price, identified or not, is negative, at any depth. */
  predicate PricesNonNegative(item: Item)
    decreases item
  {
    item.price >= 0.0
    && (item.unidentified.Some? ==> item.unidentified.value.price >= 0.0)
    && forall k :: 0 <= k < |item.contents| ==> PricesNonNegative(item.contents[k])
  }

  /**
   * The sale value of an item, or nothing for a missing item: a container
   * adds up the sale values of its contents one after the other.
   */
  method GetItemSaleValue(item: Option<Item>, ratio: real) returns (total: real)
    ensures item.None? ==> total == 0.0
    ensures item.Some? ==> total == SaleValue(item.value, ratio)
  {
    if item.None? {
      return 0.0;
    }
    total := SaleValueOf(item.value, ratio);
  }

  method SaleValueOf(item: Item, ratio: real) returns (total: real)
    ensures total == SaleValue(item, ratio)
    decreases item
  {
    if item.kind == Container {
      var own := ItemCost(Some(item)) * ratio;
      total := own;
      var k := 0;
      while k < |item.contents|
        invariant 0 <= k <= |item.contents|
        invariant total == own + ContentsValue(item, k, ratio)
      {
        var v := SaleValueOf(item.contents[k], ratio);
        assert ContentsValue(item, k + 1, ratio) == ContentsValue(item, k, ratio) + v;
        total := total + v;
        k := k + 1;
      }
      assert SaleValue(item, ratio) == own + ContentsValue(item, |item.contents|, ratio);
    } else if Listed(item.kind) {
      if item.subType != TradeGoods {
        total := ItemCost(Some(item)) * ratio;
      } else {
        total := ItemCost(Some(item));
      }
    } else {
      total := 0.0;
    }
  }

  lemma CostNonNegative(item: Item)
    requires PricesNonNegative(item)
    ensures ItemCost(Some(item)) >= 0.0
  {
  }

  /**
   * With prices that are not negative and a ratio between zero and one, the
   * sale value of an item is never negative and never above its full-price
   * worth.
   */
  lemma {:induction false} SaleValueBounds(item: Item, ratio: real)
    requires PricesNonNegative(item) && 0.0 <= ratio <= 1.0
    ensures 0.0 <= SaleValue(item, ratio) <= ListedCost(item)
    decreases item, 1, 0
  {
    CostNonNegative(item);
    if item.kind == Container {
      ContentsBounds(item, |item.contents|, ratio);
      ContainerBounds(item, ratio);
    } else if Listed(item.kind) {
      ListedBounds(item, ratio);
    }
  }

  lemma ContainerBounds(item: Item, ratio: real)
    requires item.kind == Container && ItemCost(Some(item)) >= 0.0 && 0.0 <= ratio <= 1.0
    requires 0.0 <= ContentsValue(item, |item.contents|, ratio) <= ContentsCost(item, |item.contents|)
    ensures 0.0 <= SaleValue(item, ratio) <= ListedCost(item)
  {
    var c := ItemCost(Some(item));
    var scaled := c * ratio;
    assert 0.0 <= scaled <= c by {
      ScaleBelow(c, ratio);
    }
    assert SaleValue(item, ratio) == scaled + ContentsValue(item, |item.contents|, ratio);
    assert ListedCost(item) == c + ContentsCost(item, |item.contents|);
  }

  lemma ListedBounds(item: Item, ratio: real)
    requires Listed(item.kind) && item.kind != Container && ItemCost(Some(item)) >= 0.0 && 0.0 <= ratio <= 1.0
    ensures 0.0 <= SaleValue(item, ratio) <= ListedCost(item)
  {
    ScaleBelow(ItemCost(Some(item)), ratio);
  }

  lemma ScaleBelow(c: real, ratio: real)
    requires c >= 0.0 && 0.0 <= ratio <= 1.0
    ensures 0.0 <= c * ratio <= c
  {
    assert c * ratio <= c * 1.0;
  }

  lemma {:induction false} ContentsBounds(parent: Item, n: nat, ratio: real)
    requires n <= |parent.contents| && PricesNonNegative(parent) && 0.0 <= ratio <= 1.0
    ensures 0.0 <= ContentsValue(parent, n, ratio) <= ContentsCost(parent, n)
    decreases parent, 0, n
  {
    if n > 0 {
      ContentsBounds(parent, n - 1, ratio);
      SaleValueBounds(parent.contents[n - 1], ratio);
    }
  }

  /** At a ratio of one every item sells for its full-price worth. */
  lemma {:induction false} FullRatioSale(item: Item)
    ensures SaleValue(item, 1.0) == ListedCost(item)
    decreases item, 1, 0
  {
    if item.kind == Container {
      FullRatioContents(item, |item.contents|);
    }
  }

  lemma {:induction false} FullRatioContents(parent: Item, n: nat)
    requires n <= |parent.contents|
    ensures ContentsValue(parent, n, 1.0) == ContentsCost(parent, n)
    decreases parent, 0, n
  {
    if n > 0 {
      FullRatioContents(parent, n - 1);
      FullRatioSale(parent.contents[n - 1]);
    }
  }

  /** Trade goods of a listed type sell at full cost whatever the ratio; other listed items at cost times ratio. */
  lemma ListedSale(item: Item, ratio: real)
    requires Listed(item.kind)
    ensures item.subType == TradeGoods ==> SaleValue(item, ratio) == ItemCost(Some(item))
    ensures item.subType != TradeGoods ==> SaleValue(item, ratio) == ItemCost(Some(item)) * ratio
  {
  }
}
