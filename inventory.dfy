/**
 * Actors and the transfers between them: moving part or all of an item
 * stack from one inventory to another, and moving coins of one
 * denomination between the primary ledger or the weightless ("wl_")
 * ledger of two actors.
 */
module Inventory {
  import opened Money
  import opened Items

  /**
   * An actor of the game: its items, its primary coin ledger (`currency`),
   * its weightless coin ledger (`altCurrency`), the ownership level of each
   * user id, and the loot sheet's flags on it.
   */
  class Actor {
    var items: seq<Item>
    var currency: Ledger
    var altCurrency: Ledger
    var ownership: map<string, int>
    var priceModifier: Option<real>
    var sheetType: Option<string>
    var visible: bool

    /** Item ids are unique and both ledgers hold exactly the four denominations. */
    predicate Valid()
      reads this
    {
      UniqueIds(items) && currency.Keys == Denominations && altCurrency.Keys == Denominations
    }
  }

  predicate UniqueIds(items: seq<Item>)
  {
    forall i, j :: 0 <= i < j < |items| ==> items[i].id != items[j].id
  }

  predicate HasId(items: seq<Item>, id: string)
  {
    exists k :: 0 <= k < |items| && items[k].id == id
  }

  /** The position of the item with the given id. */
  function Find(items: seq<Item>, id: string): (r: Option<nat>)
    ensures r.Some? ==> r.value < |items| && items[r.value].id == id
    ensures r.None? <==> !HasId(items, id)
  {
    if items == [] then None
    else if items[0].id == id then Some(0)
    else
      var rest := Find(items[1..], id);
      assert forall k :: 1 <= k < |items| ==> items[k] == items[1..][k - 1];
      if rest.None? then None else Some(rest.value + 1)
  }

  /** The number of items of the given id held, over all entries. */
  function QuantityOf(items: seq<Item>, id: string): int
  {
    if items == [] then 0
    else (if items[0].id == id then items[0].quantity else 0) + QuantityOf(items[1..], id)
  }

  /**
   * How many items a move takes: the whole stack when no quantity (or zero)
   * is requested, otherwise the request, cut down to the stack size.
   */
  function MovedQuantity(stock: int, requested: Option<int>): (q: int)
    ensures q <= stock
    ensures requested.None? || requested.value == 0 ==> q == stock
    ensures requested.Some? && requested.value != 0 ==> q == Min(stock, requested.value)
  {
    var want := if requested.None? || requested.value == 0 then stock else requested.value;
    Min(stock, want)
  }

  /**
   * The source stack after q items of entry k have left it: untouched for an
   * infinite item, removed when it is emptied and empty stacks are removed,
   * otherwise left with q fewer items.
   */
  function Remaining(items: seq<Item>, k: nat, q: int, removeEmptyStacks: bool): seq<Item>
    requires k < |items|
  {
    if IsInfinite(items[k]) then items
    else if items[k].quantity - q == 0 && removeEmptyStacks then items[..k] + items[k + 1..]
    else items[k := items[k].(quantity := items[k].quantity - q)]
  }

  /** The copy of a moved item: q of them, without the loot sheet's flags. */
  function Copy(item: Item, q: int): (c: Item)
    ensures c.quantity == q && c.flags.None?
    ensures c.(quantity := item.quantity, flags := item.flags) == item
  {
    item.(quantity := q, flags := None)
  }

  /** The result of a move: the copy made and the number of items moved. */
  datatype Moved = Moved(item: Item, quantity: int)

  /**
   * Moves up to `quantity` items of `itemId` from `source` to `destination`.
   * Nothing happens when the source has no such item. The destination gets
   * a new entry (with the fresh id its host assigns, `newId`) holding the
   * moved quantity and no loot sheet flags.
   */
  method MoveItem(source: Actor, destination: Actor, itemId: string, quantity: Option<int>,
                  removeEmptyStacks: bool, newId: string) returns (moved: Option<Moved>)
    requires source != destination && source.Valid() && destination.Valid()
    requires !HasId(destination.items, newId)
    modifies source`items, destination`items
    ensures source.Valid() && destination.Valid()
    ensures Find(old(source.items), itemId).None? ==>
              moved.None? && source.items == old(source.items) && destination.items == old(destination.items)
    ensures Find(old(source.items), itemId).Some? ==>
              var k := Find(old(source.items), itemId).value;
              var item := old(source.items)[k];
              var q := MovedQuantity(item.quantity, quantity);
              moved == Some(Moved(Copy(item, q), q))
              && source.items == Remaining(old(source.items), k, q, removeEmptyStacks)
              && destination.items == old(destination.items) + [Copy(item, q).(id := newId)]
  {
    var found := Find(source.items, itemId);
    if found.None? {
      return None;
    }
    var k := found.value;
    var item := source.items[k];
    var q := MovedQuantity(item.quantity, quantity);
    var newItem := Copy(item, q);
    if !IsInfinite(item) {
      var left := item.quantity - q;
      if left == 0 && removeEmptyStacks {
        source.items := source.items[..k] + source.items[k + 1..];
      } else {
        source.items := source.items[k := item.(quantity := left)];
      }
    }
    RemainingUnique(old(source.items), k, q, removeEmptyStacks);
    AppendUnique(destination.items, newItem.(id := newId));
    destination.items := destination.items + [newItem.(id := newId)];
    moved := Some(Moved(newItem, q));
  }

  /** An item whose id is not yet used keeps the ids unique. */
  lemma AppendUnique(items: seq<Item>, x: Item)
    requires UniqueIds(items) && !HasId(items, x.id)
    ensures UniqueIds(items + [x])
  {
    var r := items + [x];
    forall i, j | 0 <= i < j < |r|
      ensures r[i].id != r[j].id
    {
      assert r[i] == items[i];
      if j == |items| {
        assert !(0 <= i < |items| && items[i].id == x.id);
      }
    }
  }

  lemma RemainingUnique(items: seq<Item>, k: nat, q: int, removeEmptyStacks: bool)
    requires k < |items| && UniqueIds(items)
    ensures UniqueIds(Remaining(items, k, q, removeEmptyStacks))
  {
    var r := Remaining(items, k, q, removeEmptyStacks);
    if !IsInfinite(items[k]) && items[k].quantity - q == 0 && removeEmptyStacks {
      forall i, j | 0 <= i < j < |r|
        ensures r[i].id != r[j].id
      {
        var i' := if i < k then i else i + 1;
        var j' := if j < k then j else j + 1;
        assert r[i] == items[i'] && r[j] == items[j'];
      }
    }
  }

  // ---------------------------------------------------------------------
  // Stock counts

  lemma {:induction false} QuantityOfAppend(items: seq<Item>, extra: seq<Item>, id: string)
    ensures QuantityOf(items + extra, id) == QuantityOf(items, id) + QuantityOf(extra, id)
  {
    if items == [] {
      assert items + extra == extra;
    } else {
      assert (items + extra)[0] == items[0];
      assert (items + extra)[1..] == items[1..] + extra;
      QuantityOfAppend(items[1..], extra, id);
    }
  }

  lemma {:induction false} QuantityOfSplit(items: seq<Item>, k: nat, id: string)
    requires k < |items|
    ensures QuantityOf(items, id)
         == QuantityOf(items[..k], id) + (if items[k].id == id then items[k].quantity else 0) + QuantityOf(items[k + 1..], id)
  {
    assert items == items[..k] + ([items[k]] + items[k + 1..]);
    QuantityOfAppend(items[..k], [items[k]] + items[k + 1..], id);
    assert ([items[k]] + items[k + 1..])[1..] == items[k + 1..];
  }

  /** A list without the id holds none of it. */
  lemma {:induction false} QuantityOfUnique(items: seq<Item>, id: string)
    requires forall i :: 0 <= i < |items| ==> items[i].id != id
    ensures QuantityOf(items, id) == 0
  {
    if items != [] {
      QuantityOfUnique(items[1..], id);
    }
  }

  /**
   * After a move takes q items of entry k, the source holds exactly q fewer
   * items of that id (none fewer when the item is infinite), whether the
   * stack was removed or updated, and the same number of every other id.
   */
  lemma StockAfterMove(items: seq<Item>, k: nat, q: int, removeEmptyStacks: bool, id: string)
    requires k < |items| && UniqueIds(items)
    ensures id == items[k].id && !IsInfinite(items[k]) ==>
              QuantityOf(Remaining(items, k, q, removeEmptyStacks), id) == QuantityOf(items, id) - q
    ensures id != items[k].id || IsInfinite(items[k]) ==>
              QuantityOf(Remaining(items, k, q, removeEmptyStacks), id) == QuantityOf(items, id)
  {
    var r := Remaining(items, k, q, removeEmptyStacks);
    if !IsInfinite(items[k]) {
      QuantityOfSplit(items, k, id);
      if items[k].quantity - q == 0 && removeEmptyStacks {
        QuantityOfAppend(items[..k], items[k + 1..], id);
      } else {
        QuantityOfSplit(r, k, id);
        assert r[..k] == items[..k] && r[k + 1..] == items[k + 1..];
      }
      if id == items[k].id {
        var head, tail := items[..k], items[k + 1..];
        assert forall i :: 0 <= i < |head| ==> head[i].id != id;
        forall i | 0 <= i < |tail|
          ensures tail[i].id != id
        {
          assert tail[i] == items[k + 1 + i];
        }
        QuantityOfUnique(head, id);
        QuantityOfUnique(tail, id);
      }
    }
  }

  /** The destination gains exactly the moved quantity under the new id, and nothing else changes. */
  lemma StockAfterReceive(items: seq<Item>, copy: Item, id: string)
    requires !HasId(items, copy.id)
    ensures id == copy.id ==> QuantityOf(items + [copy], id) == copy.quantity
    ensures id != copy.id ==> QuantityOf(items + [copy], id) == QuantityOf(items, id)
  {
    QuantityOfAppend(items, [copy], id);
    if id == copy.id {
      QuantityOfUnique(items, id);
    }
  }

  // ---------------------------------------------------------------------
  // Coins

  /** An id naming a weightless denomination, as "wl_gp". */
  predicate IsWeightless(itemId: string)
  {
    |itemId| >= 3 && itemId[..3] == "wl_"
  }

  /** The denomination an id names: the id itself, or what follows the "wl_" prefix. */
  function CoinKey(itemId: string): string
  {
    if IsWeightless(itemId) then itemId[3..] else itemId
  }

  /** Two ledgers after a coin move, and how many coins moved (none when the amount is zero). */
  datatype CoinMove = CoinMove(src: Ledger, dst: Ledger, moved: Option<int>)

  /**
   * Moving `quantity` coins of denomination `key` from one ledger to
   * another: the coins leave one ledger and join the other, so their sum
   * is kept; nothing moves when the clamped amount is zero.
   */
  function TransferCoins(src: Ledger, dst: Ledger, key: string, quantity: int): (r: CoinMove)
    requires key in src && key in dst
    ensures r.src.Keys == src.Keys && r.dst.Keys == dst.Keys
    ensures r.src[key] + r.dst[key] == src[key] + dst[key]
    ensures forall d :: d in src && d != key ==> r.src[d] == src[d]
    ensures forall d :: d in dst && d != key ==> r.dst[d] == dst[d]
    ensures r.moved.None? <==> Min(src[key], quantity) == 0
    ensures r.moved.None? ==> r.src == src && r.dst == dst
    ensures r.moved.Some? ==> r.moved.value <= src[key] && r.dst[key] == dst[key] + r.moved.value
    ensures r.moved.Some? ==> r.moved.value == Min(src[key], quantity) && r.src[key] == src[key] - r.moved.value
    ensures quantity >= 0 && src[key] >= 0 ==> r.src[key] >= 0
  {
    var q := Min(src[key], quantity);
    if q == 0 then CoinMove(src, dst, None)
    else CoinMove(src[key := src[key] - q], dst[key := dst[key] + q], Some(q))
  }

  /**
   * Moves up to `quantity` coins named by `itemId` from `source` to
   * `destination`: from the weightless ledger when the id carries the "wl_"
   * prefix, from the primary ledger otherwise.
   */
  method MoveCoins(source: Actor, destination: Actor, itemId: string, quantity: int) returns (moved: Option<int>)
    requires source != destination && source.Valid() && destination.Valid()
    requires CoinKey(itemId) in Denominations
    modifies source`currency, source`altCurrency, destination`currency, destination`altCurrency
    ensures source.Valid() && destination.Valid()
    ensures IsWeightless(itemId) ==>
              var m := TransferCoins(old(source.altCurrency), old(destination.altCurrency), CoinKey(itemId), quantity);
              source.altCurrency == m.src && destination.altCurrency == m.dst && moved == m.moved
              && source.currency == old(source.currency) && destination.currency == old(destination.currency)
    ensures !IsWeightless(itemId) ==>
              var m := TransferCoins(old(source.currency), old(destination.currency), CoinKey(itemId), quantity);
              source.currency == m.src && destination.currency == m.dst && moved == m.moved
              && source.altCurrency == old(source.altCurrency) && destination.altCurrency == old(destination.altCurrency)
  {
    var key := CoinKey(itemId);
    if IsWeightless(itemId) {
      var m := TransferCoins(source.altCurrency, destination.altCurrency, key, quantity);
      source.altCurrency, destination.altCurrency := m.src, m.dst;
      moved := m.moved;
    } else {
      var m := TransferCoins(source.currency, destination.currency, key, quantity);
      source.currency, destination.currency := m.src, m.dst;
      moved := m.moved;
    }
  }

  /** What the coin move does as written: every move of a non-zero amount fails before any update. */
  datatype CoinOutcome = NoCoins | UpdateFailed | CoinsMoved(src: Ledger, dst: Ledger, q: int)

  /**
   * The coin move as written: the update object is built without the
   * ledger the assignment goes to, so a non-zero move throws before either
   * actor is updated.
   */
  function MoveCoinsAsWritten(src: Ledger, dst: Ledger, key: string, quantity: int): (r: CoinOutcome)
    requires key in src && key in dst
    ensures r.NoCoins? <==> Min(src[key], quantity) == 0
    ensures !r.CoinsMoved?
  {
    if Min(src[key], quantity) == 0 then NoCoins else UpdateFailed
  }

  /** Looting five gold pieces' worth of three: as written it fails; the intended move hands over three. */
  lemma MoveCoinsCounterexample()
    ensures MoveCoinsAsWritten(map["gp" := 5], map["gp" := 0], "gp", 3) == UpdateFailed
    ensures TransferCoins(map["gp" := 5], map["gp" := 0], "gp", 3) == CoinMove(map["gp" := 2], map["gp" := 3], Some(3))
  {
  }

  // ---------------------------------------------------------------------
  // Looting and giving

  /** Ids that name coins rather than items: a two-letter denomination or a "wl_" id. */
  predicate IsCoinId(itemId: string)
  {
    |itemId| == 2 || IsWeightless(itemId)
  }

  datatype Looted = CoinsLooted(coins: int) | ItemLooted(moved: Moved) | NothingLooted

  /**
   * A looter takes coins or an item from a container: a coin id moves coins,
   * any other id moves the item.
   */
  method LootItem(container: Actor, looter: Actor, itemId: string, quantity: int,
                  removeEmptyStacks: bool, newId: string) returns (r: Looted)
    requires container != looter && container.Valid() && looter.Valid()
    requires IsCoinId(itemId) ==> CoinKey(itemId) in Denominations
    requires !HasId(looter.items, newId)
    modifies container`items, container`currency, container`altCurrency
    modifies looter`items, looter`currency, looter`altCurrency
    ensures container.Valid() && looter.Valid()
    ensures IsCoinId(itemId) && IsWeightless(itemId) ==>
              var m := TransferCoins(old(container.altCurrency), old(looter.altCurrency), CoinKey(itemId), quantity);
              container.altCurrency == m.src && looter.altCurrency == m.dst
              && container.currency == old(container.currency) && looter.currency == old(looter.currency)
              && r == (if m.moved.Some? then CoinsLooted(m.moved.value) else NothingLooted)
    ensures IsCoinId(itemId) && !IsWeightless(itemId) ==>
              var m := TransferCoins(old(container.currency), old(looter.currency), CoinKey(itemId), quantity);
              container.currency == m.src && looter.currency == m.dst
              && container.altCurrency == old(container.altCurrency) && looter.altCurrency == old(looter.altCurrency)
              && r == (if m.moved.Some? then CoinsLooted(m.moved.value) else NothingLooted)
    ensures IsCoinId(itemId) ==> container.items == old(container.items) && looter.items == old(looter.items)
    ensures !IsCoinId(itemId) ==>
              container.currency == old(container.currency) && container.altCurrency == old(container.altCurrency)
              && looter.currency == old(looter.currency) && looter.altCurrency == old(looter.altCurrency)
    ensures !IsCoinId(itemId) && !HasId(old(container.items), itemId) ==>
              r == NothingLooted && container.items == old(container.items) && looter.items == old(looter.items)
    ensures !IsCoinId(itemId) && HasId(old(container.items), itemId) ==>
              var k := Find(old(container.items), itemId).value;
              var item := old(container.items)[k];
              var q := MovedQuantity(item.quantity, Some(quantity));
              r == ItemLooted(Moved(Copy(item, q), q))
              && container.items == Remaining(old(container.items), k, q, removeEmptyStacks)
              && looter.items == old(looter.items) + [Copy(item, q).(id := newId)]
  {
    if IsCoinId(itemId) {
      var moved := MoveCoins(container, looter, itemId, quantity);
      r := if moved.Some? then CoinsLooted(moved.value) else NothingLooted;
    } else {
      var moved := MoveItem(container, looter, itemId, Some(quantity), removeEmptyStacks, newId);
      r := if moved.Some? then ItemLooted(moved.value) else NothingLooted;
    }
  }

  /**
   * An actor gives an item to another: nothing happens for a quantity that
   * is not positive or when either actor cannot be found; otherwise the
   * item moves as in MoveItem.
   */
  method GiveItem(giver: Actor?, receiver: Actor?, itemId: string, quantity: int,
                  removeEmptyStacks: bool, newId: string) returns (moved: Option<Moved>)
    requires giver != null && receiver != null ==>
               giver != receiver && giver.Valid() && receiver.Valid() && !HasId(receiver.items, newId)
    modifies giver, receiver
    ensures giver != null ==>
              giver.currency == old(giver.currency) && giver.altCurrency == old(giver.altCurrency)
              && giver.ownership == old(giver.ownership) && giver.priceModifier == old(giver.priceModifier)
              && giver.sheetType == old(giver.sheetType) && giver.visible == old(giver.visible)
    ensures receiver != null ==>
              receiver.currency == old(receiver.currency) && receiver.altCurrency == old(receiver.altCurrency)
              && receiver.ownership == old(receiver.ownership) && receiver.priceModifier == old(receiver.priceModifier)
              && receiver.sheetType == old(receiver.sheetType) && receiver.visible == old(receiver.visible)
    ensures quantity <= 0 || giver == null || receiver == null ==>
              moved.None? && (giver != null ==> giver.items == old(giver.items))
              && (receiver != null ==> receiver.items == old(receiver.items))
    ensures quantity > 0 && giver != null && receiver != null ==>
              giver.Valid() && receiver.Valid()
              && (!HasId(old(giver.items), itemId) ==>
                    moved.None? && giver.items == old(giver.items) && receiver.items == old(receiver.items))
              && (HasId(old(giver.items), itemId) ==>
                    var k := Find(old(giver.items), itemId).value;
                    var item := old(giver.items)[k];
                    var q := Min(item.quantity, quantity);
                    moved == Some(Moved(Copy(item, q), q))
                    && giver.items == Remaining(old(giver.items), k, q, removeEmptyStacks)
                    && receiver.items == old(receiver.items) + [Copy(item, q).(id := newId)])
  {
    if quantity <= 0 {
      return None;
    }
    if giver != null && receiver != null {
      moved := MoveItem(giver, receiver, itemId, Some(quantity), removeEmptyStacks, newId);
    } else {
      moved := None;
    }
  }
}
