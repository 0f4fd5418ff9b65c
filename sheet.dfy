/**
 * The loot sheet itself: how an item line is labelled, what a viewer is
 * shown of an item, how the sheet sorts the actor's items into its lists,
 * the totals and warnings it displays, how it cycles and batch-sets the
 * players' permission levels, and how it splits its coins among the
 * players who own it.
 */
module Sheet {
  import opened Money
  import opened Items
  import opened Inventory

  // ----- Item labels -----

  function DigitChar(d: nat): char
    requires d < 10
  {
    (('0' as int) + d) as char
  }

  predicate IsDigit(c: char)
  {
    '0' <= c <= '9'
  }

  function DigitValue(c: char): nat
    requires IsDigit(c)
  {
    (c as int) - ('0' as int)
  }

  /** The decimal digits of a natural number, most significant first, with no leading zero. */
  function Digits(n: nat): (s: string)
    ensures |s| >= 1
    ensures forall k :: 0 <= k < |s| ==> IsDigit(s[k])
    ensures n > 0 ==> s[0] != '0'
  {
    if n < 10 then [DigitChar(n)] else Digits(n / 10) + [DigitChar(n % 10)]
  }

  /** The number a string of decimal digits denotes. */
  function ParseDigits(s: string): nat
    requires forall k :: 0 <= k < |s| ==> IsDigit(s[k])
  {
    if s == [] then 0 else 10 * ParseDigits(s[..|s| - 1]) + DigitValue(s[|s| - 1])
  }

  /** Reading the digits back gives the number. */
  lemma {:induction false} DigitsRoundTrip(n: nat)
    ensures ParseDigits(Digits(n)) == n
  {
    if n >= 10 {
      DigitsRoundTrip(n / 10);
      var s := Digits(n);
      assert s[..|s| - 1] == Digits(n / 10);
    }
  }

  const InfinityPrefix := "(∞) "

  /**
   * The label of an item line: "(∞) name" for an infinite stock,
   * "(q) name" for a stack of more than one, the bare name otherwise.
   */
  function LootsheetName(name: string, quantity: int, infinite: bool): (r: string)
    ensures |r| >= |name| && r[|r| - |name|..] == name
    ensures r == name <==> !infinite && quantity <= 1
  {
    if infinite then InfinityPrefix + name
    else if quantity > 1 then "(" + Digits(quantity) + ") " + name
    else name
  }

  /**
   * A stack of more than one is labelled "(", then digits that read back as
   * the quantity, then ") " and the name; an infinite stock carries the
   * infinity prefix whatever its quantity.
   */
  lemma LabelShowsCount(name: string, quantity: int)
    requires quantity > 1
    ensures var r := LootsheetName(name, quantity, false);
            var m := |r| - |name|;
            m >= 4 && r[0] == '(' && r[m - 2..m] == ") "
            && (forall k :: 1 <= k < m - 2 ==> IsDigit(r[k]))
            && ParseDigits(r[1..m - 2]) == quantity
  {
    var r := LootsheetName(name, quantity, false);
    var ds := Digits(quantity);
    var m := |r| - |name|;
    assert r == "(" + ds + ") " + name;
    assert m == |ds| + 3;
    assert r[1..m - 2] == ds;
    assert forall k :: 1 <= k < m - 2 ==> r[k] == ds[k - 1];
    DigitsRoundTrip(quantity);
  }

  /** An infinite item is labelled "(∞) " and its name, whatever its quantity. */
  lemma LabelShowsInfinity(name: string, quantity: int)
    ensures LootsheetName(name, quantity, true) == InfinityPrefix + name
    ensures LootsheetName(name, quantity, true)[..|InfinityPrefix|] == InfinityPrefix
  {
  }

  // ----- What a viewer is shown -----

  /** The price a viewer is shown: the real price to the game master or for an identified item. */
  function LootPrice(item: Item, isGM: bool): (r: real)
    ensures isGM ==> r == item.price
    ensures !isGM ==> r == ItemCost(Some(item))
  {
    if isGM || item.identified then item.price else ItemCost(Some(item))
  }

  /** The name a viewer is shown: the real name to the game master or for an identified item. */
  function LootName(item: Item, isGM: bool): (r: string)
    ensures isGM ==> r == item.name
    ensures !isGM ==> r == ItemName(Some(item))
  {
    if isGM || item.identified then item.name else ItemName(Some(item))
  }

  // ----- Sorting the items into the sheet's lists -----

  /**
   * An item as the sheet holds it: the item, its stack size and remaining
   * charges as the item data records them (either may be missing), whether
   * it is a charged item, and its weight in the viewer's units.
   */
  datatype SheetItem = SheetItem(item: Item, dataQuantity: Option<int>, uses: Option<int>, isCharged: bool, weight: real)

  /** An item as a list shows it: with the price and name the viewer sees. */
  datatype Shown = Shown(entry: SheetItem, showPrice: real, showName: string)

  datatype Features = Features(weapons: seq<Shown>, equipment: seq<Shown>, consumables: seq<Shown>,
                               loot: seq<Shown>, containers: seq<Shown>)

  /** The lists filled in, or the failure a tool item causes: there is no list for tools. */
  datatype Prepared = Prepared(features: Features) | ToolFailure

  const NoFeatures := Features([], [], [], [], [])

  /** An item as shown: an infinite stock is shown as a stack of one. */
  function Show(e: SheetItem, isGM: bool): (s: Shown)
    ensures s.entry.item.kind == e.item.kind && s.entry.item.flags == e.item.flags
    ensures IsInfinite(e.item) ==> s.entry.item.quantity == 1
    ensures !IsInfinite(e.item) ==> s.entry == e
  {
    var item := if IsInfinite(e.item) then e.item.(quantity := 1) else e.item;
    Shown(e.(item := item), LootPrice(e.item, isGM), LootName(e.item, isGM))
  }

  /** The items the viewer sees, in order: all of them for the game master, the non-secret ones for a player. */
  function Visible(items: seq<SheetItem>, isGM: bool): seq<Shown>
  {
    if items == [] then []
    else
      var last := items[|items| - 1];
      Visible(items[..|items| - 1], isGM) + (if !isGM && IsSecret(last.item) then [] else [Show(last, isGM)])
  }

  /** The shown items of one type, in order. */
  function OfKind(s: seq<Shown>, kind: ItemType): seq<Shown>
  {
    if s == [] then []
    else OfKind(s[..|s| - 1], kind) + (if s[|s| - 1].entry.item.kind == kind then [s[|s| - 1]] else [])
  }

  predicate HasTool(s: seq<Shown>)
  {
    exists k :: 0 <= k < |s| && s[k].entry.item.kind == Tool
  }

  /**
   * Sorts the actor's items into the sheet's lists. An actor the viewer
   * cannot see gets empty lists; a player does not see secret items; a
   * visible tool stops the preparation, because there is no list to put
   * it in; items of any other unlisted type are passed over.
   */
  method PrepareItems(visible: bool, isGM: bool, items: seq<SheetItem>) returns (r: Prepared)
    ensures !visible ==> r == Prepared(NoFeatures)
    ensures visible && HasTool(Visible(items, isGM)) ==> r == ToolFailure
    ensures visible && !HasTool(Visible(items, isGM)) ==> r == Prepared(Sorted(Visible(items, isGM)))
  {
    if !visible {
      return Prepared(NoFeatures);
    }
    var f := NoFeatures;
    var i := 0;
    while i < |items|
      invariant 0 <= i <= |items|
      invariant !HasTool(Visible(items[..i], isGM))
      invariant f == Sorted(Visible(items[..i], isGM))
    {
      var e := items[i];
      ghost var before := Visible(items[..i], isGM);
      VisibleStep(items, i, isGM);
      if !isGM && IsSecret(e.item) {
        i := i + 1;
        continue;
      }
      var s := Show(e, isGM);
      if e.item.kind == Tool {
        ToolStops(items, i, isGM, before, s);
        return ToolFailure;
      }
      SortedStep(before, s);
      if e.item.kind == Weapon {
        f := f.(weapons := f.weapons + [s]);
      } else if e.item.kind == Equipment {
        f := f.(equipment := f.equipment + [s]);
      } else if e.item.kind == Consumable {
        f := f.(consumables := f.consumables + [s]);
      } else if e.item.kind == Container {
        f := f.(containers := f.containers + [s]);
      } else if e.item.kind == Loot {
        f := f.(loot := f.loot + [s]);
      }
      i := i + 1;
    }
    assert items[..i] == items;
    return Prepared(f);
  }

  /** The five lists of the sheet, each holding the shown items of its type. */
  function Sorted(v: seq<Shown>): Features
  {
    Features(OfKind(v, Weapon), OfKind(v, Equipment), OfKind(v, Consumable), OfKind(v, Loot), OfKind(v, Container))
  }

  /** Adds a shown item to the list of its type, if the sheet has one. */
  function Place(f: Features, s: Shown): Features
  {
    match s.entry.item.kind
    case Weapon => f.(weapons := f.weapons + [s])
    case Equipment => f.(equipment := f.equipment + [s])
    case Consumable => f.(consumables := f.consumables + [s])
    case Container => f.(containers := f.containers + [s])
    case Loot => f.(loot := f.loot + [s])
    case _ => f
  }

  /** One more shown item that is not a tool lands in its own list, and no tool appears. */
  lemma SortedStep(before: seq<Shown>, s: Shown)
    requires s.entry.item.kind != Tool
    ensures Sorted(before + [s]) == Place(Sorted(before), s)
    ensures HasTool(before + [s]) <==> HasTool(before)
  {
    OfKindStep(before, s);
  }

  /** A tool the viewer sees among the first i + 1 items is a tool in what it sees of them all. */
  lemma ToolStops(items: seq<SheetItem>, i: nat, isGM: bool, before: seq<Shown>, s: Shown)
    requires i < |items| && before == Visible(items[..i], isGM)
    requires s.entry.item.kind == Tool && Visible(items[..i + 1], isGM) == before + [s]
    ensures HasTool(Visible(items, isGM))
  {
    VisiblePrefix(items, i + 1, isGM);
    assert Visible(items, isGM)[|before|] == s;
  }

  /** One more item adds its shown form to what the viewer sees, unless it is hidden from a player. */
  lemma VisibleStep(items: seq<SheetItem>, i: nat, isGM: bool)
    requires i < |items|
    ensures !isGM && IsSecret(items[i].item) ==> Visible(items[..i + 1], isGM) == Visible(items[..i], isGM)
    ensures !(!isGM && IsSecret(items[i].item)) ==>
              Visible(items[..i + 1], isGM) == Visible(items[..i], isGM) + [Show(items[i], isGM)]
  {
    assert items[..i + 1][..i] == items[..i];
    assert items[..i + 1][i] == items[i];
  }

  /** One more shown item joins the list of its type only, and is a tool exactly when its type is. */
  lemma OfKindStep(before: seq<Shown>, s: Shown)
    ensures forall kind :: OfKind(before + [s], kind)
              == OfKind(before, kind) + (if s.entry.item.kind == kind then [s] else [])
    ensures HasTool(before + [s]) <==> HasTool(before) || s.entry.item.kind == Tool
  {
    var after := before + [s];
    assert after[..|after| - 1] == before;
    assert after[|after| - 1] == s;
    if HasTool(after) && !HasTool(before) {
      var k :| 0 <= k < |after| && after[k].entry.item.kind == Tool;
      assert k == |before|;
    }
    if HasTool(before) {
      var k :| 0 <= k < |before| && before[k].entry.item.kind == Tool;
      assert after[k] == before[k];
    }
  }

  /** What the viewer sees of the first n items is a prefix of what it sees of all of them. */
  lemma {:induction false} VisiblePrefix(items: seq<SheetItem>, n: nat, isGM: bool)
    requires n <= |items|
    ensures Visible(items[..n], isGM) <= Visible(items, isGM)
    decreases |items| - n
  {
    if n < |items| {
      VisiblePrefix(items, n + 1, isGM);
      assert items[..n + 1][..n] == items[..n];
    } else {
      assert items[..n] == items;
    }
  }

  /** A player is never shown a secret item, and every infinite stock is shown as one unit. */
  lemma {:induction false} VisibleSound(items: seq<SheetItem>, isGM: bool)
    ensures forall s :: s in Visible(items, isGM) ==> !isGM ==> !IsSecret(s.entry.item)
    ensures forall s :: s in Visible(items, isGM) ==> IsInfinite(s.entry.item) ==> s.entry.item.quantity == 1
  {
    if items != [] {
      VisibleSound(items[..|items| - 1], isGM);
    }
  }

  /** The game master sees every item. */
  lemma {:induction false} MasterSeesAll(items: seq<SheetItem>)
    ensures |Visible(items, true)| == |items|
  {
    if items != [] {
      MasterSeesAll(items[..|items| - 1]);
    }
  }

  /** A list holds exactly the shown items of its type, in their order. */
  lemma {:induction false} OfKindSound(s: seq<Shown>, kind: ItemType)
    ensures forall x :: x in OfKind(s, kind) ==> x in s && x.entry.item.kind == kind
    ensures forall k :: 0 <= k < |s| && s[k].entry.item.kind == kind ==> s[k] in OfKind(s, kind)
  {
    if s != [] {
      OfKindSound(s[..|s| - 1], kind);
      assert forall k :: 0 <= k < |s| - 1 ==> s[k] == s[..|s| - 1][k];
    }
  }

  // ----- Totals and warnings -----

  /** The stack size the totals count: one when the item data records none. */
  function Units(e: SheetItem): int
  {
    if e.dataQuantity.Some? then e.dataQuantity.value else 1
  }

  function Charges(e: SheetItem): int
  {
    if e.uses.Some? then e.uses.value else 1
  }

  /** An item is shown as empty when no unit is left, or it is charged and no charge is left. */
  predicate IsEmpty(e: SheetItem)
  {
    Units(e) <= 0 || (e.isCharged && Charges(e) <= 0)
  }

  /** The sale ratio: the sheet's sale percentage, fifty when it is unset or zero, over a hundred. */
  function SaleRatio(saleValue: Option<real>): (r: real)
    ensures saleValue.None? ==> r == 0.5
    ensures saleValue.Some? && saleValue.value != 0.0 ==> r * 100.0 == saleValue.value
  {
    (if saleValue.None? || saleValue.value == 0.0 then 50.0 else saleValue.value) / 100.0
  }

  datatype Totals = Totals(items: int, weight: real, price: real, adjusted: real)

  function Plus(a: Totals, b: Totals): Totals
  {
    Totals(a.items + b.items, a.weight + b.weight, a.price + b.price, a.adjusted + b.adjusted)
  }

  /** What one item adds to the totals. */
  function RowTotals(e: SheetItem, ratio: real): Totals
  {
    var q := Units(e);
    Totals(q, q as real * e.weight, q as real * ItemCost(Some(e.item)), q as real * SaleValue(e.item, ratio))
  }

  /** The totals over a sequence of shown items. */
  function TotalsOf(rows: seq<Shown>, ratio: real): Totals
  {
    if rows == [] then Totals(0, 0.0, 0.0, 0.0)
    else Plus(TotalsOf(rows[..|rows| - 1], ratio), RowTotals(rows[|rows| - 1].entry, ratio))
  }

  /** The items of all lists, list after list. */
  function Rows(f: Features): seq<Shown>
  {
    f.weapons + f.equipment + f.consumables + f.loot + f.containers
  }

  /**
   * Goes through every list, marks each item empty or not, and adds up the
   * number of units, their weight, their price and their sale value at the
   * sheet's sale ratio.
   */
  method SheetTotals(f: Features, ratio: real) returns (t: Totals, empty: seq<bool>)
    ensures t == TotalsOf(Rows(f), ratio)
    ensures |empty| == |Rows(f)|
    ensures forall k :: 0 <= k < |empty| ==> (empty[k] <==> IsEmpty(Rows(f)[k].entry))
  {
    var rows := Rows(f);
    t := Totals(0, 0.0, 0.0, 0.0);
    empty := [];
    var k := 0;
    while k < |rows|
      invariant 0 <= k <= |rows|
      invariant t == TotalsOf(rows[..k], ratio)
      invariant |empty| == k
      invariant forall j :: 0 <= j < k ==> (empty[j] <==> IsEmpty(rows[j].entry))
    {
      var e := rows[k].entry;
      TotalsSnoc(rows, k, ratio);
      var q := Units(e);
      var charges := Charges(e);
      empty := empty + [q <= 0 || (e.isCharged && charges <= 0)];
      t := Plus(t, RowTotals(e, ratio));
      k := k + 1;
    }
    assert rows[..k] == rows;
  }

  lemma TotalsSnoc(rows: seq<Shown>, k: nat, ratio: real)
    requires k < |rows|
    ensures TotalsOf(rows[..k + 1], ratio) == Plus(TotalsOf(rows[..k], ratio), RowTotals(rows[k].entry, ratio))
  {
    assert rows[..k + 1][..k] == rows[..k];
    assert rows[..k + 1][k] == rows[k];
  }

  /** The totals of two runs of items add up, so the order of the lists does not matter. */
  lemma {:induction false} TotalsAppend(a: seq<Shown>, b: seq<Shown>, ratio: real)
    ensures TotalsOf(a + b, ratio) == Plus(TotalsOf(a, ratio), TotalsOf(b, ratio))
  {
    if b == [] {
      assert a + b == a;
    } else {
      assert (a + b)[..|a + b| - 1] == a + b[..|b| - 1];
      assert (a + b)[|a + b| - 1] == b[|b| - 1];
      var row := RowTotals(b[|b| - 1].entry, ratio);
      TotalsAppend(a, b[..|b| - 1], ratio);
      PlusAssociative(TotalsOf(a, ratio), TotalsOf(b[..|b| - 1], ratio), row);
    }
  }

  lemma PlusAssociative(x: Totals, y: Totals, z: Totals)
    ensures Plus(Plus(x, y), z) == Plus(x, Plus(y, z))
  {
  }

  /**
   * With no negative price and no negative stack, the adjusted price at a
   * sale ratio between zero and one is never negative and never above the
   * adjusted price at full ratio.
   */
  lemma {:induction false} AdjustedBelowFull(rows: seq<Shown>, ratio: real)
    requires 0.0 <= ratio <= 1.0
    requires forall k :: 0 <= k < |rows| ==> PricesNonNegative(rows[k].entry.item) && Units(rows[k].entry) >= 0
    ensures 0.0 <= TotalsOf(rows, ratio).adjusted <= TotalsOf(rows, 1.0).adjusted
  {
    if rows != [] {
      var init := rows[..|rows| - 1];
      var e := rows[|rows| - 1].entry;
      assert forall k :: 0 <= k < |init| ==> init[k] == rows[k];
      AdjustedBelowFull(init, ratio);
      RowBelowFull(e, ratio);
      TotalsLast(rows, ratio);
      TotalsLast(rows, 1.0);
      AddBounds(TotalsOf(init, ratio).adjusted, TotalsOf(init, 1.0).adjusted,
                RowTotals(e, ratio).adjusted, RowTotals(e, 1.0).adjusted);
    }
  }

  lemma TotalsLast(rows: seq<Shown>, ratio: real)
    requires rows != []
    ensures TotalsOf(rows, ratio).adjusted
         == TotalsOf(rows[..|rows| - 1], ratio).adjusted + RowTotals(rows[|rows| - 1].entry, ratio).adjusted
  {
  }

  /** One item's sale value at a ratio between zero and one lies between nothing and its value at full ratio. */
  lemma RowBelowFull(e: SheetItem, ratio: real)
    requires 0.0 <= ratio <= 1.0 && PricesNonNegative(e.item) && Units(e) >= 0
    ensures 0.0 <= RowTotals(e, ratio).adjusted <= RowTotals(e, 1.0).adjusted
  {
    SaleValueBounds(e.item, ratio);
    FullRatioSale(e.item);
    ScaleByUnits(Units(e), SaleValue(e.item, ratio), SaleValue(e.item, 1.0));
  }

  lemma AddBounds(a: real, b: real, x: real, y: real)
    requires 0.0 <= a <= b && 0.0 <= x <= y
    ensures 0.0 <= a + x <= b + y
  {
  }

  lemma ScaleByUnits(q: int, a: real, b: real)
    requires q >= 0 && 0.0 <= a <= b
    ensures 0.0 <= q as real * a <= q as real * b
  {
  }

  /** Math.ceil on reals. */
  function Ceil(x: real): (c: int)
    ensures x <= c as real < x + 1.0
  {
    -((-x).Floor)
  }

  /** What the sheet displays besides its lists. */
  datatype Summary = Summary(totalItems: int, totalWeight: int, totalPrice: real, adjustedPrice: real,
                             itemsWarning: bool, weightWarning: bool, saleValue: real, canAct: bool)

  /** The warning flag: raised unless the limit is unset (zero or less) or not exceeded. */
  function Warning(limit: real, total: real): (w: bool)
    ensures w <==> 0.0 < limit < total
  {
    !(limit <= 0.0 || limit >= total)
  }

  /**
   * The sheet's summary: the totals (the weight rounded up), a warning when
   * a set item or weight limit is exceeded, the sale percentage as shown
   * (never below zero) and whether the viewer may act on the sheet (it
   * holds the observer level, 2).
   */
  function Summarize(t: Totals, maxCapacity: Option<real>, maxLoad: Option<real>, saleValue: Option<real>,
                     ownership: map<string, int>, playerId: string): (s: Summary)
    ensures s.itemsWarning <==> maxCapacity.Some? && 0.0 < maxCapacity.value < t.items as real
    ensures s.weightWarning <==> maxLoad.Some? && 0.0 < maxLoad.value < t.weight
    ensures t.weight <= s.totalWeight as real < t.weight + 1.0
    ensures s.totalItems == t.items && s.totalPrice == t.price && s.adjustedPrice == t.adjusted
    ensures s.saleValue >= 0.0
    ensures s.saleValue == if SaleRatio(saleValue) < 0.0 then 0.0 else SaleRatio(saleValue) * 100.0
    ensures s.canAct <==> playerId in ownership && ownership[playerId] == 2
  {
    var capacity := if maxCapacity.Some? then maxCapacity.value else 0.0;
    var load := if maxLoad.Some? then maxLoad.value else 0.0;
    var sale := if saleValue.None? || saleValue.value == 0.0 then 50.0 else saleValue.value;
    Summary(t.items, Ceil(t.weight), t.price, t.adjusted,
            Warning(capacity, t.items as real), Warning(load, t.weight),
            if sale < 0.0 then 0.0 else sale,
            playerId in ownership && ownership[playerId] == 2)
  }

  // ----- Permissions -----

  /** The permission levels the sheet cycles through: none, limited, observer. */
  const Levels: seq<int> := [0, 1, 2]

  /** The first position of x in s, or -1 when it is absent. */
  function IndexOf(s: seq<int>, x: int): (r: int)
    ensures r == -1 <==> x !in s
    ensures r != -1 ==> 0 <= r < |s| && s[r] == x && x !in s[..r]
  {
    if s == [] then -1
    else if s[0] == x then 0
    else
      var rest := IndexOf(s[1..], x);
      assert s[1..][..if rest == -1 then 0 else rest] == s[1..if rest == -1 then 1 else rest + 1];
      if rest == -1 then -1 else rest + 1
  }

  /** The level after a click: the next one in the cycle, none after observer or after an unknown level. */
  function NextLevel(level: int): (r: int)
    ensures r in Levels
    ensures level in Levels ==> r == (level + 1) % 3
    ensures level !in Levels ==> r == 0
  {
    var idx := IndexOf(Levels, level);
    Levels[if idx == |Levels| - 1 then 0 else idx + 1]
  }

  /** Three clicks bring a known level back. */
  lemma CycleReturns(level: int)
    requires level in Levels
    ensures NextLevel(NextLevel(NextLevel(level))) == level
  {
  }

  /** Advances one player's level on the sheet; every other entry stays. */
  method CyclePermission(sheet: Actor, playerId: string, level: int)
    modifies sheet`ownership
    ensures sheet.ownership == old(sheet.ownership)[playerId := NextLevel(level)]
  {
    var permissions := sheet.ownership;
    permissions := permissions[playerId := NextLevel(level)];
    sheet.ownership := permissions;
  }

  /** A user of the game: its id, whether it is a game master, its role and its character's id if any. */
  datatype User = User(id: string, isGM: bool, role: int, character: Option<string>)

  /** Some user among the first n that is not a game master has the id. */
  predicate IsPlayer(users: seq<User>, n: nat, id: string)
    requires n <= |users|
  {
    exists i :: 0 <= i < n && !users[i].isGM && users[i].id == id
  }

  /**
   * The permissions after a batch change: every player (user who is not a
   * game master) holds the new level, every other entry is kept, and no
   * other key appears.
   */
  ghost predicate BatchSet(before: map<string, int>, after: map<string, int>, users: seq<User>, newLevel: int)
  {
    (forall k :: k in after <==> k in before || IsPlayer(users, |users|, k))
    && (forall k :: k in after && IsPlayer(users, |users|, k) ==> after[k] == newLevel)
    && (forall k :: k in after && !IsPlayer(users, |users|, k) ==> after[k] == before[k])
  }

  /** Sets every player's level to the new level, one user after the other. */
  method BatchPermissions(ownership: map<string, int>, users: seq<User>, newLevel: int)
    returns (permissions: map<string, int>)
    ensures BatchSet(ownership, permissions, users, newLevel)
  {
    permissions := ownership;
    var i := 0;
    while i < |users|
      invariant 0 <= i <= |users|
      invariant forall k :: k in permissions <==> k in ownership || IsPlayer(users, i, k)
      invariant forall k :: k in permissions && IsPlayer(users, i, k) ==> permissions[k] == newLevel
      invariant forall k :: k in permissions && !IsPlayer(users, i, k) ==> permissions[k] == ownership[k]
    {
      var u := users[i];
      if !u.isGM {
        permissions := permissions[u.id := newLevel];
      }
      forall k
        ensures IsPlayer(users, i + 1, k) <==> IsPlayer(users, i, k) || (!u.isGM && u.id == k)
      {
        if IsPlayer(users, i + 1, k) && !IsPlayer(users, i, k) {
          var j :| 0 <= j < i + 1 && !users[j].isGM && users[j].id == k;
          assert j == i;
        }
        if IsPlayer(users, i, k) {
          var j :| 0 <= j < i && !users[j].isGM && users[j].id == k;
          assert 0 <= j < i + 1;
        }
        if !u.isGM && u.id == k {
          assert 0 <= i < i + 1 && !users[i].isGM && users[i].id == k;
        }
      }
      i := i + 1;
    }
  }

  /** Applies a batch change to the sheet's ownership. */
  method OnBatchPermissionChange(sheet: Actor, users: seq<User>, newLevel: int)
    modifies sheet`ownership
    ensures BatchSet(old(sheet.ownership), sheet.ownership, users, newLevel)
  {
    var permissions := BatchPermissions(sheet.ownership, users, newLevel);
    sheet.ownership := permissions;
  }

  /** Repeating a batch change changes nothing more. */
  lemma BatchIdempotent(before: map<string, int>, once: map<string, int>, twice: map<string, int>,
                        users: seq<User>, newLevel: int)
    requires BatchSet(before, once, users, newLevel) && BatchSet(once, twice, users, newLevel)
    ensures twice == once
  {
    assert twice.Keys == once.Keys;
  }

  /** A game master's entry is never changed by a batch change. */
  lemma BatchKeepsMasters(before: map<string, int>, after: map<string, int>, users: seq<User>, newLevel: int,
                          master: User)
    requires BatchSet(before, after, users, newLevel)
    requires master in users && master.isGM && master.id in before
    requires forall i :: 0 <= i < |users| && users[i].id == master.id ==> users[i] == master
    ensures after[master.id] == before[master.id]
  {
  }

  // ----- Splitting the coins -----

  /** Whether the ownership key names a player whose character takes a share of the coins. */
  predicate Eligible(k: string, ownership: map<string, int>, users: map<string, User>, actors: map<string, Actor>)
  {
    k != "default" && k in ownership && ownership[k] == 2 && k in users
    && users[k].character.Some? && users[k].character.value in actors
    && (users[k].role == 1 || users[k].role == 2)
  }

  function CharacterOf(k: string, users: map<string, User>, actors: map<string, Actor>): Actor
    requires k in users && users[k].character.Some? && users[k].character.value in actors
  {
    actors[users[k].character.value]
  }

  /** The characters of the eligible owners, in the order of the ownership keys. */
  function Owners(order: seq<string>, ownership: map<string, int>, users: map<string, User>,
                  actors: map<string, Actor>): (r: seq<Actor>)
    ensures forall i :: 0 <= i < |r| ==> r[i] in actors.Values
  {
    if order == [] then []
    else
      (if Eligible(order[0], ownership, users, actors) then [CharacterOf(order[0], users, actors)] else [])
      + Owners(order[1..], ownership, users, actors)
  }

  /** Every owner found is the character of an eligible key. */
  lemma {:induction false} OwnerSource(order: seq<string>, ownership: map<string, int>, users: map<string, User>,
                                       actors: map<string, Actor>, j: nat) returns (k: string)
    requires j < |Owners(order, ownership, users, actors)|
    ensures k in order && Eligible(k, ownership, users, actors)
    ensures CharacterOf(k, users, actors) == Owners(order, ownership, users, actors)[j]
  {
    var rest := Owners(order[1..], ownership, users, actors);
    if Eligible(order[0], ownership, users, actors) {
      if j == 0 {
        return order[0];
      }
      k := OwnerSource(order[1..], ownership, users, actors, j - 1);
    } else {
      k := OwnerSource(order[1..], ownership, users, actors, j);
    }
  }

  /** Every eligible key contributes its character. */
  lemma {:induction false} OwnerFound(order: seq<string>, ownership: map<string, int>, users: map<string, User>,
                                      actors: map<string, Actor>, k: string)
    requires k in order && Eligible(k, ownership, users, actors)
    ensures CharacterOf(k, users, actors) in Owners(order, ownership, users, actors)
  {
    if order[0] != k {
      OwnerFound(order[1..], ownership, users, actors, k);
    }
  }

  /** Whether the actor is the character of an eligible ownership key. */
  ghost predicate OfEligibleKey(a: Actor, ownership: map<string, int>, users: map<string, User>, actors: map<string, Actor>)
  {
    exists k :: Eligible(k, ownership, users, actors) && CharacterOf(k, users, actors) == a
  }

  /** When the order lists every ownership key, the owners are exactly the characters of the eligible keys. */
  lemma OwnersExact(order: seq<string>, ownership: map<string, int>, users: map<string, User>,
                    actors: map<string, Actor>)
    requires forall k :: k in order <==> k in ownership
    ensures forall k :: Eligible(k, ownership, users, actors) ==>
              CharacterOf(k, users, actors) in Owners(order, ownership, users, actors)
    ensures forall i :: 0 <= i < |Owners(order, ownership, users, actors)| ==>
              OfEligibleKey(Owners(order, ownership, users, actors)[i], ownership, users, actors)
  {
    var owners := Owners(order, ownership, users, actors);
    forall k | Eligible(k, ownership, users, actors)
      ensures CharacterOf(k, users, actors) in owners
    {
      OwnerFound(order, ownership, users, actors, k);
    }
    forall i | 0 <= i < |owners|
      ensures OfEligibleKey(owners[i], ownership, users, actors)
    {
      var k := OwnerSource(order, ownership, users, actors, i);
    }
  }

  /** Collects the characters of the eligible owners, one ownership key after the other. */
  method SelectOwners(ownership: map<string, int>, order: seq<string>, users: map<string, User>,
                      actors: map<string, Actor>) returns (owners: seq<Actor>)
    ensures owners == Owners(order, ownership, users, actors)
  {
    owners := [];
    var i := 0;
    while i < |order|
      invariant 0 <= i <= |order|
      invariant owners + Owners(order[i..], ownership, users, actors) == Owners(order, ownership, users, actors)
    {
      assert order[i..][1..] == order[i + 1..];
      var u := order[i];
      if Eligible(u, ownership, users, actors) {
        owners := owners + [CharacterOf(u, users, actors)];
      }
      i := i + 1;
    }
  }

  /** Each owner's share of a pile of coins: the floor of the pile over the number of owners. */
  function Share(total: int, n: nat): int
  {
    if n > 0 then total / n else 0
  }

  /** The share is the floor of the exact quotient. */
  lemma ShareIsFloor(total: int, n: nat)
    requires n > 0
    ensures Share(total, n) == (total as real / n as real).Floor
  {
    var q := total / n;
    var m := total % n;
    assert total == q * n + m;
    var x := total as real / n as real;
    assert total as real == q as real * n as real + m as real;
    assert x == q as real + m as real / n as real;
    assert 0.0 <= m as real / n as real < 1.0;
  }

  /** What is left once every owner has taken its share is less than one coin per owner. */
  lemma ShareBounds(total: int, n: nat)
    requires n > 0
    ensures 0 <= total - Share(total, n) * n < n
  {
    assert total == (total / n) * n + total % n;
  }

  /**
   * Splits every pile of a ledger among n owners: the share of each owner
   * and what stays behind; with no owner nobody takes anything.
   */
  method SplitLedger(funds: Ledger, n: nat) returns (share: Ledger, remains: Ledger)
    ensures share == Shares(funds, n) && remains == Remains(funds, n)
    ensures share.Keys == funds.Keys && remains.Keys == funds.Keys
    ensures forall c :: c in funds ==> share[c] * n + remains[c] == funds[c]
    ensures n > 0 ==> forall c :: c in funds ==> 0 <= remains[c] < n
  {
    share := funds;
    remains := funds;
    var todo := funds.Keys;
    while todo != {}
      invariant todo <= funds.Keys
      invariant share.Keys == funds.Keys && remains.Keys == funds.Keys
      invariant forall c :: c in funds && c !in todo ==> share[c] == Share(funds[c], n)
      invariant forall c :: c in funds && c !in todo ==> share[c] * n + remains[c] == funds[c]
      invariant n > 0 ==> forall c :: c in funds && c !in todo ==> 0 <= remains[c] < n
      invariant forall c :: c in todo ==> remains[c] == funds[c]
      decreases todo
    {
      var c :| c in todo;
      var s := Share(funds[c], n);
      share := share[c := s];
      remains := remains[c := remains[c] - s * n];
      if n > 0 {
        ShareBounds(funds[c], n);
      }
      todo := todo - {c};
    }
    assert share == Shares(funds, n);
    assert remains == Remains(funds, n);
  }

  /** Every owner's share of every pile of a ledger. */
  function Shares(funds: Ledger, n: nat): (r: Ledger)
    ensures r.Keys == funds.Keys
    ensures forall c :: c in funds ==> r[c] == Share(funds[c], n)
  {
    map c | c in funds :: Share(funds[c], n)
  }

  /** What stays behind of every pile once the owners have taken their shares. */
  function Remains(funds: Ledger, n: nat): (r: Ledger)
    ensures r.Keys == funds.Keys
    ensures forall c :: c in funds ==> r[c] == funds[c] - Share(funds[c], n) * n
  {
    map c | c in funds :: funds[c] - Share(funds[c], n) * n
  }

  /**
   * Nothing is lost or made by a split: the shares of all owners and what
   * stays behind add up to the pile, and less than one coin per owner stays.
   */
  lemma SplitConserves(funds: Ledger, n: nat)
    requires n > 0
    ensures forall c :: c in funds ==>
              Shares(funds, n)[c] * n + Remains(funds, n)[c] == funds[c] && 0 <= Remains(funds, n)[c] < n
  {
    forall c | c in funds
      ensures 0 <= Remains(funds, n)[c] < n
    {
      ShareBounds(funds[c], n);
    }
  }

  /** A ledger with a share added to every pile the share holds a non-zero amount for. */
  function Credit(l: Ledger, share: Ledger): (r: Ledger)
    ensures r.Keys == l.Keys
    ensures forall c :: c in l && c in share ==> r[c] == l[c] + share[c]
  {
    map c | c in l :: if c in share && share[c] != 0 then l[c] + share[c] else l[c]
  }

  /** The owners' ledgers with the shares added; nothing else of an owner changes. */
  method CreditOwners(owners: seq<Actor>, split: Ledger, altSplit: Ledger)
    requires forall i, j :: 0 <= i < j < |owners| ==> owners[i] != owners[j]
    requires forall i :: 0 <= i < |owners| ==> owners[i].Valid()
    modifies set i | 0 <= i < |owners| :: owners[i]
    ensures forall i :: 0 <= i < |owners| ==>
              (owners[i].currency == Credit(old(owners[i].currency), split)
               && owners[i].altCurrency == Credit(old(owners[i].altCurrency), altSplit))
    ensures forall i :: 0 <= i < |owners| ==>
              (owners[i].Valid()
               && owners[i].items == old(owners[i].items) && owners[i].ownership == old(owners[i].ownership)
               && owners[i].priceModifier == old(owners[i].priceModifier)
               && owners[i].sheetType == old(owners[i].sheetType) && owners[i].visible == old(owners[i].visible))
  {
    var idx := 0;
    while idx < |owners|
      invariant 0 <= idx <= |owners|
      invariant forall i :: 0 <= i < idx ==>
                  (owners[i].currency == Credit(old(owners[i].currency), split)
                   && owners[i].altCurrency == Credit(old(owners[i].altCurrency), altSplit))
      invariant forall i :: idx <= i < |owners| ==>
                  (owners[i].currency == old(owners[i].currency) && owners[i].altCurrency == old(owners[i].altCurrency))
      invariant forall i :: 0 <= i < |owners| ==>
                  (owners[i].items == old(owners[i].items) && owners[i].ownership == old(owners[i].ownership)
                   && owners[i].priceModifier == old(owners[i].priceModifier)
                   && owners[i].sheetType == old(owners[i].sheetType) && owners[i].visible == old(owners[i].visible))
    {
      var u := owners[idx];
      assert forall i :: 0 <= i < |owners| && i != idx ==> owners[i] != u;
      CreditOne(u, split, altSplit);
      idx := idx + 1;
    }
  }

  method CreditOne(u: Actor, split: Ledger, altSplit: Ledger)
    modifies u`currency, u`altCurrency
    ensures u.currency == Credit(old(u.currency), split) && u.altCurrency == Credit(old(u.altCurrency), altSplit)
  {
    u.currency := Credit(u.currency, split);
    u.altCurrency := Credit(u.altCurrency, altSplit);
  }

  /**
   * Splits the sheet's coins, primary and weightless, among the given
   * owners: each gains the floor of every pile over the number of owners,
   * and the sheet keeps what is left.
   */
  method ShareOut(sheet: Actor, owners: seq<Actor>)
    requires |owners| > 0 && sheet.Valid() && sheet !in owners
    requires forall i :: 0 <= i < |owners| ==> owners[i].Valid()
    requires forall i, j :: 0 <= i < j < |owners| ==> owners[i] != owners[j]
    modifies sheet`currency, sheet`altCurrency, set i | 0 <= i < |owners| :: owners[i]
    ensures sheet.Valid()
    ensures sheet.currency == Remains(old(sheet.currency), |owners|)
            && sheet.altCurrency == Remains(old(sheet.altCurrency), |owners|)
    ensures forall i :: 0 <= i < |owners| ==>
              (owners[i].currency == Credit(old(owners[i].currency), Shares(old(sheet.currency), |owners|))
               && owners[i].altCurrency == Credit(old(owners[i].altCurrency), Shares(old(sheet.altCurrency), |owners|)))
    ensures forall i :: 0 <= i < |owners| ==>
              (owners[i].Valid()
               && owners[i].items == old(owners[i].items) && owners[i].ownership == old(owners[i].ownership)
               && owners[i].priceModifier == old(owners[i].priceModifier)
               && owners[i].sheetType == old(owners[i].sheetType) && owners[i].visible == old(owners[i].visible))
  {
    var n := |owners|;
    var split, remains := SplitLedger(sheet.currency, n);
    var altSplit, altRemains := SplitLedger(sheet.altCurrency, n);
    CreditOwners(owners, split, altSplit);
    sheet.currency := remains;
    sheet.altCurrency := altRemains;
  }

  /**
   * Splits the sheet's coins among the characters of its eligible owners,
   * as ShareOut does; without an eligible owner nothing changes.
   */
  method DistributeCoins(sheet: Actor, order: seq<string>, users: map<string, User>, actors: map<string, Actor>)
    returns (owners: seq<Actor>)
    requires sheet.Valid()
    requires forall a :: a in actors.Values ==> a.Valid()
    requires forall k :: k in order <==> k in sheet.ownership
    requires forall i, j :: 0 <= i < j < |order| ==> order[i] != order[j]
    requires sheet !in Owners(order, sheet.ownership, users, actors)
    requires var owners := Owners(order, sheet.ownership, users, actors);
             forall i, j :: 0 <= i < j < |owners| ==> owners[i] != owners[j]
    modifies sheet`currency, sheet`altCurrency, actors.Values
    ensures owners == Owners(order, old(sheet.ownership), users, actors)
    ensures forall k :: Eligible(k, old(sheet.ownership), users, actors) ==> CharacterOf(k, users, actors) in owners
    ensures forall i :: 0 <= i < |owners| ==> OfEligibleKey(owners[i], old(sheet.ownership), users, actors)
    ensures sheet.Valid() && sheet.items == old(sheet.items) && sheet.ownership == old(sheet.ownership)
    ensures sheet.priceModifier == old(sheet.priceModifier) && sheet.sheetType == old(sheet.sheetType)
            && sheet.visible == old(sheet.visible)
    ensures |owners| == 0 ==> sheet.currency == old(sheet.currency) && sheet.altCurrency == old(sheet.altCurrency)
    ensures |owners| > 0 ==> sheet.currency == Remains(old(sheet.currency), |owners|)
                             && sheet.altCurrency == Remains(old(sheet.altCurrency), |owners|)
    ensures forall i :: 0 <= i < |owners| ==>
              (owners[i].currency == Credit(old(owners[i].currency), Shares(old(sheet.currency), |owners|))
               && owners[i].altCurrency == Credit(old(owners[i].altCurrency), Shares(old(sheet.altCurrency), |owners|)))
    ensures forall i :: 0 <= i < |owners| ==>
              (owners[i].Valid()
               && owners[i].items == old(owners[i].items) && owners[i].ownership == old(owners[i].ownership)
               && owners[i].priceModifier == old(owners[i].priceModifier)
               && owners[i].sheetType == old(owners[i].sheetType) && owners[i].visible == old(owners[i].visible))
    ensures forall a :: a in actors.Values && a !in owners && a != sheet ==> unchanged(a)
  {
    owners := SelectOwners(sheet.ownership, order, users, actors);
    OwnersExact(order, sheet.ownership, users, actors);
    if |owners| == 0 {
      return;
    }
    ShareOut(sheet, owners);
  }
}
