/**
 * The persistent quote builder: an ordered list of quote items kept in page
 * state, changed in place by add / remove / quantity / clear, written to
 * browser storage after every change and projected into a badge, a footer,
 * "In Quote" marks on add buttons and the text handed to the quote form.
 */
module QuickQuote {
  import opened Wrappers
  import opened Strings
  import opened Seqs
  import opened QuoteJson

  const STORAGE_KEY := "bts_quote_items"
  const DEFAULT_IMAGE := "assets/images/products/stud-mount-1-1.jpg"

  /** What an add control hands to the builder. */
  datatype Product = Product(id: string, name: string, image: string, details: string)

  /** The data attributes of an add control; "" stands for an absent attribute (both are falsy). */
  datatype AddButton = AddButton(dataId: string, dataName: string, dataImage: string, dataDetails: string)

  /** JavaScript's `a || b` on strings. */
  function Or(a: string, b: string): string {
    if a != "" then a else b
  }

  /** The id an add control stands for: `data-id`, falling back to `data-name`. */
  function ButtonId(b: AddButton): string {
    Or(b.dataId, b.dataName)
  }

  /** The product a click on an add control adds, with the default image. */
  function ProductOf(b: AddButton): (p: Product)
    ensures p.id == (if b.dataId != "" then b.dataId else b.dataName) && p.name == b.dataName
    ensures p.image == (if b.dataImage != "" then b.dataImage else DEFAULT_IMAGE) && p.image != ""
    ensures p.details == b.dataDetails
  {
    Product(ButtonId(b), b.dataName, Or(b.dataImage, DEFAULT_IMAGE), Or(b.dataDetails, ""))
  }

  /** `items.find(item => item.id === id)`, as the index of the first match. */
  function FindIndex(items: seq<Item>, id: string): (r: Option<nat>)
    ensures r.Some? ==> r.value < |items| && items[r.value].id == id
    ensures r.Some? ==> forall j :: 0 <= j < r.value ==> items[j].id != id
    ensures r.None? ==> forall j :: 0 <= j < |items| ==> items[j].id != id
  {
    if items == [] then None
    else if items[0].id == id then Some(0)
    else
      var k :- FindIndex(items[1..], id);
      Some(k + 1)
  }

  /** `items.some(item => item.id === id)`. */
  predicate InQuote(items: seq<Item>, id: string) {
    exists i :: 0 <= i < |items| && items[i].id == id
  }

  predicate UniqueIds(items: seq<Item>) {
    forall i, j :: 0 <= i < j < |items| ==> items[i].id != items[j].id
  }

  predicate PositiveQuantities(items: seq<Item>) {
    forall i :: 0 <= i < |items| ==> items[i].quantity >= 1
  }

  /** The invariant the builder's own operations keep: one entry per id, each counted at least once. */
  predicate WellFormed(items: seq<Item>) {
    UniqueIds(items) && PositiveQuantities(items)
  }

  /** `addItem`: bump the first entry with the product's id, or append a new entry with quantity 1. */
  function Added(items: seq<Item>, p: Product): (r: seq<Item>)
    ensures FindIndex(items, p.id).Some? ==>
      var k := FindIndex(items, p.id).value;
      |r| == |items| && r[k] == items[k].(quantity := items[k].quantity + 1)
      && forall j :: 0 <= j < |items| && j != k ==> r[j] == items[j]
    ensures FindIndex(items, p.id).None? ==>
      |r| == |items| + 1 && r[..|items|] == items
      && r[|items|] == Item(p.id, p.name, p.image, p.details, 1)
  {
    match FindIndex(items, p.id)
    case Some(k) => items[k := items[k].(quantity := items[k].quantity + 1)]
    case None => items + [Item(p.id, p.name, p.image, p.details, 1)]
  }

  /** `removeItem`: every entry with the id goes, the rest stay in order. */
  function Removed(items: seq<Item>, id: string): (r: seq<Item>)
    ensures forall x :: x in r <==> x in items && x.id != id
    ensures !InQuote(r, id)
    ensures !InQuote(items, id) ==> r == items
  {
    var keep := (y: Item) => y.id != id;
    FilterMembers(items, keep);
    if InQuote(items, id) then Filter(items, keep)
    else
      FilterKeepsAll(items, keep);
      Filter(items, keep)
  }

  function Max(a: int, b: int): int {
    if a >= b then a else b
  }

  /** `updateQuantity`: the first entry with the id gets `max(1, quantity + delta)`. */
  function QuantityUpdated(items: seq<Item>, id: string, delta: int): (r: seq<Item>)
    ensures |r| == |items|
    ensures FindIndex(items, id).Some? ==>
      var k := FindIndex(items, id).value;
      r[k] == items[k].(quantity := Max(1, items[k].quantity + delta)) && r[k].quantity >= 1
      && forall j :: 0 <= j < |items| && j != k ==> r[j] == items[j]
    ensures FindIndex(items, id).None? ==> r == items
  {
    match FindIndex(items, id)
    case Some(k) => items[k := items[k].(quantity := Max(1, items[k].quantity + delta))]
    case None => items
  }

  lemma AddedWellFormed(items: seq<Item>, p: Product)
    requires WellFormed(items)
    ensures WellFormed(Added(items, p))
  {
    var r := Added(items, p);
    if FindIndex(items, p.id).None? {
      forall i, j | 0 <= i < j < |r| ensures r[i].id != r[j].id {
        if j == |items| {
          assert r[i] == items[i];
        } else {
          assert r[i] == items[i] && r[j] == items[j];
        }
      }
    }
  }

  lemma {:induction false} FilterKeepsUnique(items: seq<Item>, f: Item -> bool)
    requires UniqueIds(items)
    ensures UniqueIds(Filter(items, f))
  {
    if items != [] {
      FilterKeepsUnique(items[1..], f);
      var rest := Filter(items[1..], f);
      if f(items[0]) {
        forall x | x in rest ensures x.id != items[0].id {
          FilterMembership(items[1..], f, x);
        }
        assert Filter(items, f) == [items[0]] + rest;
      }
    }
  }

  lemma RemovedWellFormed(items: seq<Item>, id: string)
    requires WellFormed(items)
    ensures WellFormed(Removed(items, id))
  {
    FilterKeepsUnique(items, (y: Item) => y.id != id);
    var r := Removed(items, id);
    forall i | 0 <= i < |r| ensures r[i].quantity >= 1 {
      assert r[i] in items;
    }
  }

  lemma UpdatedWellFormed(items: seq<Item>, id: string, delta: int)
    requires WellFormed(items)
    ensures WellFormed(QuantityUpdated(items, id, delta))
  {
  }

  /** One user action on the builder. */
  datatype Action =
    | AddProduct(product: Product)
    | RemoveId(id: string)
    | ChangeQuantity(id: string, delta: int)
    | ClearAll(confirmed: bool)

  function Apply(items: seq<Item>, a: Action): seq<Item> {
    match a
    case AddProduct(p) => Added(items, p)
    case RemoveId(id) => Removed(items, id)
    case ChangeQuantity(id, delta) => QuantityUpdated(items, id, delta)
    case ClearAll(confirmed) => if confirmed then [] else items
  }

  function Run(items: seq<Item>, actions: seq<Action>): seq<Item>
    decreases |actions|
  {
    if actions == [] then items else Run(Apply(items, actions[0]), actions[1..])
  }

  /** Any sequence of actions keeps ids unique and every quantity at least 1. */
  lemma {:induction false} RunKeepsWellFormed(items: seq<Item>, actions: seq<Action>)
    requires WellFormed(items)
    ensures WellFormed(Run(items, actions))
    decreases |actions|
  {
    if actions != [] {
      match actions[0] {
        case AddProduct(p) => AddedWellFormed(items, p);
        case RemoveId(id) => RemovedWellFormed(items, id);
        case ChangeQuantity(id, delta) => UpdatedWellFormed(items, id, delta);
        case ClearAll(_) =>
      }
      RunKeepsWellFormed(Apply(items, actions[0]), actions[1..]);
    }
  }

  /** Removal and a confirmed clear are the only actions after which an id can be missing. */
  lemma OnlyRemoveAndClearDropIds(items: seq<Item>, a: Action, id: string)
    requires InQuote(items, id)
    requires !(a.RemoveId? && a.id == id) && !(a.ClearAll? && a.confirmed)
    ensures InQuote(Apply(items, a), id)
  {
    var i :| 0 <= i < |items| && items[i].id == id;
    var r := Apply(items, a);
    match a
    case AddProduct(p) =>
      assert r[i].id == id;
    case RemoveId(other) =>
      assert items[i] in r;
      var j :| 0 <= j < |r| && r[j] == items[i];
    case ChangeQuantity(_, _) =>
      assert r[i].id == id;
    case ClearAll(_) =>
  }

  lemma {:induction false} FilterUpdateRejected(s: seq<Item>, k: nat, y: Item, f: Item -> bool)
    requires k < |s| && !f(s[k]) && !f(y)
    ensures Filter(s[k := y], f) == Filter(s, f)
  {
    if k > 0 {
      FilterUpdateRejected(s[1..], k - 1, y, f);
      assert s[k := y][1..] == s[1..][k - 1 := y];
    }
  }

  /** Adding a product and then removing its id leaves what removing the id alone leaves. */
  lemma AddThenRemove(items: seq<Item>, p: Product)
    ensures Removed(Added(items, p), p.id) == Removed(items, p.id)
  {
    match FindIndex(items, p.id)
    case Some(k) =>
      FilterUpdateRejected(items, k, items[k].(quantity := items[k].quantity + 1), (y: Item) => y.id != p.id);
    case None =>
      FilterConcat(items, [Item(p.id, p.name, p.image, p.details, 1)], (y: Item) => y.id != p.id);
  }

  /** `removeItem` keeps relative order: removing from a concatenation removes from each part. */
  lemma RemoveKeepsOrder(a: seq<Item>, b: seq<Item>, id: string)
    ensures Removed(a + b, id) == Removed(a, id) + Removed(b, id)
  {
    FilterConcat(a, b, (y: Item) => y.id != id);
  }

  /** `quoteItems.reduce((sum, item) => sum + item.quantity, 0)`. */
  function Total(items: seq<Item>): int {
    if items == [] then 0 else items[0].quantity + Total(items[1..])
  }

  lemma {:induction false} TotalConcat(a: seq<Item>, b: seq<Item>)
    ensures Total(a + b) == Total(a) + Total(b)
  {
    if a == [] {
      assert a + b == b;
    } else {
      assert (a + b)[1..] == a[1..] + b;
      TotalConcat(a[1..], b);
    }
  }

  /** With every quantity at least 1, the total is at least the number of entries. */
  lemma {:induction false} TotalAtLeastLength(items: seq<Item>)
    requires PositiveQuantities(items)
    ensures Total(items) >= |items|
  {
    if items != [] {
      TotalAtLeastLength(items[1..]);
    }
  }

  lemma TotalAfterReplace(items: seq<Item>, k: nat, y: Item)
    requires k < |items|
    ensures Total(items[k := y]) == Total(items) - items[k].quantity + y.quantity
  {
    assert items == items[..k] + [items[k]] + items[k + 1..];
    assert items[k := y] == items[..k] + [y] + items[k + 1..];
    TotalConcat(items[..k] + [items[k]], items[k + 1..]);
    TotalConcat(items[..k], [items[k]]);
    TotalConcat(items[..k] + [y], items[k + 1..]);
    TotalConcat(items[..k], [y]);
  }

  /** Each add raises the total by exactly one. */
  lemma TotalAfterAdd(items: seq<Item>, p: Product)
    ensures Total(Added(items, p)) == Total(items) + 1
  {
    match FindIndex(items, p.id)
    case Some(k) =>
      TotalAfterReplace(items, k, items[k].(quantity := items[k].quantity + 1));
    case None =>
      TotalConcat(items, [Item(p.id, p.name, p.image, p.details, 1)]);
  }

  /** A quantity change moves the total by the change actually applied to that entry. */
  lemma TotalAfterUpdate(items: seq<Item>, id: string, delta: int)
    ensures FindIndex(items, id).Some? ==>
      var q := items[FindIndex(items, id).value].quantity;
      Total(QuantityUpdated(items, id, delta)) == Total(items) - q + Max(1, q + delta)
    ensures FindIndex(items, id).None? ==> Total(QuantityUpdated(items, id, delta)) == Total(items)
  {
    match FindIndex(items, id)
    case Some(k) =>
      TotalAfterReplace(items, k, items[k].(quantity := Max(1, items[k].quantity + delta)));
    case None =>
  }

  /** Removing an id takes away exactly the quantity held under that id. */
  lemma {:induction false} TotalAfterRemove(items: seq<Item>, id: string)
    ensures Total(Removed(items, id)) == Total(items) - Total(Filter(items, (y: Item) => y.id == id))
  {
    if items != [] {
      TotalAfterRemove(items[1..], id);
      var f := (y: Item) => y.id != id;
      var g := (y: Item) => y.id == id;
      assert Filter(items, f) == (if f(items[0]) then [items[0]] else []) + Filter(items[1..], f);
      assert Filter(items, g) == (if g(items[0]) then [items[0]] else []) + Filter(items[1..], g);
      TotalConcat(if f(items[0]) then [items[0]] else [], Filter(items[1..], f));
      TotalConcat(if g(items[0]) then [items[0]] else [], Filter(items[1..], g));
    }
  }

  /** The toggle badge: the total, or blank when it is not positive. */
  function Badge(items: seq<Item>): (r: string)
    ensures r == "" <==> Total(items) <= 0
    ensures r != "" ==> ParseInt(r) == Some(Total(items))
  {
    if Total(items) > 0 then
      ParseIntToString(Total(items));
      IntToString(Total(items))
    else ""
  }

  /** The footer summary text: `N item` with an `s` unless N is 1. */
  function SummaryLabel(n: int): (r: string)
    ensures n == 1 ==> r == "1 item"
    ensures n != 1 ==> |r| > 6 && r[|r| - 6..] == " items"
    ensures var w := if n == 1 then 5 else 6; |r| > w && ParseInt(r[..|r| - w]) == Some(n)
  {
    var digits := IntToString(n);
    ParseIntToString(n);
    if n == 1 then
      assert digits == "1";
      var r := digits + " item";
      assert r[..|r| - 5] == digits;
      r
    else
      var r := digits + " item" + "s";
      assert r[..|r| - 6] == digits;
      assert r[|r| - 6..] == " items";
      r
  }

  datatype FooterView = FooterHidden | FooterShown(total: int, summary: string)

  datatype ContentView = EmptyState | ItemRows(count: nat)

  function Footer(items: seq<Item>): FooterView {
    if |items| == 0 then FooterHidden else FooterShown(Total(items), SummaryLabel(Total(items)))
  }

  function Content(items: seq<Item>): ContentView {
    if |items| == 0 then EmptyState else ItemRows(|items|)
  }

  /** For lists the builder produces, the badge, footer and list are empty together. */
  lemma EmptyViewsAgree(items: seq<Item>)
    requires PositiveQuantities(items)
    ensures Badge(items) == "" <==> items == []
    ensures Footer(items).FooterHidden? <==> items == []
    ensures Content(items).EmptyState? <==> items == []
    ensures Total(items) == 0 <==> items == []
  {
    TotalAtLeastLength(items);
  }

  /** Whether an add control shows "In Quote". */
  predicate ButtonMarked(items: seq<Item>, b: AddButton) {
    InQuote(items, ButtonId(b))
  }

  /** Clicking an add control always leaves it marked. */
  lemma ClickMarksButton(items: seq<Item>, b: AddButton)
    ensures ButtonMarked(Added(items, ProductOf(b)), b)
  {
    var r := Added(items, ProductOf(b));
    match FindIndex(items, ButtonId(b))
    case Some(k) => assert r[k].id == ButtonId(b);
    case None => assert r[|items|].id == ButtonId(b);
  }

  /** The membership test agrees with the lookup used by add and update. */
  lemma InQuoteIffFound(items: seq<Item>, id: string)
    ensures InQuote(items, id) <==> FindIndex(items, id).Some?
  {
  }

  /** One entry of the submitted text: `<name> (Qty: <q>)`. */
  function ItemLine(x: Item): string {
    x.name + " (Qty: " + IntToString(x.quantity) + ")"
  }

  /** The `products` text handed to the quote request page. */
  function QuoteDetails(items: seq<Item>): string {
    Join(Map(items, ItemLine), ", ")
  }

  /** The text grows by one `, `-separated entry per item, in list order. */
  lemma QuoteDetailsAppend(items: seq<Item>, x: Item)
    ensures QuoteDetails(items + [x])
      == if items == [] then ItemLine(x) else QuoteDetails(items) + ", " + ItemLine(x)
  {
    assert Map(items + [x], ItemLine) == Map(items, ItemLine) + [ItemLine(x)];
    JoinAppend(Map(items, ItemLine), ItemLine(x), ", ");
  }

  lemma SubmitExample()
    ensures QuoteDetails([Item("smc-14", "SMC 1/4", DEFAULT_IMAGE, "", 2), Item("fmc", "FMC", DEFAULT_IMAGE, "", 1)])
      == "SMC 1/4 (Qty: 2), FMC (Qty: 1)"
  {
    var a := Item("smc-14", "SMC 1/4", DEFAULT_IMAGE, "", 2);
    var b := Item("fmc", "FMC", DEFAULT_IMAGE, "", 1);
    assert IntToString(2) == "2" && IntToString(1) == "1";
    QuoteDetailsAppend([a], b);
    assert [a] + [b] == [a, b];
  }

  /**
   * `loadFromStorage`: a missing or empty saved value keeps the current list,
   * a value that fails to parse empties it, otherwise the parsed list replaces it.
   */
  function Loaded(current: seq<Item>, storage: map<string, string>): (r: seq<Item>)
    ensures STORAGE_KEY !in storage ==> r == current
    ensures STORAGE_KEY in storage && storage[STORAGE_KEY] == "" ==> r == current
    ensures STORAGE_KEY in storage && storage[STORAGE_KEY] != "" && Decode(storage[STORAGE_KEY]).None? ==> r == []
    ensures STORAGE_KEY in storage && Decode(storage[STORAGE_KEY]).Some? ==> r == Decode(storage[STORAGE_KEY]).value
  {
    if STORAGE_KEY in storage && storage[STORAGE_KEY] != "" then
      match Decode(storage[STORAGE_KEY])
      case Some(xs) => xs
      case None => []
    else current
  }

  /** Page start-up after a visit that saved a list shows that list again. */
  lemma SavedListSurvivesReload(xs: seq<Item>)
    ensures Loaded([], map[STORAGE_KEY := Encode(xs)]) == xs
  {
    RoundTrip(xs);
  }

  /** Adding the same product twice gives one entry of quantity 2; removing it then empties the quote. */
  lemma AddTwiceThenRemove(p: Product)
    ensures Added(Added([], p), p) == [Item(p.id, p.name, p.image, p.details, 2)]
    ensures Removed(Added(Added([], p), p), p.id) == []
    ensures Footer(Removed(Added(Added([], p), p), p.id)).FooterHidden?
    ensures Badge(Removed(Added(Added([], p), p), p.id)) == ""
  {
    var once := Added([], p);
    assert once == [Item(p.id, p.name, p.image, p.details, 1)];
    assert FindIndex(once, p.id) == Some(0);
    var twice := Added(once, p);
    assert !InQuote(Removed(twice, p.id), p.id);
  }

  /** Loading right after saving a list gives back that list, whatever was in memory. */
  lemma LoadAfterSave(current: seq<Item>, storage: map<string, string>, xs: seq<Item>)
    ensures Loaded(current, storage[STORAGE_KEY := Encode(xs)]) == xs
  {
    RoundTrip(xs);
  }

  /**
   * The module state of the quote builder: the item list, the browser storage it
   * writes to, and whether the sidebar is open.
   */
  class QuoteBuilder {
    var items: seq<Item>
    var storage: map<string, string>
    var isOpen: bool

    /** The saved blob decodes to the in-memory list. */
    ghost predicate Persisted()
      reads this
    {
      STORAGE_KEY in storage && Decode(storage[STORAGE_KEY]) == Some(items)
    }

    /** Page start-up: an empty list, then `loadFromStorage`. */
    constructor(saved: map<string, string>)
      ensures items == Loaded([], saved) && storage == saved && !isOpen
    {
      items := [];
      storage := saved;
      isOpen := false;
      new;
      LoadFromStorage();
    }

    method LoadFromStorage()
      modifies this`items
      ensures items == Loaded(old(items), storage)
      ensures old(Persisted()) ==> items == old(items)
    {
      if STORAGE_KEY in storage && storage[STORAGE_KEY] != "" {
        var parsed := Decode(storage[STORAGE_KEY]);
        if parsed.Some? {
          items := parsed.value;
        } else {
          items := [];
        }
      }
    }

    method SaveToStorage()
      modifies this`storage
      ensures storage == old(storage)[STORAGE_KEY := Encode(items)]
      ensures Persisted()
    {
      storage := storage[STORAGE_KEY := Encode(items)];
      RoundTrip(items);
    }

    method AddItem(p: Product)
      modifies this`items, this`storage
      ensures items == Added(old(items), p)
      ensures storage == old(storage)[STORAGE_KEY := Encode(items)] && Persisted()
      ensures old(WellFormed(items)) ==> WellFormed(items)
      ensures Total(items) == old(Total(items)) + 1
    {
      ghost var before := items;
      var found := FindIndex(items, p.id);
      if found.Some? {
        var k := found.value;
        items := items[k := items[k].(quantity := items[k].quantity + 1)];
      } else {
        items := items + [Item(p.id, p.name, p.image, p.details, 1)];
      }
      SaveToStorage();
      if WellFormed(before) {
        AddedWellFormed(before, p);
      }
      TotalAfterAdd(before, p);
    }

    /** The click handler of an add control. */
    method ClickAddButton(b: AddButton)
      modifies this`items, this`storage
      ensures items == Added(old(items), ProductOf(b))
      ensures storage == old(storage)[STORAGE_KEY := Encode(items)] && Persisted()
      ensures ButtonMarked(items, b)
    {
      AddItem(ProductOf(b));
      ClickMarksButton(old(items), b);
    }

    method RemoveItem(id: string)
      modifies this`items, this`storage
      ensures items == Removed(old(items), id)
      ensures storage == old(storage)[STORAGE_KEY := Encode(items)] && Persisted()
      ensures old(WellFormed(items)) ==> WellFormed(items)
    {
      ghost var before := items;
      items := Filter(items, (y: Item) => y.id != id);
      SaveToStorage();
      if WellFormed(before) {
        RemovedWellFormed(before, id);
      }
    }

    method UpdateQuantity(id: string, delta: int)
      modifies this`items, this`storage
      ensures items == QuantityUpdated(old(items), id, delta)
      ensures FindIndex(old(items), id).Some? ==>
        storage == old(storage)[STORAGE_KEY := Encode(items)] && Persisted()
      ensures FindIndex(old(items), id).None? ==> items == old(items) && storage == old(storage)
      ensures old(WellFormed(items)) ==> WellFormed(items)
    {
      ghost var before := items;
      var found := FindIndex(items, id);
      if found.Some? {
        var k := found.value;
        items := items[k := items[k].(quantity := Max(1, items[k].quantity + delta))];
        assert items == QuantityUpdated(before, id, delta);
        SaveToStorage();
      }
      if WellFormed(before) {
        UpdatedWellFormed(before, id, delta);
      }
    }

    /** `clearAll`, with the answer to the confirmation prompt as input. */
    method ClearAll(confirmed: bool)
      modifies this`items, this`storage
      ensures confirmed ==> items == [] && storage == old(storage)[STORAGE_KEY := Encode([])] && Persisted()
      ensures !confirmed ==> items == old(items) && storage == old(storage)
    {
      if confirmed {
        items := [];
        SaveToStorage();
      }
    }

    /** `submitQuote`: the text put into the `products` parameter; the list is left as it is. */
    method SubmitQuote() returns (products: string)
      ensures products == QuoteDetails(items)
    {
      var lines: seq<string> := Map(items, ItemLine);
      products := Join(lines, ", ");
    }

    /** `getItems`: a copy of the list. */
    method GetItems() returns (copy: seq<Item>)
      ensures copy == items
    {
      copy := items;
    }

    method OpenSidebar()
      modifies this`isOpen
      ensures isOpen
    {
      isOpen := true;
    }

    method CloseSidebar()
      modifies this`isOpen
      ensures !isOpen
    {
      isOpen := false;
    }

    /** The Escape key closes the sidebar when it is open and otherwise does nothing. */
    method HandleKey(key: string)
      modifies this`isOpen
      ensures isOpen == (old(isOpen) && key != "Escape")
    {
      if key == "Escape" && isOpen {
        CloseSidebar();
      }
    }
  }
}
