/**
 * The product search box: a substring filter over a fixed catalogue, a category
 * filter on the product type, the result heading, keyboard highlighting of one
 * result, and the escaping of a query before it is used as a regular expression.
 */
module Search {
  import opened Wrappers
  import opened Strings
  import opened Seqs

  /** One catalogue product (`type` in the site's data is `productType` here). */
  datatype Entry = Entry(
    id: string, name: string, productType: string, capacity: string,
    material: string, image: string, link: string)

  /** The static product list the search runs over, in display order. */
  const PRODUCTS: seq<Entry> := [
    Entry("smc-14", "SMC 1/4", "Stud Mount", "75 lbs", "Carbon Steel", "assets/images/products/stud-mount-1-1.jpg", "stud-mount-ball-transfer-units.html"),
    Entry("sms-14", "SMS 1/4", "Stud Mount", "125 lbs", "Stainless Steel", "assets/images/products/stud-mount-1-1.jpg", "stud-mount-ball-transfer-units.html"),
    Entry("nsmc-14", "NSMC 1/4", "Stud Mount", "75 lbs", "Nylon Ball", "assets/images/products/stud-mount-1-1.jpg", "stud-mount-ball-transfer-units.html"),
    Entry("smc-112", "1-1/2 SMC", "Stud Mount", "250 lbs", "Carbon Steel", "assets/images/products/stud-mount-1-1.jpg", "stud-mount-ball-transfer-units.html"),
    Entry("sms-112", "1-1/2 SMS", "Stud Mount", "350 lbs", "Stainless Steel", "assets/images/products/stud-mount-1-1.jpg", "stud-mount-ball-transfer-units.html"),
    Entry("ehsmc", "EHSMC", "Stud Mount", "50 lbs", "Carbon Steel", "assets/images/products/stud-mount-2.jpg", "stud-mount-ball-transfer-units.html"),
    Entry("ldsmc", "LDSMC", "Stud Mount", "65 lbs", "Carbon Steel", "assets/images/products/stud-mount-3.jpg", "stud-mount-ball-transfer-units.html"),
    Entry("fmc", "FMC", "Flange Mount", "75 lbs", "Carbon Steel", "assets/images/products/FMC-flange.jpg", "flange-mount-ball-transfer-units.html"),
    Entry("fms", "FMS", "Flange Mount", "125 lbs", "Stainless Steel", "assets/images/products/FMC-flange.jpg", "flange-mount-ball-transfer-units.html"),
    Entry("dmc", "DMC", "Disk Mount", "75 lbs", "Carbon Steel", "assets/images/products/DMC-disk-mount.jpg", "disk-mount-ball-transfer-units.html"),
    Entry("dms", "DMS", "Disk Mount", "125 lbs", "Stainless Steel", "assets/images/products/DMC-disk-mount.jpg", "disk-mount-ball-transfer-units.html"),
    Entry("rmc", "RMC", "Round Mount", "75 lbs", "Carbon Steel", "assets/images/products/round-mount.jpg", "round-mount-ball-transfer-units.html"),
    Entry("msmc", "MSMC", "Machined Stud", "150 lbs", "Carbon Steel", "assets/images/products/12-MSMC-MSMS-machined.jpg", "machined-stud-mount-ball-transfer-units.html"),
    Entry("msms", "MSMS", "Machined Stud", "250 lbs", "Stainless Steel", "assets/images/products/12-MSMC-MSMS-machined.jpg", "machined-stud-mount-ball-transfer-units.html"),
    Entry("mpc", "MPC", "Machined Press", "150 lbs", "Carbon Steel", "assets/images/products/12-MPC-machined-press.jpg", "machined-press-ball-transfer-units.html"),
    Entry("mps", "MPS", "Machined Press", "250 lbs", "Stainless Steel", "assets/images/products/12-MPC-machined-press.jpg", "machined-press-ball-transfer-units.html"),
    Entry("pmc", "PMC", "Pipe Mount", "250 lbs", "Carbon Steel", "assets/images/products/1-12-PMC-pipe-mount.jpg", "pipe-mount-ball-transfer-units.html"),
    Entry("slc", "SLC", "Spring Loaded", "50 lbs", "Carbon Steel", "assets/images/products/SLC-spring-load.jpg", "spring-loaded-ball-transfer-units.html"),
    Entry("fslc", "FSLC", "Spring Loaded", "50 lbs", "Carbon Steel", "assets/images/products/FSLC-spring-load.jpg", "spring-loaded-ball-transfer-units.html"),
    Entry("bd-dmc", "BD-DMC", "Bolt Down Disk", "75 lbs", "Carbon Steel", "assets/images/products/BD-DMC-bolt-down.jpg", "bolt-down-disk-mount-units.html")
  ]

  /** How many products the "Popular Products" list shows. */
  const POPULAR_COUNT := 6

  /** The text a query is matched against: `name type material capacity`, lower-cased. */
  function SearchText(p: Entry): string {
    Lower(p.name + " " + p.productType + " " + p.material + " " + p.capacity)
  }

  predicate TextMatch(query: string, p: Entry) {
    Contains(SearchText(p), query)
  }

  /** The category buttons' test on the lower-cased product type; an unknown filter keeps everything. */
  predicate CategoryKeeps(filter: string, p: Entry) {
    var t := Lower(p.productType);
    if filter == "stud" then Contains(t, "stud") && !Contains(t, "machined")
    else if filter == "flange" then Contains(t, "flange")
    else if filter == "disk" then Contains(t, "disk")
    else if filter == "machined" then Contains(t, "machined")
    else if filter == "spring" then Contains(t, "spring")
    else true
  }

  /** The query as the search sees it: trimmed and lower-cased. */
  function QueryOf(input: string): (q: string)
    ensures q == "" <==> IsBlank(input)
  {
    Lower(Trim(input))
  }

  /** The text filter over a catalogue, then the category filter unless it is `all`. */
  function Filtered(catalogue: seq<Entry>, query: string, filter: string): seq<Entry> {
    var byText := Filter(catalogue, (p: Entry) => TextMatch(query, p));
    if filter != "all" then Filter(byText, (p: Entry) => CategoryKeeps(filter, p)) else byText
  }

  /** The matches are exactly the catalogue products passing both tests. */
  lemma FilteredExactly(catalogue: seq<Entry>, query: string, filter: string, p: Entry)
    ensures p in Filtered(catalogue, query, filter)
      <==> p in catalogue && TextMatch(query, p) && CategoryKeeps(filter, p)
  {
    var byText := Filter(catalogue, (e: Entry) => TextMatch(query, e));
    FilterMembership(catalogue, (e: Entry) => TextMatch(query, e), p);
    if filter != "all" {
      FilterMembership(byText, (e: Entry) => CategoryKeeps(filter, e), p);
    }
  }

  /** A category filter only narrows the text matches. */
  lemma CategoryOnlyNarrows(catalogue: seq<Entry>, query: string, filter: string)
    ensures |Filtered(catalogue, query, filter)| <= |Filtered(catalogue, query, "all")|
    ensures forall p :: p in Filtered(catalogue, query, filter) ==> p in Filtered(catalogue, query, "all")
  {
    if filter != "all" {
      FilterNarrows(catalogue, (e: Entry) => TextMatch(query, e), (e: Entry) => CategoryKeeps(filter, e));
    }
  }

  /** The matches keep catalogue order: matching over a split catalogue is matching each part. */
  lemma MatchesKeepCatalogueOrder(a: seq<Entry>, b: seq<Entry>, query: string, filter: string)
    ensures Filtered(a + b, query, filter) == Filtered(a, query, filter) + Filtered(b, query, filter)
  {
    var f := (e: Entry) => TextMatch(query, e);
    var g := (e: Entry) => CategoryKeeps(filter, e);
    FilterConcat(a, b, f);
    if filter != "all" {
      FilterConcat(Filter(a, f), Filter(b, f), g);
    }
  }

  /** The stud filter leaves out the machined studs, which the machined filter keeps. */
  lemma StudFilterExcludesMachined()
    ensures PRODUCTS[12].productType == "Machined Stud"
    ensures !CategoryKeeps("stud", PRODUCTS[12]) && CategoryKeeps("machined", PRODUCTS[12])
    ensures CategoryKeeps("stud", PRODUCTS[0])
  {
    var t := Lower(PRODUCTS[12].productType);
    assert t == "machined stud";
    assert "machined" <= t[0..];
    assert "stud" <= t[9..];
    var u := Lower(PRODUCTS[0].productType);
    assert u == "stud mount";
    assert "stud" <= u[0..];
    forall i | 0 <= i <= |u| - |"machined"| ensures !("machined" <= u[i..]) {
      assert u[i..][0] == u[i] != 'm';
    }
  }

  datatype ResultsView =
    | Nothing
    | Popular(entries: seq<Entry>)
    | Found(heading: string, entries: seq<Entry>)
    | NotFound(query: string)

  /** The `.search-result` links a view shows, in order. */
  function Listed(view: ResultsView): seq<Entry> {
    match view
    case Popular(es) => es
    case Found(_, es) => es
    case _ => []
  }

  /** `N result`, with an `s` unless N is 1. */
  function Heading(n: nat): (h: string)
    ensures n == 1 ==> h == "1 result"
    ensures n != 1 ==> h == NatToString(n) + " results"
  {
    NatToString(n) + " result" + (if n != 1 then "s" else "")
  }

  /** `renderResults`: the empty state when nothing matched, otherwise a counted list. */
  function RenderResults(items: seq<Entry>, query: string): (v: ResultsView)
    ensures Listed(v) == items
    ensures v.NotFound? <==> items == []
    ensures v.Found? ==> v.heading == Heading(|items|)
  {
    if |items| == 0 then NotFound(query) else Found(Heading(|items|), items)
  }

  /** `showDefaultResults`: the first six catalogue products (all of them in a shorter catalogue). */
  function PopularProducts(catalogue: seq<Entry>): (r: seq<Entry>)
    ensures |r| == if |catalogue| < POPULAR_COUNT then |catalogue| else POPULAR_COUNT
    ensures r <= catalogue
  {
    if |catalogue| < POPULAR_COUNT then catalogue else catalogue[..POPULAR_COUNT]
  }

  /** The site's catalogue has twenty products, so its popular list is its first six. */
  lemma SitePopularProducts()
    ensures |PRODUCTS| == 20
    ensures PopularProducts(PRODUCTS) == PRODUCTS[..POPULAR_COUNT]
  {
  }

  /**
   * `handleSearch` on an input text, a filter and the current highlight: the new
   * view and highlight. A blank query shows the popular products and keeps the
   * highlight; any other query resets it to -1.
   */
  function AfterSearch(catalogue: seq<Entry>, input: string, filter: string, highlight: int): (ResultsView, int) {
    var query := QueryOf(input);
    if query == "" then (Popular(PopularProducts(catalogue)), highlight)
    else (RenderResults(Filtered(catalogue, query, filter), query), -1)
  }

  /** A non-blank query lists exactly its matches and clears the highlight. */
  lemma SearchResetsHighlight(catalogue: seq<Entry>, input: string, filter: string, highlight: int)
    requires !IsBlank(input)
    ensures AfterSearch(catalogue, input, filter, highlight).1 == -1
    ensures Listed(AfterSearch(catalogue, input, filter, highlight).0) == Filtered(catalogue, QueryOf(input), filter)
  {
  }

  /**
   * A blank query lists the popular products but leaves the highlight as it
   * was, so a highlight of six or more left by a longer result list points past
   * the end of what is shown.
   */
  lemma BlankQueryKeepsHighlight(catalogue: seq<Entry>, input: string, filter: string, highlight: int)
    requires IsBlank(input)
    ensures AfterSearch(catalogue, input, filter, highlight).1 == highlight
    ensures Listed(AfterSearch(catalogue, input, filter, highlight).0) == PopularProducts(catalogue)
    ensures highlight >= POPULAR_COUNT ==> highlight >= |Listed(AfterSearch(catalogue, input, filter, highlight).0)|
  {
  }

  /** ArrowDown: `min(i + 1, n - 1)`. */
  function ArrowDown(i: int, n: nat): (r: int)
    ensures i >= -1 ==> -1 <= r <= n - 1
    ensures r <= i + 1 && r <= n - 1
    ensures r == i + 1 || r == n - 1
  {
    if i + 1 <= n - 1 then i + 1 else n - 1
  }

  /** ArrowUp: `max(i - 1, -1)`. */
  function ArrowUp(i: int): (r: int)
    ensures r >= -1
    ensures i >= 0 ==> r == i - 1
    ensures i <= 0 ==> r == -1
  {
    if i - 1 >= -1 then i - 1 else -1
  }

  /** Both arrow keys keep a highlight in `[-1, n - 1]` once it is there. */
  lemma ArrowsKeepRange(i: int, n: nat)
    requires -1 <= i <= n - 1
    ensures -1 <= ArrowDown(i, n) <= n - 1
    ensures -1 <= ArrowUp(i) <= n - 1
  {
  }

  /** Enter follows the highlighted link only when the highlight names a listed result. */
  function EnterTarget(i: int, listed: seq<Entry>): (r: Option<string>)
    ensures r.Some? <==> 0 <= i < |listed|
    ensures r.Some? ==> r.value == listed[i].link
  {
    if i >= 0 && i < |listed| then Some(listed[i].link) else None
  }

  /** The characters `escapeRegex` puts a backslash before. */
  predicate IsRegexSpecial(c: char) {
    c in ".*+?^${}()|[]\\"
  }

  /** `escapeRegex`: a backslash before each special character, other characters as they are. */
  function EscapeRegex(s: string): (r: string)
    ensures |r| >= |s|
    ensures (forall k :: 0 <= k < |s| ==> !IsRegexSpecial(s[k])) ==> r == s
  {
    if s == [] then []
    else (if IsRegexSpecial(s[0]) then ['\\', s[0]] else [s[0]]) + EscapeRegex(s[1..])
  }

  /** A single character: a backslash in front of a special one, any other as it is. */
  lemma EscapeRegexOne(c: char)
    ensures EscapeRegex([c]) == if IsRegexSpecial(c) then ['\\', c] else [c]
  {
    assert [c][1..] == [];
  }

  /** The replacement works character by character: escaping distributes over concatenation. */
  lemma {:induction false} EscapeRegexConcat(a: string, b: string)
    ensures EscapeRegex(a + b) == EscapeRegex(a) + EscapeRegex(b)
  {
    if a == [] {
      assert a + b == b;
    } else {
      assert (a + b)[1..] == a[1..] + b;
      EscapeRegexConcat(a[1..], b);
    }
  }

  /** Reading a pattern as literal text: a backslash stands for the character after it. */
  function LiteralText(t: string): string {
    if t == [] then []
    else if t[0] == '\\' && |t| >= 2 then [t[1]] + LiteralText(t[2..])
    else [t[0]] + LiteralText(t[1..])
  }

  /** Every special character of the pattern is escaped: the pattern matches only itself. */
  predicate AllEscaped(t: string) {
    if t == [] then true
    else if t[0] == '\\' then |t| >= 2 && AllEscaped(t[2..])
    else !IsRegexSpecial(t[0]) && AllEscaped(t[1..])
  }

  /** The escaped query has no bare special character and reads back as the query. */
  lemma {:induction false} EscapeRegexCorrect(s: string)
    ensures AllEscaped(EscapeRegex(s))
    ensures LiteralText(EscapeRegex(s)) == s
  {
    if s != [] {
      EscapeRegexCorrect(s[1..]);
      var r := EscapeRegex(s);
      var tail := EscapeRegex(s[1..]);
      if IsRegexSpecial(s[0]) {
        assert r == ['\\', s[0]] + tail && r[2..] == tail;
      } else {
        assert r == [s[0]] + tail && r[1..] == tail;
      }
      assert s == [s[0]] + s[1..];
    }
  }

  lemma EscapeRegexExample()
    ensures EscapeRegex("4.") == "4\\."
  {
    assert !IsRegexSpecial('4') && IsRegexSpecial('.');
    assert EscapeRegex(".") == "\\.";
  }

  /** The search overlay's module state. */
  class SearchWidget {
    const catalogue: seq<Entry>
    var isOpen: bool
    var inputValue: string
    var currentFilter: string
    var highlightedIndex: int
    var view: ResultsView

    constructor()
      ensures catalogue == PRODUCTS
      ensures !isOpen && inputValue == "" && currentFilter == "all"
      ensures highlightedIndex == -1 && view == Nothing
    {
      catalogue := PRODUCTS;
      isOpen := false;
      inputValue := "";
      currentFilter := "all";
      highlightedIndex := -1;
      view := Nothing;
    }

    /** `openSearch`: show the popular products; the highlight is left alone. */
    method Open()
      modifies this`isOpen, this`view
      ensures isOpen && view == Popular(PopularProducts(catalogue))
    {
      isOpen := true;
      view := Popular(PopularProducts(catalogue));
    }

    /** `closeSearch`: clear the input and the highlight; filter and rendered view stay. */
    method Close()
      modifies this`isOpen, this`inputValue, this`highlightedIndex
      ensures !isOpen && inputValue == "" && highlightedIndex == -1
    {
      isOpen := false;
      inputValue := "";
      highlightedIndex := -1;
    }

    method HandleSearch()
      modifies this`view, this`highlightedIndex
      ensures (view, highlightedIndex) == AfterSearch(catalogue, inputValue, currentFilter, old(highlightedIndex))
    {
      var query := QueryOf(inputValue);
      if query == "" {
        view := Popular(PopularProducts(catalogue));
        return;
      }
      var filtered := Filtered(catalogue, query, currentFilter);
      highlightedIndex := -1;
      view := RenderResults(filtered, query);
    }

    /** An input event (after the debounce delay): the new text is searched. */
    method InputChanged(text: string)
      modifies this`inputValue, this`view, this`highlightedIndex
      ensures inputValue == text
      ensures (view, highlightedIndex) == AfterSearch(catalogue, text, currentFilter, old(highlightedIndex))
    {
      inputValue := text;
      HandleSearch();
    }

    /** A category button: it becomes the current filter and the search runs again. */
    method ChooseFilter(filter: string)
      modifies this`currentFilter, this`view, this`highlightedIndex
      ensures currentFilter == filter
      ensures (view, highlightedIndex) == AfterSearch(catalogue, inputValue, filter, old(highlightedIndex))
    {
      currentFilter := filter;
      HandleSearch();
    }

    /** `handleKeydown` on the input; the result is the link Enter navigates to, if any. */
    method HandleKeydown(key: string) returns (navigateTo: Option<string>)
      modifies this`highlightedIndex
      ensures key == "ArrowDown" ==> highlightedIndex == ArrowDown(old(highlightedIndex), |Listed(view)|)
      ensures key == "ArrowUp" ==> highlightedIndex == ArrowUp(old(highlightedIndex))
      ensures key != "ArrowDown" && key != "ArrowUp" ==> highlightedIndex == old(highlightedIndex)
      ensures navigateTo == if key == "Enter" then EnterTarget(highlightedIndex, Listed(view)) else None
    {
      var items := Listed(view);
      navigateTo := None;
      if key == "ArrowDown" {
        highlightedIndex := if highlightedIndex + 1 <= |items| - 1 then highlightedIndex + 1 else |items| - 1;
      } else if key == "ArrowUp" {
        highlightedIndex := if highlightedIndex - 1 >= -1 then highlightedIndex - 1 else -1;
      } else if key == "Enter" {
        if highlightedIndex >= 0 && highlightedIndex < |items| {
          navigateTo := Some(items[highlightedIndex].link);
        }
      }
    }

    /** The page-wide handler: Ctrl/Cmd+K opens the search, Escape closes it when open. */
    method HandleGlobalKey(key: string, withModifier: bool)
      modifies this`isOpen, this`view, this`inputValue, this`highlightedIndex
      ensures withModifier && key == "k" ==> isOpen && view == Popular(PopularProducts(catalogue))
      ensures key == "Escape" && old(isOpen) ==> !isOpen && inputValue == "" && highlightedIndex == -1
      ensures withModifier && key == "k" ==> inputValue == old(inputValue) && highlightedIndex == old(highlightedIndex)
      ensures key == "Escape" && old(isOpen) ==> view == old(view)
      ensures (!(withModifier && key == "k") && key != "Escape") || (key == "Escape" && !old(isOpen)) ==>
        isOpen == old(isOpen) && view == old(view) && inputValue == old(inputValue)
        && highlightedIndex == old(highlightedIndex)
    {
      if withModifier && key == "k" {
        Open();
      }
      if key == "Escape" && isOpen {
        Close();
      }
    }
  }
}
