/**
 * The catalog page: the fetched products, the category filter and the search text,
 * and the visible list derived from them. Case mapping is ASCII only.
 */
module Home {
  import opened Products

  function LowerChar(c: char): char
  {
    if 'A' <= c <= 'Z' then (c as int + 32) as char else c
  }

  function UpperChar(c: char): char
  {
    if 'a' <= c <= 'z' then (c as int - 32) as char else c
  }

  /** `toLowerCase`, letter by letter: the same length, no upper-case letter remains, each
      character is the same letter up to case, and every other character is kept. */
  function ToLower(s: string): (r: string)
    ensures |r| == |s|
    ensures forall i :: 0 <= i < |r| ==> !('A' <= r[i] <= 'Z')
    ensures forall i :: 0 <= i < |s| ==> UpperChar(r[i]) == UpperChar(s[i])
    ensures forall i :: 0 <= i < |s| && !('A' <= s[i] <= 'Z') ==> r[i] == s[i]
  {
    seq(|s|, i requires 0 <= i < |s| => LowerChar(s[i]))
  }

  /** The needle occurs in s starting at position i. */
  predicate OccursAt(s: string, needle: string, i: int)
  {
    0 <= i && i + |needle| <= |s| && s[i..i + |needle|] == needle
  }

  predicate StartsWith(s: string, prefix: string)
  {
    |prefix| <= |s| && s[..|prefix|] == prefix
  }

  /** `String.prototype.includes`, scanning s from the left. The empty needle is in every
      text, and a needle longer than the text is in none. */
  predicate Includes(s: string, needle: string)
    ensures needle == [] ==> Includes(s, needle)
    ensures Includes(s, needle) ==> |needle| <= |s|
    decreases |s|
  {
    StartsWith(s, needle) || (s != [] && Includes(s[1..], needle))
  }

  /** The scan finds the needle exactly when it occurs somewhere in s. */
  lemma {:induction false} IncludesIffOccurs(s: string, needle: string)
    ensures Includes(s, needle) <==> exists i :: OccursAt(s, needle, i)
  {
    if StartsWith(s, needle) {
      assert OccursAt(s, needle, 0);
    } else if s == [] {
    } else {
      IncludesIffOccurs(s[1..], needle);
      if Includes(s[1..], needle) {
        var i :| OccursAt(s[1..], needle, i);
        assert s[i + 1..i + 1 + |needle|] == s[1..][i..i + |needle|];
        assert OccursAt(s, needle, i + 1);
      }
      if exists i :: OccursAt(s, needle, i) {
        var i :| OccursAt(s, needle, i);
        if i > 0 {
          assert s[1..][i - 1..i - 1 + |needle|] == s[i..i + |needle|];
          assert OccursAt(s[1..], needle, i - 1);
        }
      }
    }
  }

  /** The category criterion: exact, case-sensitive equality. */
  predicate InCategory(p: Product, filter: string)
  {
    p.category == filter
  }

  /** The search criterion: the lower-cased title contains the lower-cased search text.
      An empty search matches every title; a search longer than the title matches none. */
  predicate MatchesSearch(p: Product, search: string)
    ensures search == "" ==> MatchesSearch(p, search)
    ensures MatchesSearch(p, search) ==> |search| <= |p.title|
  {
    Includes(ToLower(p.title), ToLower(search))
  }

  /** a is an order-preserving subsequence of b. */
  predicate IsSubsequence(a: seq<Product>, b: seq<Product>)
    decreases |b|
  {
    a == [] || (b != [] && ((a[0] == b[0] && IsSubsequence(a[1..], b[1..])) || IsSubsequence(a, b[1..])))
  }

  /** `Array.prototype.filter`: the elements satisfying f, in their original order,
      none satisfying f left behind. */
  function Keep(ps: seq<Product>, f: Product -> bool): (r: seq<Product>)
    ensures forall i :: 0 <= i < |r| ==> f(r[i])
    ensures forall p :: p in r <==> p in ps && f(p)
    ensures IsSubsequence(r, ps)
  {
    if ps == [] then []
    else
      var rest := Keep(ps[1..], f);
      if f(ps[0]) then
        assert ([ps[0]] + rest)[1..] == rest;
        [ps[0]] + rest
      else
        assert [] + rest == rest;
        rest
  }

  /** The filter keeps every copy of each element satisfying f and no copy of any other, so
      together with the subsequence clause of Keep the result is fixed exactly. */
  lemma {:induction false} KeepCounts(ps: seq<Product>, f: Product -> bool, p: Product)
    ensures multiset(Keep(ps, f))[p] == if f(p) then multiset(ps)[p] else 0
  {
    if ps != [] {
      KeepCounts(ps[1..], f, p);
      assert ps == [ps[0]] + ps[1..];
      var head := if f(ps[0]) then [ps[0]] else [];
      assert multiset(Keep(ps, f)) == multiset(head) + multiset(Keep(ps[1..], f));
    }
  }

  function ByCategory(ps: seq<Product>, filter: string): seq<Product>
  {
    Keep(ps, p => InCategory(p, filter))
  }

  function BySearch(ps: seq<Product>, search: string): seq<Product>
  {
    Keep(ps, p => MatchesSearch(p, search))
  }

  /** The derived visible list: the category filter when a category is chosen, then the
      search filter when search text is entered. Only catalog products passing every active
      criterion are visible. */
  function Visible(products: seq<Product>, filter: string, search: string): (r: seq<Product>)
    ensures forall p :: p in r ==> p in products && Matches(p, filter, search)
  {
    var byCategory := if filter != "" then ByCategory(products, filter) else products;
    if search != "" then BySearch(byCategory, search) else byCategory
  }

  /** A product passes every active criterion; an empty criterion is inactive. */
  predicate Matches(p: Product, filter: string, search: string)
  {
    (filter == "" || InCategory(p, filter)) && (search == "" || MatchesSearch(p, search))
  }

  /** Reference definition: a single filter pass with the conjunction of the criteria. */
  function Select(products: seq<Product>, filter: string, search: string): seq<Product>
  {
    Keep(products, p => Matches(p, filter, search))
  }

  lemma {:induction false} KeepCongruent(ps: seq<Product>, f: Product -> bool, g: Product -> bool)
    requires forall p :: p in ps ==> f(p) == g(p)
    ensures Keep(ps, f) == Keep(ps, g)
  {
    if ps != [] {
      KeepCongruent(ps[1..], f, g);
    }
  }

  lemma {:induction false} KeepEverything(ps: seq<Product>, f: Product -> bool)
    requires forall p :: p in ps ==> f(p)
    ensures Keep(ps, f) == ps
  {
    if ps != [] {
      KeepEverything(ps[1..], f);
      assert [ps[0]] + ps[1..] == ps;
    }
  }

  /** Filtering twice is filtering once with both predicates. */
  lemma {:induction false} KeepTwice(ps: seq<Product>, f: Product -> bool, g: Product -> bool, h: Product -> bool)
    requires forall p :: p in ps ==> h(p) == (f(p) && g(p))
    ensures Keep(Keep(ps, f), g) == Keep(ps, h)
  {
    if ps != [] {
      KeepTwice(ps[1..], f, g, h);
      var once := Keep(ps[1..], f);
      if f(ps[0]) {
        assert Keep(ps, f) == [ps[0]] + once;
        assert Keep([ps[0]] + once, g) == (if g(ps[0]) then [ps[0]] else []) + Keep(once, g) by {
          assert ([ps[0]] + once)[1..] == once;
        }
      } else {
        assert Keep(ps, f) == once;
      }
    }
  }

  /** With neither criterion set every product is visible, as set right after a fetch. */
  lemma VisibleWithoutCriteria(products: seq<Product>)
    ensures Visible(products, "", "") == products
    ensures Select(products, "", "") == products
  {
    KeepEverything(products, p => Matches(p, "", ""));
  }

  /** The two filter steps in a row select exactly the products that pass both criteria. */
  lemma VisibleIsConjunction(products: seq<Product>, filter: string, search: string)
    ensures Visible(products, filter, search) == Select(products, filter, search)
  {
    var m := p => Matches(p, filter, search);
    if filter == "" && search == "" {
      VisibleWithoutCriteria(products);
    } else if filter == "" {
      KeepCongruent(products, p => MatchesSearch(p, search), m);
    } else if search == "" {
      KeepCongruent(products, p => InCategory(p, filter), m);
    } else {
      KeepTwice(products, p => InCategory(p, filter), p => MatchesSearch(p, search), m);
    }
  }

  /** Every visible product passes the active criteria, no passing product is dropped,
      and the visible list keeps the catalog's order. */
  lemma VisibleExactlyMatching(products: seq<Product>, filter: string, search: string)
    ensures forall p :: p in Visible(products, filter, search) <==> p in products && Matches(p, filter, search)
    ensures filter != "" ==> forall p :: p in Visible(products, filter, search) ==> p.category == filter
    ensures search != "" ==> forall p :: p in Visible(products, filter, search) ==>
              Includes(ToLower(p.title), ToLower(search))
    ensures IsSubsequence(Visible(products, filter, search), products)
    ensures forall p :: multiset(Visible(products, filter, search))[p] ==
              if Matches(p, filter, search) then multiset(products)[p] else 0
  {
    VisibleIsConjunction(products, filter, search);
    forall p
      ensures multiset(Visible(products, filter, search))[p] ==
              if Matches(p, filter, search) then multiset(products)[p] else 0
    {
      KeepCounts(products, q => Matches(q, filter, search), p);
    }
  }

  /** Filtering the visible list again with the same criteria changes nothing. */
  lemma VisibleIdempotent(products: seq<Product>, filter: string, search: string)
    ensures Visible(Visible(products, filter, search), filter, search) == Visible(products, filter, search)
  {
    var m := p => Matches(p, filter, search);
    VisibleIsConjunction(products, filter, search);
    VisibleIsConjunction(Visible(products, filter, search), filter, search);
    KeepTwice(products, m, m, m);
  }

  /** Search ignores letter case: two search texts with the same lower-case form give the same list. */
  lemma VisibleIgnoresSearchCase(products: seq<Product>, filter: string, search1: string, search2: string)
    requires ToLower(search1) == ToLower(search2)
    ensures Visible(products, filter, search1) == Visible(products, filter, search2)
  {
    var byCategory := if filter != "" then ByCategory(products, filter) else products;
    KeepCongruent(byCategory, p => MatchesSearch(p, search1), p => MatchesSearch(p, search2));
  }

  /** A three-product catalog: a red shirt and a blue hat in "clothes", a red mug in "home". */
  function SampleCatalog(): seq<Product>
  {
    [Product(1, "Red Shirt", 1000, "clothes", "", ""),
     Product(2, "Blue Hat", 500, "clothes", "", ""),
     Product(3, "Red Mug", 800, "home", "", "")]
  }

  /** Which sample titles contain "red", ignoring case. */
  lemma SampleSearchRed()
    ensures MatchesSearch(SampleCatalog()[0], "red")
    ensures !MatchesSearch(SampleCatalog()[1], "red")
    ensures MatchesSearch(SampleCatalog()[2], "red")
  {
    var c := SampleCatalog();
    assert ToLower("red") == "red";
    assert ToLower(c[0].title)[..3] == "red";
    assert ToLower(c[2].title)[..3] == "red";
    assert ToLower(c[1].title) == "blue hat";
    MissingFirstCharNotIncluded("blue hat", "red");
  }

  /** A text in which the needle's first character never appears does not include the needle. */
  lemma {:induction false} MissingFirstCharNotIncluded(s: string, needle: string)
    requires needle != [] && forall j :: 0 <= j < |s| ==> s[j] != needle[0]
    ensures !Includes(s, needle)
  {
    if s != [] {
      assert |needle| > |s| || s[..|needle|][0] == s[0];
      forall j | 0 <= j < |s[1..]|
        ensures s[1..][j] != needle[0]
      {
        assert s[1..][j] == s[j + 1];
      }
      MissingFirstCharNotIncluded(s[1..], needle);
    }
  }

  /** One filter step on a sequence given head first. */
  lemma KeepCons(x: Product, rest: seq<Product>, f: Product -> bool)
    ensures Keep([x] + rest, f) == (if f(x) then [x] else []) + Keep(rest, f)
  {
    assert ([x] + rest)[1..] == rest;
  }

  /** Filtering three elements of which only the middle one fails keeps the outer two. */
  lemma KeepFirstAndLast(a: Product, b: Product, c: Product, f: Product -> bool)
    requires f(a) && !f(b) && f(c)
    ensures Keep([a, b, c], f) == [a, c]
  {
    KeepCons(c, [], f);
    KeepCons(b, [c], f);
    KeepCons(a, [b, c], f);
    assert [a, b, c] == [a] + ([b] + ([c] + []));
  }

  /** Searching "red" alone finds the shirt and the mug. */
  lemma SampleSearchOnly()
    ensures Visible(SampleCatalog(), "", "red") == [SampleCatalog()[0], SampleCatalog()[2]]
  {
    var c := SampleCatalog();
    var red := p => MatchesSearch(p, "red");
    SampleSearchRed();
    KeepFirstAndLast(c[0], c[1], c[2], red);
  }

  /** Choosing "clothes" alone finds the shirt and the hat. */
  lemma SampleCategoryOnly()
    ensures Visible(SampleCatalog(), "clothes", "") == [SampleCatalog()[0], SampleCatalog()[1]]
  {
    var c := SampleCatalog();
    var clothes := p => InCategory(p, "clothes");
    KeepCons(c[2], [], clothes);
    KeepCons(c[1], [c[2]], clothes);
    KeepCons(c[0], [c[1], c[2]], clothes);
    assert c == [c[0]] + ([c[1]] + ([c[2]] + []));
  }

  /** Searching "red" finds both red items; choosing "clothes" afterwards keeps the search,
      so only the shirt stays visible rather than both clothes items. */
  lemma SampleCatalogFilters()
    ensures Visible(SampleCatalog(), "", "red") == [SampleCatalog()[0], SampleCatalog()[2]]
    ensures Visible(SampleCatalog(), "clothes", "") == [SampleCatalog()[0], SampleCatalog()[1]]
    ensures Visible(SampleCatalog(), "clothes", "red") == [SampleCatalog()[0]]
  {
    var c := SampleCatalog();
    var red := p => MatchesSearch(p, "red");
    SampleSearchOnly();
    SampleCategoryOnly();
    SampleSearchRed();
    assert ByCategory(c, "clothes") == [c[0], c[1]];
    KeepCons(c[1], [], red);
    KeepCons(c[0], [c[1]], red);
    assert [c[0], c[1]] == [c[0]] + ([c[1]] + []);
  }


  /** The dropdown label of a category: its first character upper-cased, the rest as is.
      The label differs from the category only in letter case. */
  function Capitalize(category: string): (r: string)
    ensures |r| == |category|
    ensures ToLower(r) == ToLower(category)
  {
    if category == "" then ""
    else
      var r := [UpperChar(category[0])] + category[1..];
      assert LowerChar(UpperChar(category[0])) == LowerChar(category[0]);
      assert ToLower(r)[0] == ToLower(category)[0];
      r
  }

  /** The label is the category with only its first character upper-cased: same length, same
      tail, the same lower-case form, and capitalizing a label again changes nothing. */
  lemma CapitalizeLabel(category: string)
    ensures |Capitalize(category)| == |category|
    ensures category != "" ==> Capitalize(category)[0] == UpperChar(category[0])
                               && Capitalize(category)[1..] == category[1..]
    ensures ToLower(Capitalize(category)) == ToLower(category)
    ensures Capitalize(Capitalize(category)) == Capitalize(category)
  {
    if category != "" {
      assert UpperChar(UpperChar(category[0])) == UpperChar(category[0]);
    }
  }

  /** The page's state cells, and the effect that recomputes the visible list whenever the
      products, the category filter or the search text change. */
  class HomePage {
    var products: seq<Product>
    var filteredProducts: seq<Product>
    var categories: seq<string>
    var filter: string
    var search: string

    /** The visible list is always the one derived from the other cells. */
    ghost predicate Valid()
      reads this
    {
      filteredProducts == Visible(products, filter, search)
    }

    constructor ()
      ensures Valid()
      ensures products == [] && filteredProducts == [] && categories == []
      ensures filter == "" && search == ""
    {
      products, filteredProducts, categories := [], [], [];
      filter, search := "", "";
    }

    /** The filtering effect: narrow by category if one is chosen, then by search text if any. */
    method ApplyFilters()
      modifies this`filteredProducts
      ensures filteredProducts == Visible(products, filter, search)
    {
      var filtered := products;
      if filter != "" {
        filtered := ByCategory(filtered, filter);
      }
      if search != "" {
        filtered := BySearch(filtered, search);
      }
      filteredProducts := filtered;
    }

    /** A product fetch succeeded: store the products, show them all, then the effect re-runs. */
    method ReceiveProducts(data: seq<Product>)
      modifies this
      ensures products == data && Valid()
      ensures filter == old(filter) && search == old(search) && categories == old(categories)
      ensures old(filter) == "" && old(search) == "" ==> filteredProducts == data
    {
      products := data;
      filteredProducts := data;
      ApplyFilters();
      VisibleWithoutCriteria(data);
    }

    /** A category fetch succeeded: only the dropdown's options change. */
    method ReceiveCategories(data: seq<string>)
      modifies this`categories
      ensures categories == data
    {
      categories := data;
    }

    /** The search box changed; the category filter is kept. */
    method SetSearch(value: string)
      modifies this
      ensures search == value && Valid()
      ensures filter == old(filter) && products == old(products) && categories == old(categories)
    {
      search := value;
      ApplyFilters();
    }

    /** The category dropdown changed; the search text is kept. */
    method SetFilter(value: string)
      modifies this
      ensures filter == value && Valid()
      ensures search == old(search) && products == old(products) && categories == old(categories)
    {
      filter := value;
      ApplyFilters();
    }

    /** The dropdown labels, one per category, in order. They follow the fixed first option
        "All Categories", whose value is the empty filter: choosing it is `SetFilter("")`. */
    function CategoryLabels(): (r: seq<string>)
      reads this
      ensures |r| == |categories|
      ensures forall i :: 0 <= i < |categories| ==> r[i] == Capitalize(categories[i])
    {
      var cats := categories;
      seq(|cats|, i requires 0 <= i < |cats| => Capitalize(cats[i]))
    }
  }
}
