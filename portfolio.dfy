/** The portfolio page: six projects, a category filter over them, and a detail
    dialog for the project the visitor clicks. */
module PortfolioPage {
  import opened Wrappers

  datatype Item = Item(
    id: int, title: string, category: string, image: string,
    description: string, area: string, year: string)

  const PortfolioItems: seq<Item> := [
    Item(1, "Luxury Living Room", "Residential", "portfolio-1.jpg",
      "A contemporary living space featuring custom Italian marble flooring, bespoke velvet furnishings, and curated art pieces. The design emphasizes natural light with floor-to-ceiling windows and integrates smart home technology seamlessly.",
      "3,500 sq ft", "2024"),
    Item(2, "Premium Bedroom Suite", "Residential", "portfolio-2.jpg",
      "Master bedroom sanctuary with walk-in closet and en-suite spa bathroom. Features include handcrafted wooden paneling, luxury bedding, and ambient lighting systems for the perfect retreat.",
      "1,200 sq ft", "2024"),
    Item(3, "Designer Kitchen", "Residential", "portfolio-3.jpg",
      "A chef's dream kitchen with professional-grade appliances, marble countertops, and custom cabinetry. The open layout encourages entertaining while maintaining functionality.",
      "800 sq ft", "2023"),
    Item(4, "Elegant Dining Space", "Residential", "portfolio-4.jpg",
      "Formal dining room with statement chandelier, custom dining table, and luxurious window treatments. Perfect for intimate dinners and grand celebrations alike.",
      "600 sq ft", "2023"),
    Item(5, "Executive Home Office", "Commercial", "portfolio-5.jpg",
      "Professional workspace designed for productivity and style. Features built-in storage, ergonomic furniture, and sophisticated finishes that inspire success.",
      "400 sq ft", "2024"),
    Item(6, "Spa-Inspired Bathroom", "Residential", "portfolio-6.jpg",
      "Luxurious bathroom retreat with freestanding tub, rain shower, heated floors, and premium fixtures. Natural stone and minimalist design create a serene atmosphere.",
      "350 sq ft", "2023")
  ]

  const AllCategories: string := "All"
  const Categories: seq<string> := ["All", "Residential", "Commercial"]

  /** `a` is `b` with some elements left out, the rest in their original order. */
  predicate IsSubsequence<T(==)>(a: seq<T>, b: seq<T>)
    decreases |b|
  {
    a == [] || (b != [] && ((a[0] == b[0] && IsSubsequence(a[1..], b[1..])) || IsSubsequence(a, b[1..])))
  }

  /** `r` holds each item of `category` as often as `items` does, and no other item. */
  ghost predicate KeepsCounts(r: seq<Item>, items: seq<Item>, category: string) {
    forall x :: KeepsCountOf(r, items, category, x)
  }

  /** `r` holds `x` as often as `items` does if `x` is of `category`, else never. */
  ghost predicate KeepsCountOf(r: seq<Item>, items: seq<Item>, category: string, x: Item) {
    multiset(r)[x] == if x.category == category then multiset(items)[x] else 0
  }

  /** `items.filter(item => item.category === category)`. */
  function FilterByCategory(items: seq<Item>, category: string): (r: seq<Item>)
    ensures forall i :: 0 <= i < |r| ==> r[i].category == category
    ensures forall i :: 0 <= i < |items| && items[i].category == category ==> items[i] in r
    ensures IsSubsequence(r, items)
    ensures |r| <= |items|
    ensures KeepsCounts(r, items, category)
  {
    if items == [] then []
    else
      var rest := FilterByCategory(items[1..], category);
      assert forall i :: 1 <= i < |items| ==> items[i] == items[1..][i - 1];
      assert items == [items[0]] + items[1..];
      MultisetStep(items[0], items[1..], rest, category);
      var r := if items[0].category == category then [items[0]] + rest else rest;
      assert items[0].category == category ==> r[1..] == rest;
      FromCounts(items, r, category);
      r
  }

  /** One step of the filter keeps the counts: an item of `category` as often as
      in the list, any other item never. */
  lemma MultisetStep(x: Item, tail: seq<Item>, rest: seq<Item>, category: string)
    requires KeepsCounts(rest, tail, category)
    ensures KeepsCounts(if x.category == category then [x] + rest else rest, [x] + tail, category)
  {
    assert multiset([x] + tail) == multiset{x} + multiset(tail);
    assert multiset([x] + rest) == multiset{x} + multiset(rest);
    var kept, whole := if x.category == category then [x] + rest else rest, [x] + tail;
    forall y
      ensures KeepsCountOf(kept, whole, category, y)
    {
      assert KeepsCountOf(rest, tail, category, y);
    }
  }

  /** What the counts give: every kept item is of `category`, and every item of
      `category` is kept. */
  lemma FromCounts(items: seq<Item>, r: seq<Item>, category: string)
    requires KeepsCounts(r, items, category)
    ensures forall i :: 0 <= i < |r| ==> r[i].category == category
    ensures forall i :: 0 <= i < |items| && items[i].category == category ==> items[i] in r
  {
    forall i | 0 <= i < |r|
      ensures r[i].category == category
    {
      assert r[i] in multiset(r);
      assert KeepsCountOf(r, items, category, r[i]);
    }
    forall i | 0 <= i < |items| && items[i].category == category
      ensures items[i] in r
    {
      assert items[i] in multiset(items);
      assert KeepsCountOf(r, items, category, items[i]);
    }
  }

  /** The list the grid shows: everything under "All", else the category's items. */
  function FilteredItems(items: seq<Item>, selectedCategory: string): (r: seq<Item>)
    ensures selectedCategory == AllCategories ==> r == items
    ensures selectedCategory != AllCategories ==>
              (forall i :: 0 <= i < |r| ==> r[i].category == selectedCategory) &&
              KeepsCounts(r, items, selectedCategory)
    ensures IsSubsequence(r, items) && |r| <= |items|
  {
    if selectedCategory == AllCategories then (SubsequenceOfSelf(items); items)
    else FilterByCategory(items, selectedCategory)
  }

  lemma {:induction false} SubsequenceOfSelf<T>(s: seq<T>)
    ensures IsSubsequence(s, s)
    decreases |s|
  {
    if s != [] {
      SubsequenceOfSelf(s[1..]);
    }
  }

  /** When every item is in one of two distinct categories, the two filters
      split the list between them. */
  lemma {:induction false} TwoCategoriesPartition(items: seq<Item>, a: string, b: string)
    requires a != b
    requires forall i :: 0 <= i < |items| ==> items[i].category == a || items[i].category == b
    ensures |FilterByCategory(items, a)| + |FilterByCategory(items, b)| == |items|
    decreases |items|
  {
    if items != [] {
      assert forall i :: 0 <= i < |items| - 1 ==> items[1..][i] == items[i + 1];
      TwoCategoriesPartition(items[1..], a, b);
    }
  }

  /** Every project falls under one of the two category buttons after "All". */
  lemma EveryProjectCategorised()
    ensures forall i :: 0 <= i < |PortfolioItems| ==> PortfolioItems[i].category in Categories[1..]
    ensures forall i :: 0 <= i < |PortfolioItems| ==>
              PortfolioItems[i].category == "Residential" || PortfolioItems[i].category == "Commercial"
  {
  }

  /** The filter of a list with a first item. */
  lemma FilterCons(x: Item, rest: seq<Item>, category: string)
    ensures FilterByCategory([x] + rest, category) ==
            if x.category == category then [x] + FilterByCategory(rest, category)
            else FilterByCategory(rest, category)
  {
    assert ([x] + rest)[1..] == rest;
  }

  /** The filter of a concatenation is the concatenation of the filters. */
  lemma {:induction false} FilterAppend(a: seq<Item>, b: seq<Item>, category: string)
    ensures FilterByCategory(a + b, category) == FilterByCategory(a, category) + FilterByCategory(b, category)
    decreases |a|
  {
    if a == [] {
      assert a + b == b;
    } else {
      FilterAppend(a[1..], b, category);
      FilterHead(a + b, category);
      assert (a + b)[1..] == a[1..] + b;
      FilterHead(a, category);
    }
  }

  /** The filter of a non-empty list keeps or drops its head, then filters the rest. */
  lemma FilterHead(items: seq<Item>, category: string)
    requires items != []
    ensures FilterByCategory(items, category) ==
            (if items[0].category == category then [items[0]] else []) + FilterByCategory(items[1..], category)
  {
  }

  /** A list with no item of `category` filters to nothing. */
  lemma NoneMatch(items: seq<Item>, category: string)
    requires forall i :: 0 <= i < |items| ==> items[i].category != category
    ensures FilterByCategory(items, category) == []
  {
  }

  /** In a list of six whose fifth item alone is in `category`, the filter keeps
      just that item. */
  lemma OnlyFifthMatches(p: seq<Item>, category: string)
    requires |p| == 6 && p[4].category == category
    requires p[0].category != category && p[1].category != category && p[2].category != category
    requires p[3].category != category && p[5].category != category
    ensures FilterByCategory(p, category) == [p[4]]
  {
    assert p == p[..4] + ([p[4]] + p[5..]);
    FilterAppend(p[..4], [p[4]] + p[5..], category);
    FilterAppend([p[4]], p[5..], category);
    NoneMatch(p[..4], category);
    NoneMatch(p[5..], category);
    FilterCons(p[4], [], category);
    assert [p[4]] + [] == [p[4]];
  }

  /** Only the fifth project is commercial. */
  lemma CommercialProjects()
    ensures FilterByCategory(PortfolioItems, "Commercial") == [PortfolioItems[4]]
  {
    var p := PortfolioItems;
    assert p[0].category == "Residential" && p[1].category == "Residential";
    assert p[2].category == "Residential" && p[3].category == "Residential";
    assert p[4].category == "Commercial" && p[5].category == "Residential";
    OnlyFifthMatches(p, "Commercial");
  }

  /** Five residential projects and one commercial, and every filter shows at
      most the six projects. */
  lemma ShowcaseCounts(category: string)
    ensures |FilterByCategory(PortfolioItems, "Commercial")| == 1
    ensures |FilterByCategory(PortfolioItems, "Residential")| == 5
    ensures |FilteredItems(PortfolioItems, category)| <= 6
  {
    CommercialProjects();
    EveryProjectCategorised();
    TwoCategoriesPartition(PortfolioItems, "Residential", "Commercial");
  }

  class ShowcasePage {
    var selectedCategory: string
    var selectedProject: Option<Item>

    constructor ()
      ensures selectedCategory == "All" && selectedProject == None
    {
      selectedCategory := AllCategories;
      selectedProject := None;
    }

    function Visible(): (r: seq<Item>)
      reads this
      ensures IsSubsequence(r, PortfolioItems) && |r| <= 6
    {
      FilteredItems(PortfolioItems, selectedCategory)
    }

    /** The dialog's `open` prop. */
    predicate DialogOpen()
      reads this
    {
      selectedProject.Some?
    }

    /** A click on a category button; the open project, if any, stays. */
    method SelectCategory(category: string)
      modifies this
      ensures selectedCategory == category && selectedProject == old(selectedProject)
      ensures Visible() == FilteredItems(PortfolioItems, category)
    {
      selectedCategory := category;
    }

    /** A click on a project tile opens its details. */
    method OpenProject(item: Item)
      modifies this
      ensures selectedProject == Some(item) && DialogOpen()
      ensures selectedCategory == old(selectedCategory)
    {
      selectedProject := Some(item);
    }

    /** The dialog's `onOpenChange`, which always clears the selection. */
    method OpenChange()
      modifies this
      ensures selectedProject == None && !DialogOpen()
      ensures selectedCategory == old(selectedCategory)
    {
      selectedProject := None;
    }
  }
}
