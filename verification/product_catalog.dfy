/**
 * The catalog view: the category list built from the loaded products, the
 * category-and-query filter, the selection set and the products handed to the
 * card generator.
 */
module ProductCatalog {
  import opened Strings
  import opened Seqs
  import opened Products

  const AllProducts: string := "All Products"

  // ---------------------------------------------------------------------------
  // The order of JavaScript's default `sort()` on strings.

  /** Character by character (JavaScript's code-unit order outside surrogate pairs); a proper prefix comes first. */
  predicate StrLess(a: string, b: string)
    decreases |a|
  {
    if a == [] then b != []
    else if b == [] then false
    else a[0] < b[0] || (a[0] == b[0] && StrLess(a[1..], b[1..]))
  }

  lemma {:induction false} StrLessIrreflexive(a: string)
    ensures !StrLess(a, a)
  {
    if a != [] {
      StrLessIrreflexive(a[1..]);
    }
  }

  lemma {:induction false} StrLessTransitive(a: string, b: string, c: string)
    requires StrLess(a, b) && StrLess(b, c)
    ensures StrLess(a, c)
    decreases |a|
  {
    if a != [] && a[0] == b[0] && b[0] == c[0] {
      StrLessTransitive(a[1..], b[1..], c[1..]);
    }
  }

  lemma {:induction false} StrLessTotal(a: string, b: string)
    requires a != b
    ensures StrLess(a, b) || StrLess(b, a)
    decreases |a|
  {
    if a != [] && b != [] && a[0] == b[0] {
      assert a == [a[0]] + a[1..] && b == [b[0]] + b[1..];
      StrLessTotal(a[1..], b[1..]);
    }
  }

  predicate StrictlySorted(s: seq<string>)
  {
    forall i, j :: 0 <= i < j < |s| ==> StrLess(s[i], s[j])
  }

  /** `x` placed into a sorted list without duplicates. */
  function Insert(s: seq<string>, x: string): (r: seq<string>)
    ensures forall y :: y in r <==> y in s || y == x
  {
    if s == [] then [x]
    else if s[0] == x then s
    else if StrLess(x, s[0]) then [x] + s
    else [s[0]] + Insert(s[1..], x)
  }

  lemma {:induction false} InsertSorted(s: seq<string>, x: string)
    requires StrictlySorted(s)
    ensures StrictlySorted(Insert(s, x))
  {
    if s != [] && s[0] != x {
      if StrLess(x, s[0]) {
        var r := [x] + s;
        forall i, j | 0 <= i < j < |r|
          ensures StrLess(r[i], r[j])
        {
          if i == 0 && j > 1 {
            StrLessTransitive(x, s[0], s[j - 1]);
          }
        }
      } else {
        StrLessTotal(x, s[0]);
        InsertSorted(s[1..], x);
        var r := Insert(s, x);
        var t := Insert(s[1..], x);
        assert r == [s[0]] + t;
        forall j | 0 < j < |r|
          ensures StrLess(s[0], r[j])
        {
          assert r[j] in t;
        }
      }
    }
  }

  /** `[...new Set(xs)].sort()`. */
  function SortedUnique(xs: seq<string>): (r: seq<string>)
    ensures forall y :: y in r <==> y in xs
  {
    if xs == [] then []
    else Insert(SortedUnique(xs[..|xs| - 1]), xs[|xs| - 1])
  }

  lemma {:induction false} SortedUniqueSorted(xs: seq<string>)
    ensures StrictlySorted(SortedUnique(xs))
  {
    if xs != [] {
      SortedUniqueSorted(xs[..|xs| - 1]);
      InsertSorted(SortedUnique(xs[..|xs| - 1]), xs[|xs| - 1]);
    }
  }

  /** There is one strictly sorted list of a given set of strings. */
  lemma {:induction false} StrictlySortedUnique(a: seq<string>, b: seq<string>)
    requires StrictlySorted(a) && StrictlySorted(b)
    requires forall y :: y in a <==> y in b
    ensures a == b
  {
    if a == [] {
      NoMembersEmpty(b);
    } else if b == [] {
      NoMembersEmpty(a);
    } else {
      if a[0] != b[0] {
        assert a[0] in b && b[0] in a;
        var i :| 0 <= i < |b| && b[i] == a[0];
        var j :| 0 <= j < |a| && a[j] == b[0];
        StrLessIrreflexive(a[0]);
        StrLessTransitive(a[0], b[0], a[0]);
        assert false;
      }
      forall y
        ensures y in a[1..] <==> y in b[1..]
      {
        assert a == [a[0]] + a[1..] && b == [b[0]] + b[1..];
        if y in a[1..] {
          var i :| 1 <= i < |a| && a[i] == y;
          StrLessIrreflexive(y);
          assert y in b && y != b[0];
        }
        if y in b[1..] {
          var i :| 1 <= i < |b| && b[i] == y;
          StrLessIrreflexive(y);
          assert y in a && y != a[0];
        }
      }
      StrictlySortedUnique(a[1..], b[1..]);
      assert a == [a[0]] + a[1..] && b == [b[0]] + b[1..];
    }
  }

  lemma NoMembersEmpty(s: seq<string>)
    ensures (forall y :: y !in s) ==> s == []
  {
    if s != [] {
      assert s[0] in s;
    }
  }

  // ---------------------------------------------------------------------------
  // The category list.

  datatype CategoryEntry = CategoryEntry(name: string, count: nat)

  /** `p.category?.trim()`. */
  function TrimmedCategory(p: Product): string
  {
    Trim(p.category)
  }

  function TrimmedCategories(products: seq<Product>): (r: seq<string>)
    ensures |r| == |products|
    ensures forall k :: 0 <= k < |r| ==> r[k] == TrimmedCategory(products[k])
  {
    seq(|products|, k requires 0 <= k < |products| => TrimmedCategory(products[k]))
  }

  /** The products whose trimmed category is `c`. */
  function InCategory(c: string): Product -> bool
  {
    (p: Product) => TrimmedCategory(p) == c
  }

  /** `products.filter(p => p.category?.trim() === cat).length`. */
  function CategoryCount(products: seq<Product>, c: string): nat
  {
    |Filter(products, InCategory(c))|
  }

  predicate HasCategory(products: seq<Product>, c: string)
  {
    exists k :: 0 <= k < |products| && TrimmedCategory(products[k]) == c
  }

  const NonEmptyName: string -> bool := (c: string) => c != ""
  const NonEmptyEntry: CategoryEntry -> bool := (e: CategoryEntry) => e.count > 0

  /** The distinct non-empty trimmed categories, sorted. */
  function CategoryNames(products: seq<Product>): seq<string>
  {
    SortedUnique(Filter(TrimmedCategories(products), NonEmptyName))
  }

  /** Each name with the number of products filed under it. */
  function Entries(products: seq<Product>, names: seq<string>): (r: seq<CategoryEntry>)
    ensures |r| == |names|
    ensures forall k :: 0 <= k < |r| ==> r[k] == CategoryEntry(names[k], CategoryCount(products, names[k]))
  {
    seq(|names|, k requires 0 <= k < |names| => CategoryEntry(names[k], CategoryCount(products, names[k])))
  }

  /** The category entries: "All Products" with the total, then each category with its count, keeping non-zero counts. */
  function CategoryList(products: seq<Product>): (r: seq<CategoryEntry>)
    ensures 1 <= |r| <= |CategoryNames(products)| + 1
    ensures r[0] == CategoryEntry(AllProducts, |products|)
  {
    [CategoryEntry(AllProducts, |products|)] + Filter(Entries(products, CategoryNames(products)), NonEmptyEntry)
  }

  lemma CategoryNameMember(products: seq<Product>, c: string)
    ensures c in CategoryNames(products) <==> c != "" && HasCategory(products, c)
  {
    CategoryNamesMembers(products);
  }

  /** A name is listed exactly when some product's trimmed category is that non-empty name. */
  lemma CategoryNamesMembers(products: seq<Product>)
    ensures forall c :: c in CategoryNames(products) <==> c != "" && HasCategory(products, c)
  {
    var cats := TrimmedCategories(products);
    forall c
      ensures c in CategoryNames(products) <==> c != "" && HasCategory(products, c)
    {
      if c != "" && HasCategory(products, c) {
        var i :| 0 <= i < |products| && TrimmedCategory(products[i]) == c;
        assert cats[i] == c;
      }
      if c in cats {
        var i :| 0 <= i < |cats| && cats[i] == c;
      }
    }
  }

  /** Every listed name has at least one product, so the `count > 0` filter drops nothing. */
  lemma EntriesPositive(products: seq<Product>)
    ensures Filter(Entries(products, CategoryNames(products)), NonEmptyEntry) == Entries(products, CategoryNames(products))
  {
    var names := CategoryNames(products);
    var entries := Entries(products, names);
    CategoryNamesMembers(products);
    forall k | 0 <= k < |entries|
      ensures NonEmptyEntry(entries[k])
    {
      var c := names[k];
      assert c in names;
      var i :| 0 <= i < |products| && TrimmedCategory(products[i]) == c;
      assert InCategory(c)(products[i]);
      assert products[i] in Filter(products, InCategory(c));
    }
    FilterAll(entries, NonEmptyEntry);
  }

  /** After the first entry, the list is the names, each with its count. */
  lemma CategoryListShape(products: seq<Product>)
    ensures var r := CategoryList(products);
      var names := CategoryNames(products);
      && |r| == |names| + 1 && r[0] == CategoryEntry(AllProducts, |products|)
      && forall k :: 1 <= k < |r| ==> r[k] == CategoryEntry(names[k - 1], CategoryCount(products, names[k - 1]))
  {
    EntriesPositive(products);
  }

  /** The categories after "All Products" are in ascending order, without repeats. */
  lemma CategoryListSorted(products: seq<Product>)
    ensures var r := CategoryList(products);
      forall i, j :: 1 <= i < j < |r| ==> StrLess(r[i].name, r[j].name)
  {
    var names := CategoryNames(products);
    SortedUniqueSorted(Filter(TrimmedCategories(products), NonEmptyName));
    CategoryListShape(products);
    var r := CategoryList(products);
    forall i, j | 1 <= i < j < |r|
      ensures StrLess(r[i].name, r[j].name)
    {
      assert r[i].name == names[i - 1] && r[j].name == names[j - 1];
    }
  }

  /** Exactly the non-empty trimmed categories of the products are listed. */
  lemma CategoryListMembers(products: seq<Product>, c: string)
    ensures var r := CategoryList(products);
      (exists k :: 1 <= k < |r| && r[k].name == c) <==> c != "" && HasCategory(products, c)
  {
    var names := CategoryNames(products);
    CategoryNameMember(products, c);
    CategoryListShape(products);
    var r := CategoryList(products);
    if c in names {
      var k :| 0 <= k < |names| && names[k] == c;
      assert r[k + 1].name == c;
    } else {
      forall k | 1 <= k < |r|
        ensures r[k].name != c
      {
        assert r[k].name == names[k - 1];
      }
    }
  }

  /** Every listed category carries the number of its products, which is never zero. */
  lemma CategoryListCounts(products: seq<Product>)
    ensures var r := CategoryList(products);
      forall k :: 1 <= k < |r| ==> r[k].count == CategoryCount(products, r[k].name) > 0
  {
    var names := CategoryNames(products);
    var entries := Entries(products, names);
    EntriesPositive(products);
    CategoryListShape(products);
    var r := CategoryList(products);
    forall k | 1 <= k < |r|
      ensures r[k].count == CategoryCount(products, r[k].name) > 0
    {
      assert r[k] == entries[k - 1];
      assert NonEmptyEntry(entries[k - 1]) by {
        assert entries[k - 1] in Filter(entries, NonEmptyEntry);
      }
    }
  }

  /**
   * The list starts with "All Products" and the number of products; then come the
   * distinct non-empty trimmed categories in ascending order, each with the
   * number of products filed under it, which is never zero.
   */
  lemma CategoryListSpec(products: seq<Product>)
    ensures var r := CategoryList(products);
      && |r| >= 1 && r[0] == CategoryEntry(AllProducts, |products|)
      && (forall i, j :: 1 <= i < j < |r| ==> StrLess(r[i].name, r[j].name))
      && (forall c :: (exists k :: 1 <= k < |r| && r[k].name == c) <==> c != "" && HasCategory(products, c))
      && (forall k :: 1 <= k < |r| ==> r[k].count == CategoryCount(products, r[k].name) > 0)
  {
    CategoryListShape(products);
    CategoryListSorted(products);
    CategoryListCounts(products);
    var r := CategoryList(products);
    forall c
      ensures (exists k :: 1 <= k < |r| && r[k].name == c) <==> c != "" && HasCategory(products, c)
    {
      CategoryListMembers(products, c);
    }
  }

  /** The category names are the one sorted, duplicate-free list of the non-empty trimmed categories. */
  lemma CategoryNamesCharacterized(products: seq<Product>, names: seq<string>)
    requires StrictlySorted(names)
    requires forall c :: c in names <==> c != "" && HasCategory(products, c)
    ensures names == CategoryNames(products)
  {
    SortedUniqueSorted(Filter(TrimmedCategories(products), NonEmptyName));
    CategoryNamesMembers(products);
    StrictlySortedUnique(names, CategoryNames(products));
  }

  // ---------------------------------------------------------------------------
  // The filter effect.

  /** The products under the selected category; "All Products" keeps everything. */
  function CategoryFiltered(all: seq<Product>, selected: string): (r: seq<Product>)
    ensures IsSubsequence(r, all)
    ensures selected == AllProducts ==> r == all
    ensures forall p :: p in r <==> p in all && (selected == AllProducts || TrimmedCategory(p) == selected)
  {
    if selected == AllProducts then
      SubsequenceRefl(all);
      all
    else
      FilterIsSubsequence(all, InCategory(selected));
      Filter(all, InCategory(selected))
  }

  lemma {:induction false} SubsequenceRefl(s: seq<Product>)
    ensures IsSubsequence(s, s)
  {
    if s != [] {
      SubsequenceRefl(s[1..]);
    }
  }

  /** The visible products for a category selection and a query. */
  function FilterProducts(all: seq<Product>, selected: string, query: string): (r: seq<Product>)
    ensures IsSubsequence(r, all)
    ensures NormalizedQuery(query) == "" ==> r == CategoryFiltered(all, selected)
    ensures forall p :: p in r <==>
      && p in all
      && (selected == AllProducts || TrimmedCategory(p) == selected)
      && (NormalizedQuery(query) == "" || Matches(p, NormalizedQuery(query)))
  {
    var q := NormalizedQuery(query);
    var inCategory := CategoryFiltered(all, selected);
    if q == "" then inCategory
    else
      FilterIsSubsequence(inCategory, MatchesQuery(q));
      SubsequenceTransitive(Filter(inCategory, MatchesQuery(q)), inCategory, all);
      Filter(inCategory, MatchesQuery(q))
  }

  // ---------------------------------------------------------------------------
  // Selection.

  /** `handleSelectProduct`: an id not selected is added, a selected one removed. */
  function Toggle(selected: set<string>, id: string): (r: set<string>)
    ensures id in r <==> id !in selected
    ensures forall other :: other != id ==> (other in r <==> other in selected)
  {
    if id in selected then selected - {id} else selected + {id}
  }

  /** Toggling the same id twice restores the selection. */
  lemma ToggleTwice(selected: set<string>, id: string)
    ensures Toggle(Toggle(selected, id), id) == selected
  {
  }

  function IsSelected(selected: set<string>): Product -> bool
  {
    (p: Product) => p.product_id in selected
  }

  /** `handleGenerateCards`: the selected catalog products, in catalog order. */
  function SelectedForCards(all: seq<Product>, selected: set<string>): (r: seq<Product>)
    ensures IsSubsequence(r, all)
    ensures forall p :: p in r <==> p in all && p.product_id in selected
  {
    FilterIsSubsequence(all, IsSelected(selected));
    Filter(all, IsSelected(selected))
  }
}
