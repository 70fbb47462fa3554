/**
 * The catalog filter of the shop page (`filteredProducts` in src/pages/Shop.tsx).
 *
 * A product is listed when its name contains the search term, ignoring case, and its
 * category is the selected one; the category "All" selects every category. The filter
 * keeps the catalog's order.
 */
module Shop {
  import opened Store

  /** The category that places no restriction. */
  const All: string := "All"

  /** The selectable categories, in the order the page shows them. */
  const Categories: seq<string> := [All, "Electronics", "Accessories", "Furniture"]

  /** ASCII lower-casing of one character. */
  function LowerChar(c: char): (r: char)
    ensures !('A' <= r <= 'Z')
    ensures r != c <==> 'A' <= c <= 'Z'
    ensures 'A' <= c <= 'Z' ==> 'a' <= r <= 'z'
  {
    if 'A' <= c <= 'Z' then (c as int + 32) as char else c
  }

  /** `toLowerCase`, restricted to ASCII letters. */
  function ToLower(s: string): (r: string)
    ensures |r| == |s|
  {
    if s == [] then [] else [LowerChar(s[0])] + ToLower(s[1..])
  }

  /** Character by character, `ToLower` lower-cases each letter and keeps the rest. */
  lemma {:induction false} ToLowerChars(s: string)
    ensures forall i :: 0 <= i < |s| ==> ToLower(s)[i] == LowerChar(s[i])
  {
    if s != [] {
      ToLowerChars(s[1..]);
    }
  }

  /** `includes`: `t` is a prefix of `s` or occurs further on; a term longer than the
      string never occurs in it. */
  function Includes(s: string, t: string): (r: bool)
    ensures r ==> |t| <= |s|
  {
    t <= s || (s != [] && Includes(s[1..], t))
  }

  /** `Includes` holds exactly when `t` occurs in `s` at some position. */
  lemma {:induction false} IncludesIffOccurs(s: string, t: string)
    ensures Includes(s, t) <==> exists i :: 0 <= i <= |s| && t <= s[i..]
  {
    assert s[0..] == s;
    if s != [] {
      IncludesIffOccurs(s[1..], t);
      assert forall j :: 0 <= j <= |s| - 1 ==> s[1..][j..] == s[j + 1..];
      if !(t <= s) && exists i :: 0 <= i <= |s| && t <= s[i..] {
        var i :| 0 <= i <= |s| && t <= s[i..];
        assert i > 0;
        assert t <= s[1..][i - 1..];
      }
    }
  }

  /** The search test: the lower-cased name contains the lower-cased term. An empty
      term matches every name; a term longer than the name matches none. */
  function MatchesSearch(p: Product, searchTerm: string): (r: bool)
    ensures searchTerm == [] ==> r
    ensures r ==> |searchTerm| <= |p.name|
  {
    IncludesEmpty(ToLower(p.name));
    Includes(ToLower(p.name), ToLower(searchTerm))
  }

  /** The category test: "All" admits every product, any other category only its own. */
  function MatchesCategory(p: Product, selectedCategory: string): (r: bool)
    ensures selectedCategory == All ==> r
    ensures selectedCategory != All ==> (r <==> p.category == selectedCategory)
  {
    selectedCategory == All || p.category == selectedCategory
  }

  /** Both tests of the filter: under "All" only the search decides, and with an empty
      term only the category decides. */
  function Matches(p: Product, searchTerm: string, selectedCategory: string): (r: bool)
    ensures selectedCategory == All ==> (r <==> MatchesSearch(p, searchTerm))
    ensures searchTerm == [] ==> (r <==> MatchesCategory(p, selectedCategory))
  {
    MatchesSearch(p, searchTerm) && MatchesCategory(p, selectedCategory)
  }

  /** `filteredProducts`: the products that pass both tests, in catalog order. */
  function FilteredProducts(products: seq<Product>, searchTerm: string, selectedCategory: string): (r: seq<Product>)
    ensures |r| <= |products|
  {
    if products == [] then []
    else if Matches(products[0], searchTerm, selectedCategory) then
      [products[0]] + FilteredProducts(products[1..], searchTerm, selectedCategory)
    else FilteredProducts(products[1..], searchTerm, selectedCategory)
  }

  /** Exactly the products that pass both tests are listed. */
  lemma {:induction false} FilteredMembers(products: seq<Product>, searchTerm: string, selectedCategory: string)
    ensures forall x :: x in FilteredProducts(products, searchTerm, selectedCategory) <==>
      x in products && Matches(x, searchTerm, selectedCategory)
  {
    if products != [] {
      FilteredMembers(products[1..], searchTerm, selectedCategory);
      assert products == [products[0]] + products[1..];
    }
  }

  /** The filter keeps the order: it acts on each part of a concatenation separately. */
  lemma {:induction false} FilteredConcat(a: seq<Product>, b: seq<Product>, searchTerm: string, selectedCategory: string)
    ensures FilteredProducts(a + b, searchTerm, selectedCategory)
         == FilteredProducts(a, searchTerm, selectedCategory) + FilteredProducts(b, searchTerm, selectedCategory)
  {
    if a == [] {
      assert a + b == b;
    } else {
      assert (a + b)[0] == a[0] && (a + b)[1..] == a[1..] + b;
      FilteredConcat(a[1..], b, searchTerm, selectedCategory);
      if Matches(a[0], searchTerm, selectedCategory) {
        var fa, fb := FilteredProducts(a[1..], searchTerm, selectedCategory), FilteredProducts(b, searchTerm, selectedCategory);
        assert [a[0]] + (fa + fb) == ([a[0]] + fa) + fb;
      }
    }
  }

  /** A selected category other than "All" lists only products of that category. */
  lemma {:induction false} CategoryRestricts(products: seq<Product>, searchTerm: string, selectedCategory: string)
    requires selectedCategory != All
    ensures forall x :: x in FilteredProducts(products, searchTerm, selectedCategory) ==>
      x.category == selectedCategory
  {
    FilteredMembers(products, searchTerm, selectedCategory);
  }

  /** "All" places no restriction on the category: only the search test decides. */
  lemma {:induction false} AllIsUnrestricted(products: seq<Product>, searchTerm: string)
    ensures forall x :: x in FilteredProducts(products, searchTerm, All) <==>
      x in products && MatchesSearch(x, searchTerm)
  {
    FilteredMembers(products, searchTerm, All);
  }

  /** Choosing a category narrows the "All" listing and nothing else: filtering the "All"
      listing by a category gives the listing for that category. */
  lemma {:induction false} CategoryRefinesAll(products: seq<Product>, searchTerm: string, selectedCategory: string)
    ensures FilteredProducts(FilteredProducts(products, searchTerm, All), searchTerm, selectedCategory)
         == FilteredProducts(products, searchTerm, selectedCategory)
  {
    if products != [] {
      CategoryRefinesAll(products[1..], searchTerm, selectedCategory);
      var rest := FilteredProducts(products[1..], searchTerm, All);
      if Matches(products[0], searchTerm, All) {
        assert FilteredProducts(products, searchTerm, All) == [products[0]] + rest;
        assert ([products[0]] + rest)[1..] == rest;
      }
    }
  }

  /** Every string contains the empty string. */
  lemma IncludesEmpty(s: string)
    ensures Includes(s, [])
  {
  }

  /** An empty search term with "All" selected lists the whole catalog, in order. */
  lemma {:induction false} EmptySearchListsAll(products: seq<Product>)
    ensures FilteredProducts(products, "", All) == products
  {
    if products != [] {
      IncludesEmpty(ToLower(products[0].name));
      EmptySearchListsAll(products[1..]);
      assert products == [products[0]] + products[1..];
    }
  }

  /** An empty search term lists exactly the catalog's products of the selected category. */
  lemma EmptySearchListsCategory(products: seq<Product>, selectedCategory: string)
    ensures forall x :: x in FilteredProducts(products, "", selectedCategory) <==>
      x in products && MatchesCategory(x, selectedCategory)
  {
    FilteredMembers(products, "", selectedCategory);
  }

  /** When every product belongs to one of the selectable categories, the "All" listing is
      exactly what the other selectable categories list between them. */
  lemma CategoriesCoverAll(products: seq<Product>, searchTerm: string)
    requires forall x :: x in products ==> x.category in Categories[1..]
    ensures forall x :: x in FilteredProducts(products, searchTerm, All) <==>
      exists c :: c in Categories[1..] && x in FilteredProducts(products, searchTerm, c)
  {
    FilteredMembers(products, searchTerm, All);
    forall c | c in Categories[1..] {
      FilteredMembers(products, searchTerm, c);
    }
    forall x | x in FilteredProducts(products, searchTerm, All)
      ensures exists c :: c in Categories[1..] && x in FilteredProducts(products, searchTerm, c)
    {
      FilteredMembers(products, searchTerm, x.category);
    }
  }

  /** Two terms that differ only in the case of their letters. */
  ghost predicate SameUpToCase(a: string, b: string) {
    |a| == |b| && forall i :: 0 <= i < |a| ==> LowerChar(a[i]) == LowerChar(b[i])
  }

  /** The search ignores case: terms that differ only in letter case list the same products. */
  lemma {:induction false} SearchIgnoresCase(products: seq<Product>, t1: string, t2: string, selectedCategory: string)
    requires SameUpToCase(t1, t2)
    ensures FilteredProducts(products, t1, selectedCategory) == FilteredProducts(products, t2, selectedCategory)
  {
    ToLowerChars(t1);
    ToLowerChars(t2);
    assert ToLower(t1) == ToLower(t2);
    if products != [] {
      SearchIgnoresCase(products[1..], t1, t2, selectedCategory);
    }
  }

  /** Lower-casing the term beforehand changes nothing. */
  lemma LowerTermSameListing(products: seq<Product>, searchTerm: string, selectedCategory: string)
    ensures FilteredProducts(products, ToLower(searchTerm), selectedCategory)
         == FilteredProducts(products, searchTerm, selectedCategory)
  {
    ToLowerChars(searchTerm);
    SearchIgnoresCase(products, ToLower(searchTerm), searchTerm, selectedCategory);
  }
}
