/** The product catalogue page: the search-and-category filter over the
    product list and the "Reset Filter" control. */
module Products {
  import opened Common

  datatype Product = Product(
    id: int,
    name: string,
    description: string,
    price: int,
    stockQuantity: int,
    imageUrls: Option<seq<string>>,
    categoryId: int,
    categoryName: string)

  /** `toLowerCase` on one character, for the ASCII letters. */
  function LowerChar(c: char): char
  {
    if 'A' <= c <= 'Z' then (c as int + 32) as char else c
  }

  function ToLower(s: string): string
  {
    seq(|s|, i requires 0 <= i < |s| => LowerChar(s[i]))
  }

  /** `needle` occurs in `haystack` starting at position `i`. */
  predicate OccursAt(haystack: string, needle: string, i: int)
  {
    0 <= i <= |haystack| - |needle| && haystack[i..i + |needle|] == needle
  }

  /** `haystack.includes(needle)`: the needle occurs at some position. */
  function Includes(haystack: string, needle: string): (r: bool)
    ensures r <==> exists i :: OccursAt(haystack, needle, i)
    decreases |haystack|
  {
    if |needle| > |haystack| then false
    else if haystack[..|needle|] == needle then assert OccursAt(haystack, needle, 0); true
    else
      var r := Includes(haystack[1..], needle);
      assert r ==> exists i :: OccursAt(haystack, needle, i) by {
        if r {
          var j :| OccursAt(haystack[1..], needle, j);
          assert haystack[j + 1..j + 1 + |needle|] == haystack[1..][j..j + |needle|];
          assert OccursAt(haystack, needle, j + 1);
        }
      }
      assert (exists i :: OccursAt(haystack, needle, i)) ==> r by {
        if exists i :: OccursAt(haystack, needle, i) {
          var i :| OccursAt(haystack, needle, i);
          assert i != 0;
          assert haystack[1..][i - 1..i - 1 + |needle|] == haystack[i..i + |needle|];
          assert OccursAt(haystack[1..], needle, i - 1);
        }
      }
      r
  }

  /** The text filter: the lower-cased name or description contains the
      lower-cased search term. */
  function MatchesSearch(p: Product, term: string): (r: bool)
    ensures r <==> ((exists i :: OccursAt(ToLower(p.name), ToLower(term), i))
                    || (exists i :: OccursAt(ToLower(p.description), ToLower(term), i)))
    ensures term == "" ==> r
  {
    assert term == "" ==> OccursAt(ToLower(p.name), ToLower(term), 0);
    Includes(ToLower(p.name), ToLower(term)) || Includes(ToLower(p.description), ToLower(term))
  }

  predicate IsSpace(c: char)
  {
    c == ' ' || c == '\t' || c == '\n' || c == '\r' || c == '\U{000B}' || c == '\U{000C}'
  }

  /** `s` without its leading white space: a suffix of `s` that does not
      start with white space, and everything cut off was white space. */
  function TrimStart(s: string): (r: string)
    ensures |r| <= |s| && (r == [] || !IsSpace(r[0]))
    ensures r == s[|s| - |r|..]
    ensures forall i :: 0 <= i < |s| - |r| ==> IsSpace(s[i])
  {
    if s != [] && IsSpace(s[0]) then TrimStart(s[1..]) else s
  }

  /** The longest prefix of `s` made of decimal digits. */
  function DigitPrefix(s: string): (r: string)
    ensures AllDigits(r) && |r| <= |s| && r == s[..|r|]
    ensures |r| < |s| ==> !IsDigit(s[|r|])
  {
    if s != [] && IsDigit(s[0]) then
      var rest := DigitPrefix(s[1..]);
      assert ([s[0]] + rest)[1..] == rest;
      [s[0]] + rest
    else []
  }

  /** `parseInt` without a radix: leading white space, an optional sign and
      the longest run of decimal digits; `None` stands for `NaN`. */
  function ParseInt(s: string): (r: Option<int>)
    ensures (forall i :: 0 <= i < |s| ==> !IsDigit(s[i])) ==> r.None?
    ensures s != [] && IsDigit(s[0]) ==> r.Some? && r.value >= 0
  {
    var t := TrimStart(s);
    var negative := t != [] && t[0] == '-';
    var unsigned := if t != [] && (t[0] == '-' || t[0] == '+') then t[1..] else t;
    var digits := DigitPrefix(unsigned);
    var magnitude: int := if digits == [] then 0 else DigitsValue(digits);
    assert digits != [] ==> digits[0] == s[|s| - |unsigned|];
    if digits == [] then None else Some(if negative then -magnitude else magnitude)
  }

  /** The category values the select offers, other than "all", parse back
      to the category id they were printed from, and "all" is no number. */
  lemma ParseIntOfNumeral(n: nat)
    ensures ParseInt(DecimalString(n)) == Some(n)
    ensures ParseInt("all") == None
  {
    var s := DecimalString(n);
    assert !IsSpace(s[0]) && s[0] != '-' && s[0] != '+';
    assert TrimStart(s) == s;
    assert DigitPrefix(s) == s;
    DecimalRoundTrip(n);
    assert "all"[0] == 'a';
  }

  /** The category filter: the product's category id equals the selected
      category read as an integer (`NaN` equals nothing). */
  function MatchesCategory(p: Product, category: string): (r: bool)
    ensures category == "all" || category == "" ==> !r
    ensures p.categoryId >= 0 && category == DecimalString(p.categoryId) ==> r
  {
    var matches := ParseInt(category) == Some(p.categoryId);
    if p.categoryId >= 0 then ParseIntOfNumeral(p.categoryId); matches else matches
  }

  /** A product is shown iff it passes every active filter: the text filter
      is active for a non-empty term, the category filter for any category
      other than "all". */
  function Shown(p: Product, searchTerm: string, selectedCategory: string): (r: bool)
    ensures searchTerm == "" && selectedCategory == "all" ==> r
    ensures r <==> MatchesSearch(p, searchTerm) && (selectedCategory != "all" ==> MatchesCategory(p, selectedCategory))
  {
    && (searchTerm != "" ==> MatchesSearch(p, searchTerm))
    && (selectedCategory != "all" ==> MatchesCategory(p, selectedCategory))
  }

  /** The filter effect: a copy of the products, filtered by the search
      term when there is one, then by the category unless it is "all". */
  function FilterProducts(products: seq<Product>, searchTerm: string, selectedCategory: string): (r: seq<Product>)
    ensures IsSubsequence(r, products)
    ensures |r| <= |products|
    ensures forall i :: 0 <= i < |r| ==> r[i] in products && Shown(r[i], searchTerm, selectedCategory)
    ensures forall i :: 0 <= i < |products| && Shown(products[i], searchTerm, selectedCategory) ==> products[i] in r
  {
    var afterSearch :=
      if searchTerm != "" then Filter(products, (p: Product) => MatchesSearch(p, searchTerm)) else products;
    var result :=
      if selectedCategory != "all" then Filter(afterSearch, (p: Product) => MatchesCategory(p, selectedCategory))
      else afterSearch;
    SubsequenceReflexive(products);
    SubsequenceReflexive(afterSearch);
    SubsequenceTransitive(result, afterSearch, products);
    SubsequenceLength(result, products);
    result
  }

  /** "Reset Filter" sets the term to "" and the category to "all", which
      shows the whole list. */
  lemma ResetShowsEverything(products: seq<Product>)
    ensures FilterProducts(products, "", "all") == products
  {
  }

  /** Choosing a category from the select (its value is the id's numeral)
      with an empty search shows exactly the products of that category. */
  lemma CategorySelectsById(products: seq<Product>, n: nat)
    ensures var r := FilterProducts(products, "", DecimalString(n));
      && (forall i :: 0 <= i < |r| ==> r[i].categoryId == n)
      && (forall i :: 0 <= i < |products| && products[i].categoryId == n ==> products[i] in r)
  {
    ParseIntOfNumeral(n);
  }

  /** An empty search term is no filter even with the text lower-cased:
      applying the text filter with "" keeps the whole list. */
  lemma EmptyTermFiltersNothing(products: seq<Product>)
    ensures Filter(products, (p: Product) => MatchesSearch(p, "")) == products
  {
    assert forall i :: 0 <= i < |products| ==> MatchesSearch(products[i], "");
  }
}
