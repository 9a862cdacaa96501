/** The fixed product catalog and the live search-suggestion filter over it. */
module Catalog {
  import Text
  import opened Options

  /** A catalog entry; prices are whole currency units. */
  datatype Product = Product(name: string, price: int)

  /** The catalog, in display order. */
  const Products: seq<Product> := [
    Product("Denim Jacket", 35),
    Product("Dress", 50),
    Product("Sneakers", 45),
    Product("Crystal Earrings", 10),
    Product("Sun Hat", 20),
    Product("Curly Wig", 30),
    Product("Straight Wig", 25),
    Product("Heels", 50)
  ]

  predicate NamesUnique(catalog: seq<Product>)
  {
    forall i, j :: 0 <= i < j < |catalog| ==> catalog[i].name != catalog[j].name
  }

  /** No two catalog entries share a name. */
  lemma ProductsNamesUnique()
    ensures NamesUnique(Products)
  {
  }

  /** `catalog.find(p => p.name === name)`: the first entry with that name, if any. */
  function Find(catalog: seq<Product>, name: string): (r: Option<Product>)
    ensures r.None? <==> forall p :: p in catalog ==> p.name != name
    ensures r.Some? ==> exists i :: 0 <= i < |catalog| && catalog[i] == r.value &&
                                    r.value.name == name &&
                                    forall j :: 0 <= j < i ==> catalog[j].name != name
  {
    if catalog == [] then None
    else if catalog[0].name == name then Some(catalog[0])
    else
      var r := Find(catalog[1..], name);
      if r.Some? then
        var i :| 0 <= i < |catalog[1..]| && catalog[1..][i] == r.value && r.value.name == name &&
                 forall j :: 0 <= j < i ==> catalog[1..][j].name != name;
        assert catalog[i + 1] == r.value;
        r
      else
        r
  }

  /** In a catalog without duplicate names, Find returns exactly the entry with that name. */
  lemma FindUnique(catalog: seq<Product>, i: nat)
    requires NamesUnique(catalog) && i < |catalog|
    ensures Find(catalog, catalog[i].name) == Some(catalog[i])
  {
  }

  /** `s.filter(keep)`: the elements that `keep` accepts, in their original order. */
  function Filter<T>(s: seq<T>, keep: T -> bool): seq<T>
  {
    if s == [] then []
    else (if keep(s[0]) then [s[0]] else []) + Filter(s[1..], keep)
  }

  /** An element is kept exactly when it is in `s` and `keep` accepts it. */
  lemma {:induction false} FilterMembers<T>(s: seq<T>, keep: T -> bool, x: T)
    ensures x in Filter(s, keep) <==> x in s && keep(x)
  {
    if s != [] {
      FilterMembers(s[1..], keep, x);
      assert s == [s[0]] + s[1..];
    }
  }

  /** Filtering distributes over concatenation. */
  lemma {:induction false} FilterConcat<T>(a: seq<T>, b: seq<T>, keep: T -> bool)
    ensures Filter(a + b, keep) == Filter(a, keep) + Filter(b, keep)
  {
    if a == [] {
      assert a + b == b;
    } else {
      FilterConcat(a[1..], b, keep);
      var head := if keep(a[0]) then [a[0]] else [];
      assert (a + b)[0] == a[0];
      assert (a + b)[1..] == a[1..] + b;
      calc {
        Filter(a + b, keep);
        head + Filter(a[1..] + b, keep);
        head + (Filter(a[1..], keep) + Filter(b, keep));
        (head + Filter(a[1..], keep)) + Filter(b, keep);
        Filter(a, keep) + Filter(b, keep);
      }
    }
  }

  /** `r` is `s` with some elements dropped and the rest in their original order. */
  predicate SubsequenceOf<T(==)>(r: seq<T>, s: seq<T>)
    decreases |s|
  {
    if r == [] then true
    else if s == [] then false
    else (r[0] == s[0] && SubsequenceOf(r[1..], s[1..])) || SubsequenceOf(r, s[1..])
  }

  /** What a filter keeps is a subsequence of its input. */
  lemma {:induction false} FilterIsSubsequence<T>(s: seq<T>, keep: T -> bool)
    ensures SubsequenceOf(Filter(s, keep), s)
  {
    if s != [] {
      FilterIsSubsequence(s[1..], keep);
      var rest := Filter(s[1..], keep);
      if keep(s[0]) {
        assert Filter(s, keep) == [s[0]] + rest;
        assert ([s[0]] + rest)[1..] == rest;
      } else {
        assert Filter(s, keep) == rest;
      }
    }
  }

  /** `p.name.toLowerCase().includes(q)` */
  predicate NameMatches(p: Product, q: string)
  {
    Text.Contains(Text.Lower(p.name), q)
  }

  /** The filter callback for the lower-cased query `q`. */
  function MatchesQuery(q: string): Product -> bool
  {
    p => NameMatches(p, q)
  }

  /** The suggestions shown for a search-box value: none for an empty query,
      otherwise the catalog entries whose lower-cased name contains the lower-cased
      query, in catalog order. */
  function Suggestions(query: string): seq<Product>
  {
    var q := Text.Lower(query);
    if q == [] then [] else Filter(Products, MatchesQuery(q))
  }

  /** An empty query shows no suggestions. */
  lemma SuggestionsEmptyQuery()
    ensures Suggestions("") == []
  {
  }

  /** Suggestions for a non-empty query: exactly the matching catalog entries, as a
      subsequence of the catalog; the empty query has none. */
  lemma SuggestionsSpec(query: string)
    ensures query == [] ==> Suggestions(query) == []
    ensures query != [] ==> SubsequenceOf(Suggestions(query), Products)
    ensures forall p :: p in Suggestions(query) <==>
              query != [] && p in Products && Text.Contains(Text.Lower(p.name), Text.Lower(query))
  {
    if query != [] {
      var keep := MatchesQuery(Text.Lower(query));
      FilterIsSubsequence(Products, keep);
      forall p ensures p in Suggestions(query) <==> p in Products && Text.Contains(Text.Lower(p.name), Text.Lower(query)) {
        FilterMembers(Products, keep, p);
      }
    }
  }

  /** The search is blind to the letter case of the query: a query and its lower-cased
      form give the same suggestions. */
  lemma SuggestionsCaseInsensitive(query: string)
    ensures Suggestions(Text.Lower(query)) == Suggestions(query)
  {
    Text.LowerIdempotent(query);
  }

  predicate IsLetterS(c: char)
  {
    c == 's' || c == 'S'
  }

  /** No two neighbouring characters of `s` are both an s of either case. */
  predicate NoDoubleS(s: string)
  {
    forall i :: 0 <= i < |s| - 1 ==> !(IsLetterS(s[i]) && IsLetterS(s[i + 1]))
  }

  lemma {:induction false} NoDoubleSNotContained(s: string)
    requires NoDoubleS(s)
    ensures !Text.Contains(Text.Lower(s), "ss")
    decreases |s|
  {
    if s != [] {
      NoDoubleSNotContained(s[1..]);
      assert Text.Lower(s)[1..] == Text.Lower(s[1..]);
      if |s| >= 2 {
        assert Text.Lower(s)[..2] == [Text.LowerChar(s[0]), Text.LowerChar(s[1])];
      }
    }
  }

  /** When exactly the entry at `k` matches, it is the only suggestion. */
  lemma {:induction false} FilterSingle<T>(s: seq<T>, keep: T -> bool, k: nat)
    requires k < |s| && keep(s[k])
    requires forall i :: 0 <= i < |s| && i != k ==> !keep(s[i])
    ensures Filter(s, keep) == [s[k]]
  {
    if k == 0 {
      FilterNone(s[1..], keep);
    } else {
      FilterSingle(s[1..], keep, k - 1);
    }
  }

  lemma {:induction false} FilterNone<T>(s: seq<T>, keep: T -> bool)
    requires forall i :: 0 <= i < |s| ==> !keep(s[i])
    ensures Filter(s, keep) == []
  {
    if s != [] {
      FilterNone(s[1..], keep);
    }
  }

  /** Every catalog name but "Dress" is free of a double s. */
  lemma NamesWithoutDoubleS()
    ensures NoDoubleS("Denim Jacket") && NoDoubleS("Sneakers") && NoDoubleS("Crystal Earrings")
    ensures NoDoubleS("Sun Hat") && NoDoubleS("Curly Wig") && NoDoubleS("Straight Wig")
    ensures NoDoubleS("Heels")
  {
  }

  /** Of the catalog entries, only "Dress" contains "ss" once lower-cased. */
  lemma OnlyDressHasSs(i: nat)
    requires i < |Products| && i != 1
    ensures !NameMatches(Products[i], "ss")
  {
    NamesWithoutDoubleS();
    NoDoubleSNotContained(Products[i].name);
  }

  /** "dress" contains "ss". */
  lemma DressHasSs()
    ensures NameMatches(Products[1], "ss")
  {
    assert Products[1].name == "Dress";
    assert Text.Lower("Dress")[3..] == "ss";
  }

  /** Filtering the catalog for "ss" keeps the Dress entry alone. */
  lemma FilterForSs()
    ensures Filter(Products, MatchesQuery("ss")) == [Products[1]]
  {
    var keep := MatchesQuery("ss");
    DressHasSs();
    forall i | 0 <= i < |Products| && i != 1
      ensures !keep(Products[i])
    {
      OnlyDressHasSs(i);
    }
    FilterSingle(Products, keep, 1);
  }

  /** Typing "ss" in any letter case suggests Dress alone: "sneakers" has no double s. */
  lemma SuggestionsForSs(query: string)
    requires Text.Lower(query) == "ss"
    ensures Suggestions(query) == [Product("Dress", 50)]
  {
    FilterForSs();
  }
}
