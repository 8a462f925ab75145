/** Looking catalog objects up by name: `search_satellite`,
    `get_popular_satellites`, `suggest_satellites` and `smart_search`.

    Matching ignores case by lower-casing both sides; the model lower-cases the
    ASCII letters `A`..`Z` only. Results are listed in Python's string order,
    which compares code point by code point. */
module NameSearch {
  import opened Common
  import opened Catalog

  // ------------------------------------------------------------------ text

  function LowerChar(c: char): char
  {
    if 'A' <= c <= 'Z' then (c as int + 32) as char else c
  }

  /** `s.lower()` on ASCII letters. */
  function Lower(s: string): string
  {
    seq(|s|, i requires 0 <= i < |s| => LowerChar(s[i]))
  }

  /** `text.startswith(prefix)`. */
  predicate StartsWith(text: string, prefix: string)
  {
    |prefix| <= |text| && text[..|prefix|] == prefix
  }

  /** `pattern` sits in `text` at position `i`. */
  predicate OccursAt(pattern: string, text: string, i: nat)
  {
    i + |pattern| <= |text| && text[i..i + |pattern|] == pattern
  }

  /** `pattern in text`, trying each start position from the left. */
  predicate Occurs(pattern: string, text: string)
    decreases |text|
  {
    StartsWith(text, pattern) || (|text| > 0 && Occurs(pattern, text[1..]))
  }

  /** The left-to-right scan finds the pattern exactly when it sits at some
      position of the text. */
  lemma {:induction false} OccursIff(pattern: string, text: string)
    ensures Occurs(pattern, text) <==> exists i: nat :: OccursAt(pattern, text, i)
    decreases |text|
  {
    if StartsWith(text, pattern) {
      assert OccursAt(pattern, text, 0);
    } else if |text| == 0 {
      assert |pattern| > 0;
    } else {
      OccursIff(pattern, text[1..]);
      if Occurs(pattern, text[1..]) {
        var i: nat :| OccursAt(pattern, text[1..], i);
        assert text[1..][i..i + |pattern|] == text[i + 1..i + 1 + |pattern|];
        assert OccursAt(pattern, text, i + 1);
      }
      if exists i: nat :: OccursAt(pattern, text, i) {
        var i: nat :| OccursAt(pattern, text, i);
        assert i != 0;
        assert text[1..][i - 1..i - 1 + |pattern|] == text[i..i + |pattern|];
        assert OccursAt(pattern, text[1..], i - 1);
      }
    }
  }

  // ---------------------------------------------------------------- order

  /** Python's `a <= b` on strings. */
  predicate LexLeq(a: string, b: string)
  {
    |a| == 0 || (|b| > 0 && (a[0] < b[0] || (a[0] == b[0] && LexLeq(a[1..], b[1..]))))
  }

  lemma {:induction false} LexTotal(a: string, b: string)
    ensures LexLeq(a, b) || LexLeq(b, a)
  {
    if |a| > 0 && |b| > 0 && a[0] == b[0] {
      LexTotal(a[1..], b[1..]);
    }
  }

  lemma {:induction false} LexAntisymmetric(a: string, b: string)
    requires LexLeq(a, b) && LexLeq(b, a)
    ensures a == b
  {
    if |a| > 0 {
      LexAntisymmetric(a[1..], b[1..]);
      assert a == [a[0]] + a[1..] && b == [b[0]] + b[1..];
    }
  }

  lemma {:induction false} LexTransitive(a: string, b: string, c: string)
    requires LexLeq(a, b) && LexLeq(b, c)
    ensures LexLeq(a, c)
  {
    if |a| > 0 && a[0] == b[0] && b[0] == c[0] {
      LexTransitive(a[1..], b[1..], c[1..]);
    }
  }

  predicate Ascending(s: seq<string>)
  {
    forall i, j :: 0 <= i < j < |s| ==> LexLeq(s[i], s[j])
  }

  /** Places `x` before the first listed name it does not exceed. */
  function Insert(x: string, s: seq<string>): seq<string>
  {
    if s == [] || LexLeq(x, s[0]) then [x] + s else [s[0]] + Insert(x, s[1..])
  }

  /** `sorted(s)`. */
  function SortNames(s: seq<string>): seq<string>
  {
    if s == [] then [] else Insert(s[0], SortNames(s[1..]))
  }

  lemma PrependAscending(y: string, t: seq<string>)
    requires Ascending(t)
    requires forall k :: 0 <= k < |t| ==> LexLeq(y, t[k])
    ensures Ascending([y] + t)
  {
  }

  /** A lower bound of `s` and `x` bounds any rearrangement of `s` plus `x`. */
  lemma BoundStays(y: string, s: seq<string>, x: string, t: seq<string>)
    requires forall k :: 0 <= k < |s| ==> LexLeq(y, s[k])
    requires LexLeq(y, x)
    requires multiset(t) == multiset(s) + multiset{x}
    ensures forall k :: 0 <= k < |t| ==> LexLeq(y, t[k])
  {
    forall k | 0 <= k < |t|
      ensures LexLeq(y, t[k])
    {
      assert t[k] in multiset(t);
      if t[k] != x {
        assert t[k] in multiset(s);
        var m :| 0 <= m < |s| && s[m] == t[k];
      }
    }
  }

  /** A name no greater than the head of an ascending list goes in front. */
  lemma FrontAscending(x: string, s: seq<string>)
    requires Ascending(s)
    requires s == [] || LexLeq(x, s[0])
    ensures Ascending([x] + s)
  {
    forall j | 0 <= j < |s|
      ensures LexLeq(x, s[j])
    {
      if j > 0 {
        LexTransitive(x, s[0], s[j]);
      }
    }
    PrependAscending(x, s);
  }

  lemma {:induction false} InsertSorted(x: string, s: seq<string>)
    requires Ascending(s)
    ensures Ascending(Insert(x, s))
    ensures multiset(Insert(x, s)) == multiset(s) + multiset{x}
  {
    if s == [] || LexLeq(x, s[0]) {
      FrontAscending(x, s);
    } else {
      LexTotal(x, s[0]);
      InsertSorted(x, s[1..]);
      var t := Insert(x, s[1..]);
      BoundStays(s[0], s[1..], x, t);
      PrependAscending(s[0], t);
      assert s == [s[0]] + s[1..];
      assert Insert(x, s) == [s[0]] + t;
    }
  }

  /** `sorted` yields an ascending rearrangement of its input. */
  lemma {:induction false} SortNamesSorted(s: seq<string>)
    ensures Ascending(SortNames(s))
    ensures multiset(SortNames(s)) == multiset(s)
  {
    if s != [] {
      SortNamesSorted(s[1..]);
      InsertSorted(s[0], SortNames(s[1..]));
      assert s == [s[0]] + s[1..];
    }
  }

  lemma {:induction false} LexReflexive(a: string)
    ensures LexLeq(a, a)
  {
    if |a| > 0 {
      LexReflexive(a[1..]);
    }
  }

  /** The head of an ascending list is no greater than anything in it. */
  lemma HeadIsLeast(s: seq<string>, x: string)
    requires Ascending(s) && x in s
    ensures LexLeq(s[0], x)
  {
    var k :| 0 <= k < |s| && s[k] == x;
    if k == 0 {
      LexReflexive(x);
    }
  }

  lemma TailMultiset(s: seq<string>)
    requires s != []
    ensures multiset(s[1..]) == multiset(s) - multiset{s[0]}
  {
    assert s == [s[0]] + s[1..];
  }

  /** Two ascending rearrangements of the same names start alike. */
  lemma SameHead(s: seq<string>, t: seq<string>)
    requires Ascending(s) && Ascending(t)
    requires multiset(s) == multiset(t) && s != []
    ensures t != [] && s[0] == t[0]
    ensures multiset(s[1..]) == multiset(t[1..])
  {
    assert s[0] in multiset(s);
    assert s[0] in t;
    assert t[0] in multiset(t);
    HeadIsLeast(t, s[0]);
    HeadIsLeast(s, t[0]);
    LexAntisymmetric(s[0], t[0]);
    TailMultiset(s);
    TailMultiset(t);
  }

  /** Two ascending rearrangements of the same names are equal. */
  lemma {:induction false} AscendingUnique(s: seq<string>, t: seq<string>)
    requires Ascending(s) && Ascending(t)
    requires multiset(s) == multiset(t)
    ensures s == t
    decreases |s|
  {
    if s != [] {
      SameHead(s, t);
      AscendingUnique(s[1..], t[1..]);
      assert s == [s[0]] + s[1..] && t == [t[0]] + t[1..];
    } else {
      assert |t| == |multiset(t)| == 0;
    }
  }

  /** So `sorted(s)` is the one ascending arrangement of the names in `s`. */
  lemma SortNamesUnique(s: seq<string>, r: seq<string>)
    requires Ascending(r) && multiset(r) == multiset(s)
    ensures r == SortNames(s)
  {
    SortNamesSorted(s);
    AscendingUnique(r, SortNames(s));
  }

  lemma SortNamesSameNames(s: seq<string>, x: string)
    ensures x in SortNames(s) <==> x in s
  {
    SortNamesSorted(s);
    assert x in SortNames(s) <==> x in multiset(SortNames(s));
  }

  lemma {:induction false} DistinctCounts(s: seq<string>)
    ensures Distinct(s) <==> forall x :: multiset(s)[x] <= 1
  {
    if s != [] {
      var last := s[|s| - 1];
      var init := s[..|s| - 1];
      DistinctCounts(init);
      assert s == init + [last];
      if Distinct(s) {
        assert Distinct(init);
        assert last !in init;
      }
      if forall x :: multiset(s)[x] <= 1 {
        assert forall x :: multiset(init)[x] <= multiset(s)[x];
        assert multiset(init)[last] == 0;
        forall i, j | 0 <= i < j < |s|
          ensures s[i] != s[j]
        {
          if j == |s| - 1 {
            assert s[i] in init;
          } else {
            assert init[i] != init[j];
          }
        }
      }
    }
  }

  /** Sorting names that are all different leaves them all different. */
  lemma SortNamesDistinct(s: seq<string>)
    requires Distinct(s)
    ensures Distinct(SortNames(s))
  {
    SortNamesSorted(s);
    DistinctCounts(s);
    DistinctCounts(SortNames(s));
  }

  // ------------------------------------------------------ search_satellite

  /** The names, in catalog order, whose lower-cased form contains `term`. */
  function Matching(names: seq<string>, term: string): seq<string>
  {
    if names == [] then []
    else
      var rest := Matching(names[..|names| - 1], term);
      if Occurs(term, Lower(names[|names| - 1])) then rest + [names[|names| - 1]] else rest
  }

  lemma {:induction false} MatchingIff(names: seq<string>, term: string, x: string)
    ensures x in Matching(names, term) <==> x in names && Occurs(term, Lower(x))
  {
    if names != [] {
      MatchingIff(names[..|names| - 1], term, x);
      assert names == names[..|names| - 1] + [names[|names| - 1]];
    }
  }

  /** What `search_satellite(search_term)` returns. */
  function SearchResults(names: seq<string>, searchTerm: string): seq<string>
  {
    SortNames(Matching(names, Lower(searchTerm)))
  }

  /** The results are in ascending order and hold exactly the names that
      contain the term, ignoring case. */
  lemma SearchResultsSound(names: seq<string>, searchTerm: string)
    ensures Ascending(SearchResults(names, searchTerm))
    ensures forall x :: x in SearchResults(names, searchTerm) <==>
      x in names && Occurs(Lower(searchTerm), Lower(x))
  {
    SortNamesSorted(Matching(names, Lower(searchTerm)));
    forall x
      ensures x in SearchResults(names, searchTerm) <==>
        x in names && Occurs(Lower(searchTerm), Lower(x))
    {
      SortNamesSameNames(Matching(names, Lower(searchTerm)), x);
      MatchingIff(names, Lower(searchTerm), x);
    }
  }

  /** `search_satellite`: scans the catalog keys and sorts the matches. */
  method SearchSatellite(catalog: seq<Entry>, searchTerm: string) returns (matches: seq<string>)
    ensures matches == SearchResults(Names(catalog), searchTerm)
    ensures Ascending(matches)
    ensures forall x :: x in matches <==> x in Names(catalog) && Occurs(Lower(searchTerm), Lower(x))
  {
    var term := Lower(searchTerm);
    var names := Names(catalog);
    var found := [];
    for i := 0 to |names|
      invariant found == Matching(names[..i], term)
    {
      assert names[..i + 1][..i] == names[..i];
      if Occurs(term, Lower(names[i])) {
        found := found + [names[i]];
      }
    }
    assert names[..|names|] == names;
    matches := SortNames(found);
    SearchResultsSound(names, searchTerm);
  }

  // ------------------------------------------------ get_popular_satellites

  /** The fixed categories and the search terms tried for each. */
  const PopularCategories: seq<(string, seq<string>)> := [
    ("Estaciones Espaciales", ["ISS", "ZARYA", "TIANGONG"]),
    ("Telescopios Espaciales", ["HUBBLE", "SPITZER", "CHANDRA"]),
    ("Satélites Meteorológicos", ["NOAA", "GOES", "METEOSAT"]),
    ("Navegación GPS", ["GPS", "NAVSTAR", "GLONASS"]),
    ("Comunicaciones", ["STARLINK", "INTELSAT", "IRIDIUM"]),
    ("Observación Terrestre", ["LANDSAT", "AQUA", "TERRA", "SENTINEL"])
  ]

  /** Matches kept per search term, and names kept per category. */
  const PerTerm := 3
  const PerCategory := 5

  /** The first three results of each term, one term after the other. */
  function Picks(names: seq<string>, terms: seq<string>): seq<string>
  {
    if terms == [] then []
    else Picks(names, terms[..|terms| - 1]) + Take(SearchResults(names, terms[|terms| - 1]), PerTerm)
  }

  /** `list(dict.fromkeys(s))`: each name at its first occurrence. */
  function FirstOccurrences(s: seq<string>): seq<string>
  {
    if s == [] then []
    else
      var kept := FirstOccurrences(s[..|s| - 1]);
      if s[|s| - 1] in kept then kept else kept + [s[|s| - 1]]
  }

  lemma {:induction false} FirstOccurrencesSound(s: seq<string>)
    ensures Distinct(FirstOccurrences(s))
    ensures forall x :: x in FirstOccurrences(s) <==> x in s
  {
    if s != [] {
      FirstOccurrencesSound(s[..|s| - 1]);
      assert s == s[..|s| - 1] + [s[|s| - 1]];
    }
  }

  /** The list a category ends up with. */
  function CategoryPicks(names: seq<string>, terms: seq<string>): seq<string>
  {
    Take(FirstOccurrences(Picks(names, terms)), PerCategory)
  }

  /** Every picked name matches one of the category's terms. */
  lemma {:induction false} PicksMatch(names: seq<string>, terms: seq<string>, x: string)
    requires x in Picks(names, terms)
    ensures x in names
    ensures exists k :: 0 <= k < |terms| && Occurs(Lower(terms[k]), Lower(x))
  {
    var last := terms[|terms| - 1];
    var init := terms[..|terms| - 1];
    if x in Picks(names, init) {
      PicksMatch(names, init, x);
      var k :| 0 <= k < |init| && Occurs(Lower(init[k]), Lower(x));
      assert terms[k] == init[k];
    } else {
      SearchResultsSound(names, last);
      assert x in SearchResults(names, last);
      assert terms[|terms| - 1] == last;
    }
  }

  /** A category lists at most five different names, each in the catalog and
      each matching one of the category's terms. */
  lemma CategoryPicksSound(names: seq<string>, terms: seq<string>)
    ensures |CategoryPicks(names, terms)| <= PerCategory
    ensures Distinct(CategoryPicks(names, terms))
    ensures forall x :: x in CategoryPicks(names, terms) ==>
      x in names && exists k :: 0 <= k < |terms| && Occurs(Lower(terms[k]), Lower(x))
  {
    var unique := FirstOccurrences(Picks(names, terms));
    FirstOccurrencesSound(Picks(names, terms));
    forall x | x in CategoryPicks(names, terms)
      ensures x in names && exists k :: 0 <= k < |terms| && Occurs(Lower(terms[k]), Lower(x))
    {
      assert x in unique;
      PicksMatch(names, terms, x);
    }
  }

  /** The dictionary built for the categories `cats`, in order. */
  function PopularFrom(names: seq<string>, cats: seq<(string, seq<string>)>): map<string, seq<string>>
  {
    if cats == [] then map[]
    else
      var c := cats[|cats| - 1];
      PopularFrom(names, cats[..|cats| - 1])[c.0 := CategoryPicks(names, c.1)]
  }

  /** Every category gets an entry: the picks for its own terms. */
  lemma {:induction false} PopularFromEntries(names: seq<string>, cats: seq<(string, seq<string>)>, k: nat)
    requires k < |cats|
    requires forall i, j :: 0 <= i < j < |cats| ==> cats[i].0 != cats[j].0
    ensures cats[k].0 in PopularFrom(names, cats)
    ensures PopularFrom(names, cats)[cats[k].0] == CategoryPicks(names, cats[k].1)
  {
    if k < |cats| - 1 {
      PopularFromEntries(names, cats[..|cats| - 1], k);
    }
  }

  /** ...and nothing else gets one. */
  lemma {:induction false} PopularFromKeys(names: seq<string>, cats: seq<(string, seq<string>)>, category: string)
    requires category in PopularFrom(names, cats)
    ensures exists k :: 0 <= k < |cats| && cats[k].0 == category
  {
    if cats[|cats| - 1].0 != category {
      PopularFromKeys(names, cats[..|cats| - 1], category);
      var k :| 0 <= k < |cats| - 1 && cats[..|cats| - 1][k].0 == category;
      assert cats[k].0 == category;
    }
  }

  /** What `get_popular_satellites()` returns. */
  function Popular(names: seq<string>): map<string, seq<string>>
  {
    PopularFrom(names, PopularCategories)
  }

  /** The six categories are keys; each holds at most five different catalog
      names, every one matching a search term of that category. */
  lemma PopularSound(names: seq<string>, k: nat)
    requires k < |PopularCategories|
    ensures PopularCategories[k].0 in Popular(names)
    ensures Popular(names)[PopularCategories[k].0] == CategoryPicks(names, PopularCategories[k].1)
    ensures |Popular(names)[PopularCategories[k].0]| <= PerCategory
    ensures Distinct(Popular(names)[PopularCategories[k].0])
    ensures forall x :: x in Popular(names)[PopularCategories[k].0] ==> x in names
  {
    PopularFromEntries(names, PopularCategories, k);
    CategoryPicksSound(names, PopularCategories[k].1);
  }

  /** One category's turn: the first three results of each term, then each
      name once, then the first five. */
  method PickCategory(catalog: seq<Entry>, terms: seq<string>) returns (picks: seq<string>)
    ensures picks == CategoryPicks(Names(catalog), terms)
  {
    var picked := [];
    for t := 0 to |terms|
      invariant picked == Picks(Names(catalog), terms[..t])
    {
      assert terms[..t + 1][..t] == terms[..t];
      var matches := SearchSatellite(catalog, terms[t]);
      if matches != [] {
        picked := picked + Take(matches, PerTerm);
      }
    }
    assert terms[..|terms|] == terms;
    picks := Take(FirstOccurrences(picked), PerCategory);
  }

  /** `get_popular_satellites`. */
  method PopularSatellites(catalog: seq<Entry>) returns (found: map<string, seq<string>>)
    ensures found == Popular(Names(catalog))
  {
    var categories := PopularCategories;
    found := map[];
    for c := 0 to |categories|
      invariant found == PopularFrom(Names(catalog), categories[..c])
    {
      assert categories[..c + 1][..c] == categories[..c];
      var picks := PickCategory(catalog, categories[c].1);
      found := found[categories[c].0 := picks];
    }
    assert categories[..|categories|] == categories;
  }

  // ---------------------------------------------------- suggest_satellites

  const MinQueryLength := 2
  /** Below this many prefix matches the second, substring pass runs. */
  const FewSuggestions := 10
  const MaxSuggestions := 15

  /** First pass: names, in catalog order, that start with `prefix`. */
  function Prefixed(names: seq<string>, prefix: string): seq<string>
  {
    if names == [] then []
    else
      var rest := Prefixed(names[..|names| - 1], prefix);
      if StartsWith(Lower(names[|names| - 1]), prefix) then rest + [names[|names| - 1]] else rest
  }

  /** Second pass: appends, in catalog order, each name containing `part`
      that is not yet listed. */
  function AddContaining(listed: seq<string>, names: seq<string>, part: string): seq<string>
  {
    if names == [] then listed
    else
      var acc := AddContaining(listed, names[..|names| - 1], part);
      var n := names[|names| - 1];
      if Occurs(part, Lower(n)) && n !in acc then acc + [n] else acc
  }

  /** The suggestions before sorting and truncation. */
  function SuggestionPool(names: seq<string>, part: string): seq<string>
  {
    var first := Prefixed(names, part);
    if |first| < FewSuggestions then AddContaining(first, names, part) else first
  }

  /** What `suggest_satellites(partial_name)` returns. */
  function Suggestions(names: seq<string>, partialName: string): seq<string>
  {
    if |partialName| < MinQueryLength then []
    else Take(SortNames(SuggestionPool(names, Lower(partialName))), MaxSuggestions)
  }

  lemma {:induction false} PrefixedSound(names: seq<string>, prefix: string, x: string)
    ensures x in Prefixed(names, prefix) <==> x in names && StartsWith(Lower(x), prefix)
    ensures Distinct(names) ==> Distinct(Prefixed(names, prefix))
  {
    if names != [] {
      var init := names[..|names| - 1];
      PrefixedSound(init, prefix, x);
      PrefixedSound(init, prefix, names[|names| - 1]);
      assert names == init + [names[|names| - 1]];
    }
  }

  lemma {:induction false} AddContainingSound(listed: seq<string>, names: seq<string>, part: string, x: string)
    ensures x in AddContaining(listed, names, part) <==> x in listed || (x in names && Occurs(part, Lower(x)))
    ensures Distinct(listed) ==> Distinct(AddContaining(listed, names, part))
  {
    if names != [] {
      var init := names[..|names| - 1];
      AddContainingSound(listed, init, part, x);
      assert names == init + [names[|names| - 1]];
    }
  }

  /** A name is pooled when it starts with the query, or, when fewer than ten
      names do, when it contains the query. The second pass skips names already
      listed, so a catalog without repeated names gives a pool without them. */
  lemma SuggestionPoolSound(names: seq<string>, part: string)
    ensures forall x :: x in SuggestionPool(names, part) <==>
      x in names && (StartsWith(Lower(x), part) ||
                     (|Prefixed(names, part)| < FewSuggestions && Occurs(part, Lower(x))))
    ensures Distinct(names) ==> Distinct(SuggestionPool(names, part))
  {
    var first := Prefixed(names, part);
    forall x
      ensures x in SuggestionPool(names, part) <==>
        x in names && (StartsWith(Lower(x), part) ||
                       (|first| < FewSuggestions && Occurs(part, Lower(x))))
    {
      PrefixedSound(names, part, x);
      AddContainingSound(first, names, part, x);
    }
    if Distinct(names) {
      PrefixedSound(names, part, "");
      AddContainingSound(first, names, part, "");
    }
  }

  /** At most fifteen suggestions, in ascending order, each a catalog name
      containing the query; a query shorter than two characters gets none;
      when the pool has at most fifteen names, all of them are suggested; and
      a catalog without repeated names gives no repeated suggestion. */
  lemma SuggestionsSound(names: seq<string>, partialName: string)
    ensures |Suggestions(names, partialName)| <= MaxSuggestions
    ensures Ascending(Suggestions(names, partialName))
    ensures |partialName| < MinQueryLength ==> Suggestions(names, partialName) == []
    ensures forall x :: x in Suggestions(names, partialName) ==>
      x in names && Occurs(Lower(partialName), Lower(x))
    ensures |partialName| >= MinQueryLength && |SuggestionPool(names, Lower(partialName))| <= MaxSuggestions ==>
      forall x :: x in SuggestionPool(names, Lower(partialName)) ==> x in Suggestions(names, partialName)
    ensures Distinct(names) ==> Distinct(Suggestions(names, partialName))
  {
    if |partialName| >= MinQueryLength {
      var part := Lower(partialName);
      var pool := SuggestionPool(names, part);
      SortNamesSorted(pool);
      SuggestionPoolSound(names, part);
      if Distinct(names) {
        SortNamesDistinct(pool);
      }
      forall x | x in Suggestions(names, partialName)
        ensures x in names && Occurs(part, Lower(x))
      {
        SortNamesSameNames(pool, x);
      }
      if |pool| <= MaxSuggestions {
        assert |SortNames(pool)| == |multiset(SortNames(pool))| == |pool|;
        forall x | x in pool
          ensures x in Suggestions(names, partialName)
        {
          SortNamesSameNames(pool, x);
        }
      }
    }
  }

  /** `suggest_satellites`: a prefix pass, a substring pass when the first
      found fewer than ten names, then sort and keep fifteen. */
  method SuggestSatellites(catalog: seq<Entry>, partialName: string) returns (suggestions: seq<string>)
    ensures suggestions == Suggestions(Names(catalog), partialName)
  {
    if |partialName| < MinQueryLength {
      return [];
    }
    var part := Lower(partialName);
    var names := Names(catalog);
    var pool := [];
    for i := 0 to |names|
      invariant pool == Prefixed(names[..i], part)
    {
      assert names[..i + 1][..i] == names[..i];
      if StartsWith(Lower(names[i]), part) {
        pool := pool + [names[i]];
      }
    }
    assert names[..|names|] == names;
    if |pool| < FewSuggestions {
      var first := pool;
      for i := 0 to |names|
        invariant pool == AddContaining(first, names[..i], part)
      {
        assert names[..i + 1][..i] == names[..i];
        if Occurs(part, Lower(names[i])) && names[i] !in pool {
          pool := pool + [names[i]];
        }
      }
    }
    suggestions := Take(SortNames(pool), MaxSuggestions);
  }

  // ---------------------------------------------------------- smart_search

  /** The dictionary `smart_search` returns. */
  datatype SearchReport = SearchReport(
    exactMatches: seq<string>,
    partialMatches: seq<string>,
    suggestions: seq<string>,
    categoryMatches: map<string, seq<string>>,
    totalFound: nat)

  /** Names, in catalog order, whose lower-cased form is `term`. */
  function Exact(names: seq<string>, term: string): seq<string>
  {
    if names == [] then []
    else
      var rest := Exact(names[..|names| - 1], term);
      if Lower(names[|names| - 1]) == term then rest + [names[|names| - 1]] else rest
  }

  /** Names, in catalog order, whose lower-cased form contains `term` and is
      not `term` itself. */
  function Partial(names: seq<string>, term: string): seq<string>
  {
    if names == [] then []
    else
      var rest := Partial(names[..|names| - 1], term);
      var lower := Lower(names[|names| - 1]);
      if lower != term && Occurs(term, lower) then rest + [names[|names| - 1]] else rest
  }

  /** A text contains itself. */
  lemma OccursSelf(text: string)
    ensures Occurs(text, text)
  {
    assert text[..|text|] == text;
  }

  /** Exact and partial matches split the names that contain the term. */
  lemma {:induction false} ExactPartialSplit(names: seq<string>, term: string, x: string)
    ensures x in Exact(names, term) <==> x in names && Lower(x) == term
    ensures x in Partial(names, term) <==> x in names && Lower(x) != term && Occurs(term, Lower(x))
    ensures |Exact(names, term)| + |Partial(names, term)| == |Matching(names, term)|
  {
    if names != [] {
      var init := names[..|names| - 1];
      ExactPartialSplit(init, term, x);
      assert names == init + [names[|names| - 1]];
      if Lower(names[|names| - 1]) == term {
        OccursSelf(term);
      }
    }
  }

  /** The category of the first entry with this name. */
  function CategoryOf(catalog: seq<Entry>, name: string): string
  {
    if catalog == [] then ""
    else if catalog[0].name == name then catalog[0].category
    else CategoryOf(catalog[1..], name)
  }

  /** In a catalog without repeated names, a name's category is its entry's. */
  lemma {:induction false} CategoryOfEntry(catalog: seq<Entry>, i: nat)
    requires i < |catalog| && WellFormed(catalog)
    ensures CategoryOf(catalog, catalog[i].name) == catalog[i].category
  {
    if i > 0 {
      assert Names(catalog)[0] != Names(catalog)[i];
      assert forall k :: 0 <= k < |catalog| - 1 ==> Names(catalog[1..])[k] == Names(catalog)[k + 1];
      CategoryOfEntry(catalog[1..], i - 1);
    }
  }

  /** The listed names, in order, whose category is `category`. */
  function InCategory(catalog: seq<Entry>, names: seq<string>, category: string): seq<string>
  {
    if names == [] then []
    else
      var rest := InCategory(catalog, names[..|names| - 1], category);
      if CategoryOf(catalog, names[|names| - 1]) == category then rest + [names[|names| - 1]] else rest
  }

  /** `category_matches`: the listed names grouped by category, each group
      in list order. */
  function ByCategory(catalog: seq<Entry>, names: seq<string>): map<string, seq<string>>
  {
    if names == [] then map[]
    else
      var groups := ByCategory(catalog, names[..|names| - 1]);
      var n := names[|names| - 1];
      var category := CategoryOf(catalog, n);
      groups[category := (if category in groups then groups[category] else []) + [n]]
  }

  /** A category is a key exactly when some listed name has it, and its
      group is the listed names of that category, in order. */
  lemma {:induction false} ByCategoryGroups(catalog: seq<Entry>, names: seq<string>, category: string)
    ensures category in ByCategory(catalog, names) <==> InCategory(catalog, names, category) != []
    ensures category in ByCategory(catalog, names) ==>
      ByCategory(catalog, names)[category] == InCategory(catalog, names, category)
  {
    if names != [] {
      ByCategoryGroups(catalog, names[..|names| - 1], category);
    }
  }

  lemma {:induction false} InCategoryIff(catalog: seq<Entry>, names: seq<string>, category: string, x: string)
    ensures x in InCategory(catalog, names, category) <==> x in names && CategoryOf(catalog, x) == category
  {
    if names != [] {
      InCategoryIff(catalog, names[..|names| - 1], category, x);
      assert names == names[..|names| - 1] + [names[|names| - 1]];
    }
  }

  /** What `smart_search(search_term)` returns. */
  function SmartSearchResult(catalog: seq<Entry>, searchTerm: string): SearchReport
  {
    if |searchTerm| < MinQueryLength then SearchReport([], [], [], map[], 0)
    else
      var names := Names(catalog);
      var exact := Exact(names, Lower(searchTerm));
      var partial := Partial(names, Lower(searchTerm));
      SearchReport(
        exact,
        partial,
        if |partial| < FewSuggestions then Suggestions(names, searchTerm) else [],
        ByCategory(catalog, partial),
        |exact| + |partial|)
  }

  /** A query shorter than two characters finds nothing. Otherwise the exact
      matches are the names equal to the query and the partial matches the
      other names containing it, ignoring case; the total counts every name
      containing the query; a category is listed exactly when a partial
      match belongs to it, and lists those matches; and suggestions are made
      only when there are fewer than ten partial matches. */
  lemma SmartSearchSound(catalog: seq<Entry>, searchTerm: string)
    ensures |searchTerm| < MinQueryLength ==>
      SmartSearchResult(catalog, searchTerm) == SearchReport([], [], [], map[], 0)
    ensures |searchTerm| >= MinQueryLength ==>
      var r := SmartSearchResult(catalog, searchTerm);
      && (forall x :: x in r.exactMatches <==> x in Names(catalog) && Lower(x) == Lower(searchTerm))
      && (forall x :: x in r.partialMatches <==>
            x in Names(catalog) && Lower(x) != Lower(searchTerm) && Occurs(Lower(searchTerm), Lower(x)))
      && r.totalFound == |Matching(Names(catalog), Lower(searchTerm))|
      && (forall c :: c in r.categoryMatches <==> exists x :: x in r.partialMatches && CategoryOf(catalog, x) == c)
      && (forall c :: c in r.categoryMatches ==>
            forall x :: x in r.categoryMatches[c] <==> x in r.partialMatches && CategoryOf(catalog, x) == c)
      && (r.suggestions == if |r.partialMatches| < FewSuggestions then Suggestions(Names(catalog), searchTerm) else [])
  {
    if |searchTerm| >= MinQueryLength {
      var names := Names(catalog);
      var term := Lower(searchTerm);
      var r := SmartSearchResult(catalog, searchTerm);
      forall x
        ensures x in r.exactMatches <==> x in names && Lower(x) == term
        ensures x in r.partialMatches <==> x in names && Lower(x) != term && Occurs(term, Lower(x))
      {
        ExactPartialSplit(names, term, x);
      }
      ExactPartialSplit(names, term, "");
      forall c
        ensures c in r.categoryMatches <==> exists x :: x in r.partialMatches && CategoryOf(catalog, x) == c
        ensures c in r.categoryMatches ==>
          forall x :: x in r.categoryMatches[c] <==> x in r.partialMatches && CategoryOf(catalog, x) == c
      {
        ByCategoryGroups(catalog, r.partialMatches, c);
        forall x
          ensures x in InCategory(catalog, r.partialMatches, c) <==>
            x in r.partialMatches && CategoryOf(catalog, x) == c
        {
          InCategoryIff(catalog, r.partialMatches, c, x);
        }
        var g := InCategory(catalog, r.partialMatches, c);
        if g != [] {
          assert g[0] in g;
        }
      }
    }
  }

  /** The grouping pass of `smart_search`. */
  method GroupByCategory(catalog: seq<Entry>, names: seq<string>) returns (groups: map<string, seq<string>>)
    ensures groups == ByCategory(catalog, names)
  {
    groups := map[];
    for i := 0 to |names|
      invariant groups == ByCategory(catalog, names[..i])
    {
      assert names[..i + 1][..i] == names[..i];
      var category := CategoryOf(catalog, names[i]);
      if category !in groups {
        groups := groups[category := []];
      }
      groups := groups[category := groups[category] + [names[i]]];
    }
    assert names[..|names|] == names;
  }

  /** `smart_search`: one pass sorting names into exact and partial matches,
      one pass grouping the partial matches by category, then suggestions
      when few partial matches were found. */
  method SmartSearch(catalog: seq<Entry>, searchTerm: string) returns (results: SearchReport)
    ensures results == SmartSearchResult(catalog, searchTerm)
  {
    if |searchTerm| < MinQueryLength {
      return SearchReport([], [], [], map[], 0);
    }
    var term := Lower(searchTerm);
    var names := Names(catalog);
    var exact := [];
    var partial := [];
    for i := 0 to |names|
      invariant exact == Exact(names[..i], term)
      invariant partial == Partial(names[..i], term)
    {
      assert names[..i + 1][..i] == names[..i];
      var nameLower := Lower(names[i]);
      if term == nameLower {
        exact := exact + [names[i]];
      } else if Occurs(term, nameLower) {
        partial := partial + [names[i]];
      }
    }
    assert names[..|names|] == names;
    var groups := GroupByCategory(catalog, partial);
    var suggestions := [];
    if |partial| < FewSuggestions {
      suggestions := SuggestSatellites(catalog, searchTerm);
    }
    results := SearchReport(exact, partial, suggestions, groups, |exact| + |partial|);
  }
}
