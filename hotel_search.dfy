/** The public hotel list of src/pages/HotelsPage.tsx: the query sent to the
    backend for the chosen filters, and the free-text search applied to the
    hotels it returns. */
module HotelSearch {
  import opened Types
  import opened Lists
  import opened Text

  /** The filter panel: minimum guest rating (0 = any), star category
      (0 = any) and the sort key. */
  datatype Filters = Filters(minRating: real, starRating: int, sortBy: string)

  const InitialFilters := Filters(0.0, 0, "rating")

  datatype Condition = ActiveIs(active: bool) | RatingAtLeast(min: real) | StarsEqual(stars: int)

  datatype Ordering = RatingDescending | NameAscending

  /** The conditions and ordering the query builder chains onto `select('*')`. */
  datatype HotelQuery = HotelQuery(conditions: seq<Condition>, ordering: Option<Ordering>)

  predicate Holds(c: Condition, h: Hotel)
  {
    match c
    case ActiveIs(active) => h.isActive == active
    case RatingAtLeast(min) => h.rating >= min
    case StarsEqual(stars) => h.starRating == stars
  }

  predicate Selects(q: HotelQuery, h: Hotel)
  {
    forall i :: 0 <= i < |q.conditions| ==> Holds(q.conditions[i], h)
  }

  function OrderingFor(sortBy: string): Option<Ordering>
  {
    if sortBy == "rating" then Some(RatingDescending)
    else if sortBy == "name" then Some(NameAscending)
    else None
  }

  /** The query `loadHotels` sends for the given filters. */
  function QueryFor(f: Filters): (q: HotelQuery)
    ensures |q.conditions| >= 1 && q.conditions[0] == ActiveIs(true)
    ensures forall h :: Selects(q, h) <==>
      && h.isActive
      && (f.minRating > 0.0 ==> h.rating >= f.minRating)
      && (f.starRating > 0 ==> h.starRating == f.starRating)
    ensures (exists c :: c in q.conditions && c.RatingAtLeast?) <==> f.minRating > 0.0
    ensures (exists c :: c in q.conditions && c.StarsEqual?) <==> f.starRating > 0
  {
    var q := HotelQuery(
      [ActiveIs(true)]
        + (if f.minRating > 0.0 then [RatingAtLeast(f.minRating)] else [])
        + (if f.starRating > 0 then [StarsEqual(f.starRating)] else []),
      OrderingFor(f.sortBy));
    assert forall h :: Selects(q, h) ==> Holds(q.conditions[0], h);
    assert f.minRating > 0.0 ==> q.conditions[1] == RatingAtLeast(f.minRating);
    assert f.starRating > 0 ==> q.conditions[|q.conditions| - 1] == StarsEqual(f.starRating);
    q
  }

  /** `loadHotels`' query composition: start from the active hotels and
      reassign the query once per filter that is set. */
  method BuildQuery(f: Filters) returns (q: HotelQuery)
    ensures q == QueryFor(f)
    ensures q.ordering == Some(RatingDescending) <==> f.sortBy == "rating"
    ensures q.ordering == Some(NameAscending) <==> f.sortBy == "name"
  {
    q := HotelQuery([ActiveIs(true)], None);
    if f.minRating > 0.0 {
      q := q.(conditions := q.conditions + [RatingAtLeast(f.minRating)]);
    }
    if f.starRating > 0 {
      q := q.(conditions := q.conditions + [StarsEqual(f.starRating)]);
    }
    if f.sortBy == "rating" {
      q := q.(ordering := Some(RatingDescending));
    } else if f.sortBy == "name" {
      q := q.(ordering := Some(NameAscending));
    }
  }

  /** The initial filters ask for the active hotels, best rated first. */
  lemma InitialQuery()
    ensures QueryFor(InitialFilters) == HotelQuery([ActiveIs(true)], Some(RatingDescending))
  {
  }

  /** Lexicographic order on names, character by character. */
  predicate LexLe(a: string, b: string)
  {
    a == [] || (b != [] && (a[0] < b[0] || (a[0] == b[0] && LexLe(a[1..], b[1..]))))
  }

  predicate InOrder(o: Ordering, a: Hotel, b: Hotel)
  {
    match o
    case RatingDescending => a.rating >= b.rating
    case NameAscending => LexLe(a.name, b.name)
  }

  /** What the backend returns for `q` from `table`: exactly the selected
      rows, in the requested order when one is requested. */
  ghost predicate Answers(q: HotelQuery, table: seq<Hotel>, rows: seq<Hotel>)
  {
    && (forall h :: h in rows ==> h in table && Selects(q, h))
    && (forall h :: h in table && Selects(q, h) ==> h in rows)
    && (q.ordering.Some? ==> OrderedBy((a: Hotel, b: Hotel) => InOrder(q.ordering.value, a, b), rows))
  }

  /** `filteredHotels`' test: the lower-cased term occurs in the lower-cased
      name, city or country. */
  predicate Matches(h: Hotel, term: string): (m: bool)
    ensures term == "" ==> m
  {
    ContainsEmpty(Lower(h.name));
    var q := Lower(term);
    Contains(Lower(h.name), q) || Contains(Lower(h.city), q) || Contains(Lower(h.country), q)
  }

  /** `filteredHotels`. */
  function SearchHotels(hotels: seq<Hotel>, term: string): (r: seq<Hotel>)
    ensures IsSubsequence(r, hotels)
    ensures forall h :: h in r <==> h in hotels && Matches(h, term)
    ensures forall h {:trigger multiset(r)[h]} :: h in hotels && Matches(h, term) ==> multiset(r)[h] == multiset(hotels)[h]
  {
    Filter((h: Hotel) => Matches(h, term), hotels)
  }

  /** An empty search box hides nothing. */
  lemma EmptyTermKeepsAll(hotels: seq<Hotel>)
    ensures SearchHotels(hotels, "") == hotels
  {
    forall h | h in hotels ensures Matches(h, "") {
      ContainsEmpty(Lower(h.name));
    }
    FilterKeepsAll((h: Hotel) => Matches(h, ""), hotels);
  }

  /** Terms that differ only in letter case find the same hotels; in
      particular upper-casing the term changes nothing. */
  lemma CaseInsensitive(hotels: seq<Hotel>, term: string, other: string)
    requires Lower(other) == Lower(term)
    ensures SearchHotels(hotels, other) == SearchHotels(hotels, term)
    ensures SearchHotels(hotels, Upper(term)) == SearchHotels(hotels, term)
  {
    FilterCongruence((h: Hotel) => Matches(h, other), (h: Hotel) => Matches(h, term), hotels);
    LowerOfUpper(term);
    FilterCongruence((h: Hotel) => Matches(h, Upper(term)), (h: Hotel) => Matches(h, term), hotels);
  }

  /** A term one of whose characters appears nowhere in `s` does not occur in it. */
  lemma {:induction false} AbsentChar(s: string, t: string, k: nat)
    requires k < |t| && t[k] !in s
    ensures !Contains(s, t)
  {
    if |s| > 0 {
      assert forall c :: c in s[1..] ==> c in s;
      AbsentChar(s[1..], t, k);
    }
  }

  /** A hotel none of whose fields holds some letter of the term, in either
      case, does not match. */
  lemma NoMatchWithoutLetter(h: Hotel, term: string, k: nat)
    requires k < |term| && 'a' <= Lower(term)[k] <= 'z'
    requires var c := Lower(term)[k]; var u := UpperChar(c);
      c !in h.name && u !in h.name && c !in h.city && u !in h.city && c !in h.country && u !in h.country
    ensures !Matches(h, term)
  {
    var c := Lower(term)[k];
    LowerKeepsAbsence(h.name, c);
    LowerKeepsAbsence(h.city, c);
    LowerKeepsAbsence(h.country, c);
    AbsentChar(Lower(h.name), Lower(term), k);
    AbsentChar(Lower(h.city), Lower(term), k);
    AbsentChar(Lower(h.country), Lower(term), k);
  }

  /** Searching "Paris" among a Paris hotel and a Tokyo hotel finds only the
      first. */
  lemma ParisExample()
    ensures var paris := Hotel("1", "o", "Hotel Lumière", "Paris", "France", "", 4.8, 5, true);
      var tokyo := Hotel("2", "o", "Grand Tokyo", "Tokyo", "Japan", "", 4.1, 4, true);
      SearchHotels([paris, tokyo], "Paris") == [paris]
  {
    var paris := Hotel("1", "o", "Hotel Lumière", "Paris", "France", "", 4.8, 5, true);
    var tokyo := Hotel("2", "o", "Grand Tokyo", "Tokyo", "Japan", "", 4.1, 4, true);
    ParisMatches(paris);
    TokyoDoesNotMatch(tokyo);
    var p := (h: Hotel) => Matches(h, "Paris");
    assert [paris, tokyo][1..] == [tokyo];
    assert Filter(p, [tokyo]) == Filter(p, []);
    assert Filter(p, [paris, tokyo]) == [paris] + Filter(p, [tokyo]);
  }

  /** The city "Paris" contains the term "Paris". */
  lemma ParisMatches(paris: Hotel)
    requires paris.city == "Paris"
    ensures Matches(paris, "Paris")
  {
    assert IsPrefix(Lower("Paris"), Lower(paris.city));
  }

  /** No field of the Tokyo hotel holds an 's' in either case, and the term
      "Paris" needs one. */
  lemma TokyoDoesNotMatch(tokyo: Hotel)
    requires tokyo.name == "Grand Tokyo" && tokyo.city == "Tokyo" && tokyo.country == "Japan"
    ensures !Matches(tokyo, "Paris")
  {
    assert Lower("Paris")[4] == LowerChar('s') == 's';
    assert UpperChar('s') == 'S';
    assert 's' !in tokyo.name && 'S' !in tokyo.name;
    assert 's' !in tokyo.city && 'S' !in tokyo.city;
    assert 's' !in tokyo.country && 'S' !in tokyo.country;
    NoMatchWithoutLetter(tokyo, "Paris", 4);
  }

  /** Every hotel the page lists is active, meets the rating floor and the
      star category when they are set, and matches the search; and the list
      keeps the order the query asked for. */
  lemma ListedHotels(f: Filters, table: seq<Hotel>, rows: seq<Hotel>, term: string)
    requires Answers(QueryFor(f), table, rows)
    ensures forall h :: h in SearchHotels(rows, term) ==>
      && h in table && h.isActive
      && (f.minRating > 0.0 ==> h.rating >= f.minRating)
      && (f.starRating > 0 ==> h.starRating == f.starRating)
      && Matches(h, term)
    ensures OrderingFor(f.sortBy).Some? ==>
      OrderedBy((a: Hotel, b: Hotel) => InOrder(OrderingFor(f.sortBy).value, a, b), SearchHotels(rows, term))
  {
    var q := QueryFor(f);
    if q.ordering.Some? {
      FilterKeepsOrder((h: Hotel) => Matches(h, term), (a: Hotel, b: Hotel) => InOrder(q.ordering.value, a, b), rows);
    }
  }

  /** The count line under the search box: "hotel" for exactly one result,
      "hotels" otherwise (zero results show a different message). */
  function FoundLabel(n: nat): (line: string)
    ensures |line| >= 13 && line[..6] == "Found "
    ensures line[|line| - 1] == 's' <==> n != 1
    ensures n == 1 ==> line == "Found 1 hotel"
  {
    "Found " + NatToString(n) + " hotel" + (if n != 1 then "s" else "")
  }
}
