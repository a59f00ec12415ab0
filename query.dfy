/**
 * The search filters and the query-string parameters built from them
 * (the `queryFn` of the worker search, before the request is sent).
 */
module Query {
  import opened Wrappers
  import opened Text

  /** The seven filter strings and the hourly-rate slider `[priceLo, priceHi]`. */
  datatype Filter = Filter(
    searchQuery: string,
    skills: string,
    city: string,
    state: string,
    rating: string,
    priceLo: int,
    priceHi: int,
    yearsOfExperience: string,
    education: string)

  /** The filter state the component starts with. */
  const DefaultFilter := Filter("", "", "", "", "", 0, 100, "", "")

  /** The parameter names the builder may append, in the order it appends them. */
  datatype Key = SearchText | Skills | City | State | Rating | MinPrice | MaxPrice | Experience | Education

  /** The name each key carries in the query string. */
  function Name(k: Key): string {
    match k
    case SearchText => "query"
    case Skills => "skills"
    case City => "city"
    case State => "state"
    case Rating => "rating"
    case MinPrice => "minPrice"
    case MaxPrice => "maxPrice"
    case Experience => "experience"
    case Education => "education"
  }

  /** The inverse of `Name`: a parameter name read back into its key, and `None` for any other string. */
  function KeyOfName(name: string): Option<Key> {
    if name == "query" then Some(SearchText)
    else if name == "skills" then Some(Skills)
    else if name == "city" then Some(City)
    else if name == "state" then Some(State)
    else if name == "rating" then Some(Rating)
    else if name == "minPrice" then Some(MinPrice)
    else if name == "maxPrice" then Some(MaxPrice)
    else if name == "experience" then Some(Experience)
    else if name == "education" then Some(Education)
    else None
  }

  /** Every key's name reads back as that key, so distinct keys have distinct names on the wire. */
  lemma NameRoundTrip(k: Key)
    ensures KeyOfName(Name(k)) == Some(k)
  {
  }

  /** Position of a key in the builder's fixed order. */
  function Rank(k: Key): nat {
    match k
    case SearchText => 0
    case Skills => 1
    case City => 2
    case State => 3
    case Rating => 4
    case MinPrice => 5
    case MaxPrice => 6
    case Experience => 7
    case Education => 8
  }

  /** One `(key, value)` pair appended to the URL search parameters. */
  type Param = (Key, string)

  /** The price pair is sent only when the slider has left its full range `[0, 100]`. */
  predicate PriceMoved(f: Filter) {
    f.priceLo > 0 || f.priceHi < 100
  }

  /** The `if (value) append(key, value)` step: a string is truthy when it is non-empty. */
  function AppendIfSet(key: Key, value: string): seq<Param> {
    if value != "" then [(key, value)] else []
  }

  function PriceParams(f: Filter): seq<Param> {
    if PriceMoved(f) then [(MinPrice, IntToString(f.priceLo)), (MaxPrice, IntToString(f.priceHi))] else []
  }

  /** The parameter list in the order the builder appends it. */
  function Params(f: Filter): seq<Param> {
    AppendIfSet(SearchText, f.searchQuery)
    + AppendIfSet(Skills, f.skills)
    + AppendIfSet(City, f.city)
    + AppendIfSet(State, f.state)
    + AppendIfSet(Rating, f.rating)
    + PriceParams(f)
    + AppendIfSet(Experience, f.yearsOfExperience)
    + AppendIfSet(Education, f.education)
  }

  function NonEmpty(s: string): Option<string> {
    if s != "" then Some(s) else None
  }

  /**
   * Reference definition, key by key: the value the filter asks the server
   * for under `key`, or `None` when that key must be absent.
   */
  function ParamValue(f: Filter, key: Key): Option<string> {
    match key
    case SearchText => NonEmpty(f.searchQuery)
    case Skills => NonEmpty(f.skills)
    case City => NonEmpty(f.city)
    case State => NonEmpty(f.state)
    case Rating => NonEmpty(f.rating)
    case MinPrice => if PriceMoved(f) then Some(IntToString(f.priceLo)) else None
    case MaxPrice => if PriceMoved(f) then Some(IntToString(f.priceHi)) else None
    case Experience => NonEmpty(f.yearsOfExperience)
    case Education => NonEmpty(f.education)
  }

  /** `URLSearchParams.get`: the value of the first pair with that key. */
  function Lookup(ps: seq<Param>, key: Key): Option<string> {
    if ps == [] then None
    else if ps[0].0 == key then Some(ps[0].1)
    else Lookup(ps[1..], key)
  }

  /**
   * Lookup finds a key exactly when some pair carries it, and then returns
   * the value of the first such pair.
   */
  lemma {:induction false} LookupFindsFirst(ps: seq<Param>, key: Key)
    ensures Lookup(ps, key).Some? <==> exists i :: 0 <= i < |ps| && ps[i].0 == key
    ensures Lookup(ps, key).Some? ==>
      exists i :: 0 <= i < |ps| && ps[i] == (key, Lookup(ps, key).value)
        && forall j :: 0 <= j < i ==> ps[j].0 != key
    decreases |ps|
  {
    if ps != [] && ps[0].0 != key {
      LookupFindsFirst(ps[1..], key);
      assert forall i :: 0 < i < |ps| ==> ps[i] == ps[1..][i - 1];
      if Lookup(ps, key).Some? {
        var i :| 0 <= i < |ps[1..]| && ps[1..][i] == (key, Lookup(ps, key).value)
          && forall j :: 0 <= j < i ==> ps[1..][j].0 != key;
        assert ps[i + 1] == (key, Lookup(ps, key).value);
        assert forall j :: 0 <= j < i + 1 ==> ps[j].0 != key by {
          forall j | 0 <= j < i + 1 ensures ps[j].0 != key {
            if j > 0 { assert ps[j] == ps[1..][j - 1]; }
          }
        }
      }
    } else if ps != [] {
      assert ps[0] == (key, Lookup(ps, key).value);
    }
  }

  /** Keys strictly follow the builder's order, so none repeats. */
  ghost predicate InOrder(ps: seq<Param>) {
    forall i, j :: 0 <= i < j < |ps| ==> Rank(ps[i].0) < Rank(ps[j].0)
  }

  ghost predicate RanksIn(ps: seq<Param>, lo: nat, hi: nat) {
    forall i :: 0 <= i < |ps| ==> lo <= Rank(ps[i].0) < hi
  }

  /** Looking a key up in a concatenation looks in the first part, then in the second. */
  lemma {:induction false} LookupAppend(a: seq<Param>, b: seq<Param>, key: Key)
    ensures Lookup(a + b, key) == if Lookup(a, key).Some? then Lookup(a, key) else Lookup(b, key)
    decreases |a|
  {
    if a != [] {
      assert (a + b)[0] == a[0];
      assert (a + b)[1..] == a[1..] + b;
      LookupAppend(a[1..], b, key);
    } else {
      assert a + b == b;
    }
  }

  lemma ExtendInOrder(p: seq<Param>, seg: seq<Param>, m: nat, n: nat)
    requires InOrder(p) && RanksIn(p, 0, m)
    requires InOrder(seg) && RanksIn(seg, m, n)
    requires m <= n
    ensures InOrder(p + seg) && RanksIn(p + seg, 0, n)
  {
    assert forall i :: 0 <= i < |p| ==> (p + seg)[i] == p[i];
    assert forall i :: |p| <= i < |p + seg| ==> (p + seg)[i] == seg[i - |p|];
  }

  /**
   * Every parameter the builder appends is one the filter asks for, with its
   * value, and every one the filter asks for is appended.
   */
  lemma ParamsMatchReference(f: Filter, key: Key)
    ensures Lookup(Params(f), key) == ParamValue(f, key)
  {
    var p1 := AppendIfSet(SearchText, f.searchQuery);
    var p2 := p1 + AppendIfSet(Skills, f.skills);
    var p3 := p2 + AppendIfSet(City, f.city);
    var p4 := p3 + AppendIfSet(State, f.state);
    var p5 := p4 + AppendIfSet(Rating, f.rating);
    var p6 := p5 + PriceParams(f);
    var p7 := p6 + AppendIfSet(Experience, f.yearsOfExperience);
    LookupAppend(p1, AppendIfSet(Skills, f.skills), key);
    LookupAppend(p2, AppendIfSet(City, f.city), key);
    LookupAppend(p3, AppendIfSet(State, f.state), key);
    LookupAppend(p4, AppendIfSet(Rating, f.rating), key);
    LookupAppend(p5, PriceParams(f), key);
    LookupAppend(p6, AppendIfSet(Experience, f.yearsOfExperience), key);
    LookupAppend(p7, AppendIfSet(Education, f.education), key);
    if PriceMoved(f) {
      LookupAppend([(MinPrice, IntToString(f.priceLo))], [(MaxPrice, IntToString(f.priceHi))], key);
    }
  }

  /** Parameters appear in the fixed order query, skills, city, state, rating, minPrice, maxPrice, experience, education. */
  lemma ParamsInOrder(f: Filter)
    ensures InOrder(Params(f))
  {
    var p1 := AppendIfSet(SearchText, f.searchQuery);
    var p2 := p1 + AppendIfSet(Skills, f.skills);
    var p3 := p2 + AppendIfSet(City, f.city);
    var p4 := p3 + AppendIfSet(State, f.state);
    var p5 := p4 + AppendIfSet(Rating, f.rating);
    var p6 := p5 + PriceParams(f);
    var p7 := p6 + AppendIfSet(Experience, f.yearsOfExperience);
    ExtendInOrder(p1, AppendIfSet(Skills, f.skills), 1, 2);
    ExtendInOrder(p2, AppendIfSet(City, f.city), 2, 3);
    ExtendInOrder(p3, AppendIfSet(State, f.state), 3, 4);
    ExtendInOrder(p4, AppendIfSet(Rating, f.rating), 4, 5);
    ExtendInOrder(p5, PriceParams(f), 5, 7);
    ExtendInOrder(p6, AppendIfSet(Experience, f.yearsOfExperience), 7, 8);
    ExtendInOrder(p7, AppendIfSet(Education, f.education), 8, 9);
  }

  /** Each key occurs at most once in the built parameters. */
  lemma ParamsKeysDistinct(f: Filter)
    ensures forall i, j :: 0 <= i < j < |Params(f)| ==> Params(f)[i].0 != Params(f)[j].0
  {
    ParamsInOrder(f);
  }

  /** A string filter is sent under its key exactly when it is non-empty, and then verbatim. */
  lemma StringFilterSentIffNonEmpty(f: Filter)
    ensures Lookup(Params(f), SearchText) == (if f.searchQuery != "" then Some(f.searchQuery) else None)
    ensures Lookup(Params(f), Skills) == (if f.skills != "" then Some(f.skills) else None)
    ensures Lookup(Params(f), City) == (if f.city != "" then Some(f.city) else None)
    ensures Lookup(Params(f), State) == (if f.state != "" then Some(f.state) else None)
    ensures Lookup(Params(f), Rating) == (if f.rating != "" then Some(f.rating) else None)
    ensures Lookup(Params(f), Experience) == (if f.yearsOfExperience != "" then Some(f.yearsOfExperience) else None)
    ensures Lookup(Params(f), Education) == (if f.education != "" then Some(f.education) else None)
  {
    ParamsMatchReference(f, SearchText);
    ParamsMatchReference(f, Skills);
    ParamsMatchReference(f, City);
    ParamsMatchReference(f, State);
    ParamsMatchReference(f, Rating);
    ParamsMatchReference(f, Experience);
    ParamsMatchReference(f, Education);
  }

  /**
   * The "Any rating", "Any experience" and "Any education" options carry the
   * non-empty values "any", "0" and "any", so they are sent, not omitted.
   */
  lemma AnyOptionsAreSent(f: Filter)
    ensures f.rating == "any" ==> Lookup(Params(f), Rating) == Some("any")
    ensures f.yearsOfExperience == "0" ==> Lookup(Params(f), Experience) == Some("0")
    ensures f.education == "any" ==> Lookup(Params(f), Education) == Some("any")
  {
    StringFilterSentIffNonEmpty(f);
  }

  /**
   * `minPrice` and `maxPrice` are both present or both absent; present exactly
   * when the range is not `[0, 100]`; then they carry `priceLo` and `priceHi`,
   * next to each other and in that order.
   */
  lemma PricePairTogether(f: Filter)
    ensures Lookup(Params(f), MinPrice).Some? <==> Lookup(Params(f), MaxPrice).Some?
    ensures Lookup(Params(f), MinPrice).Some? <==> (f.priceLo > 0 || f.priceHi < 100)
    ensures Lookup(Params(f), MinPrice).Some? ==>
      && Lookup(Params(f), MinPrice).value == IntToString(f.priceLo)
      && Lookup(Params(f), MaxPrice).value == IntToString(f.priceHi)
      && exists i :: 0 <= i < |Params(f)| - 1 && Params(f)[i].0 == MinPrice && Params(f)[i + 1].0 == MaxPrice
  {
    ParamsMatchReference(f, MinPrice);
    ParamsMatchReference(f, MaxPrice);
    if PriceMoved(f) {
      var pre := AppendIfSet(SearchText, f.searchQuery) + AppendIfSet(Skills, f.skills)
        + AppendIfSet(City, f.city) + AppendIfSet(State, f.state) + AppendIfSet(Rating, f.rating);
      var post := AppendIfSet(Experience, f.yearsOfExperience) + AppendIfSet(Education, f.education);
      assert Params(f) == pre + PriceParams(f) + post;
      var i := |pre|;
      assert Params(f)[i] == PriceParams(f)[0];
      assert Params(f)[i + 1] == PriceParams(f)[1];
    }
  }

  /** The parameter list is empty exactly when every string filter is empty and the range is `[0, 100]` or wider. */
  lemma ParamsEmptyIff(f: Filter)
    ensures Params(f) == [] <==>
      f.searchQuery == "" && f.skills == "" && f.city == "" && f.state == "" && f.rating == ""
      && f.yearsOfExperience == "" && f.education == "" && !PriceMoved(f)
  {
    if Params(f) == [] {
      StringFilterSentIffNonEmpty(f);
      PricePairTogether(f);
    }
  }

  /** The filter the component starts with produces no parameters at all. */
  lemma DefaultFilterSendsNothing()
    ensures Params(DefaultFilter) == []
  {
    ParamsEmptyIff(DefaultFilter);
  }
}
