/**
 * The worker-search component's state and its event handlers: filter edits,
 * the manually triggered search, worker selection, booking-form edits,
 * Cancel and Book Now. Network responses are parameters; the requests the
 * component issues are recorded in the ghost field `sent`.
 */
module Controller {
  import opened Wrappers
  import opened Query
  import opened Booking

  /** What the search fetch produced: a readable ok response, a non-ok status, or a thrown error. */
  datatype SearchResponse = SearchOk(found: seq<Worker>) | SearchNotOk | SearchThrew

  /** What the order request produced: a readable ok response, a non-ok status, or a thrown error. */
  datatype OrderResponse = OrderOk | OrderNotOk | OrderThrew

  /** A request the component sends to the server. */
  datatype Request = SearchRequest(params: seq<Param>) | OrderRequest(body: Order)

  class WorkerSearch {
    var filter: Filter
    var isSearching: bool
    /**
     * The search query's cached results, one entry per query key. The key is
     * the filter: every filter value is part of it, the price range by value.
     */
    var cache: map<Filter, seq<Worker>>
    /** The key of the most recently started search, under which its response is stored. */
    var fetchKey: Filter
    var selected: Option<Worker>
    var draft: Draft
    /** Every toast raised so far, oldest first. */
    var notices: seq<Notice>
    /** Every request issued so far, oldest first. */
    ghost var sent: seq<Request>

    /** The draft always names the selected worker, when there is one. */
    ghost predicate Valid()
      reads this
    {
      selected.Some? ==> draft.workerId == Some(selected.value.id)
    }

    /**
     * The list on the page: the cached result for the current filter, and the
     * empty list when that filter has never been searched.
     */
    function Workers(): seq<Worker>
      reads this
    {
      if filter in cache then cache[filter] else []
    }

    /** Mounting the component: default filters, no results, nothing selected, and no search run. */
    constructor ()
      ensures Valid()
      ensures filter == DefaultFilter && !isSearching && cache == map[] && Workers() == []
      ensures selected == None && draft == EmptyDraft && notices == [] && sent == []
    {
      filter := DefaultFilter;
      isSearching := false;
      cache := map[];
      fetchKey := DefaultFilter;
      selected := None;
      draft := EmptyDraft;
      notices := [];
      sent := [];
    }

    method SetSearchQuery(s: string)
      modifies this`filter
      ensures filter == old(filter).(searchQuery := s)
    {
      filter := filter.(searchQuery := s);
    }

    method SetSkills(s: string)
      modifies this`filter
      ensures filter == old(filter).(skills := s)
    {
      filter := filter.(skills := s);
    }

    method SetCity(s: string)
      modifies this`filter
      ensures filter == old(filter).(city := s)
    {
      filter := filter.(city := s);
    }

    method SetState(s: string)
      modifies this`filter
      ensures filter == old(filter).(state := s)
    {
      filter := filter.(state := s);
    }

    method SetRating(s: string)
      modifies this`filter
      ensures filter == old(filter).(rating := s)
    {
      filter := filter.(rating := s);
    }

    method SetYearsOfExperience(s: string)
      modifies this`filter
      ensures filter == old(filter).(yearsOfExperience := s)
    {
      filter := filter.(yearsOfExperience := s);
    }

    method SetEducation(s: string)
      modifies this`filter
      ensures filter == old(filter).(education := s)
    {
      filter := filter.(education := s);
    }

    /** The slider's values are stored as given: no clamping and no ordering of the two ends. */
    method HandlePriceRangeChange(lo: int, hi: int)
      modifies this`filter
      ensures filter == old(filter).(priceLo := lo, priceHi := hi)
    {
      filter := filter.(priceLo := lo, priceHi := hi);
    }

    /** Appends the query parameters one by one, as the search's query function does. */
    method BuildQuery() returns (ps: seq<Param>)
      ensures ps == Params(filter)
    {
      var f := filter;
      ps := [];
      if f.searchQuery != "" { ps := ps + [(SearchText, f.searchQuery)]; }
      assert ps == AppendIfSet(SearchText, f.searchQuery);
      ghost var done := ps;
      if f.skills != "" { ps := ps + [(Skills, f.skills)]; }
      assert ps == done + AppendIfSet(Skills, f.skills);
      done := ps;
      if f.city != "" { ps := ps + [(City, f.city)]; }
      assert ps == done + AppendIfSet(City, f.city);
      done := ps;
      if f.state != "" { ps := ps + [(State, f.state)]; }
      assert ps == done + AppendIfSet(State, f.state);
      done := ps;
      if f.rating != "" { ps := ps + [(Rating, f.rating)]; }
      assert ps == done + AppendIfSet(Rating, f.rating);
      done := ps;
      if f.priceLo > 0 || f.priceHi < 100 {
        ps := ps + [(MinPrice, Text.IntToString(f.priceLo))];
        ps := ps + [(MaxPrice, Text.IntToString(f.priceHi))];
      }
      assert ps == done + PriceParams(f);
      done := ps;
      if f.yearsOfExperience != "" { ps := ps + [(Experience, f.yearsOfExperience)]; }
      assert ps == done + AppendIfSet(Experience, f.yearsOfExperience);
      done := ps;
      if f.education != "" { ps := ps + [(Education, f.education)]; }
      assert ps == done + AppendIfSet(Education, f.education);
    }

    /**
     * The search trigger up to the network call: the button is disabled while
     * a search runs, so a search starts only from the idle state; it marks the
     * search as running, remembers the current filter as the key the response
     * will be stored under, and issues one request with that filter's
     * parameters.
     */
    method BeginSearch() returns (ps: seq<Param>)
      requires !isSearching
      modifies this`isSearching, this`fetchKey, this`sent
      ensures isSearching && fetchKey == filter
      ensures ps == Params(filter) && sent == old(sent) + [SearchRequest(ps)]
    {
      isSearching := true;
      fetchKey := filter;
      ps := BuildQuery();
      sent := sent + [SearchRequest(ps)];
    }

    /**
     * The search's response arrives: an ok response is cached under the key
     * the search started with; any failure caches the empty list there and
     * raises the "Search Error" toast; either way the search is no longer
     * running. If the filter was edited while the request was out, the page
     * keeps showing the current filter's entry, not the response.
     */
    method CompleteSearch(response: SearchResponse)
      requires isSearching
      modifies this`isSearching, this`cache, this`notices
      ensures !isSearching
      ensures response.SearchOk? ==> cache == old(cache)[fetchKey := response.found] && notices == old(notices)
      ensures !response.SearchOk? ==> cache == old(cache)[fetchKey := []] && notices == old(notices) + [SearchErrorNotice]
      ensures filter == fetchKey ==> Workers() == (if response.SearchOk? then response.found else [])
      ensures filter != fetchKey ==> Workers() == old(Workers())
    {
      match response {
        case SearchOk(found) =>
          cache := cache[fetchKey := found];
        case _ =>
          notices := notices + [SearchErrorNotice];
          cache := cache[fetchKey := []];
      }
      isSearching := false;
    }

    /** One search, from the click to the response. */
    method HandleSearch(response: SearchResponse)
      requires Valid() && !isSearching
      modifies this`isSearching, this`fetchKey, this`cache, this`notices, this`sent
      ensures Valid() && !isSearching && fetchKey == filter
      ensures sent == old(sent) + [SearchRequest(Params(filter))]
      ensures response.SearchOk? ==>
        cache == old(cache)[filter := response.found] && Workers() == response.found && notices == old(notices)
      ensures !response.SearchOk? ==>
        cache == old(cache)[filter := []] && Workers() == [] && notices == old(notices) + [SearchErrorNotice]
    {
      var _ := BeginSearch();
      CompleteSearch(response);
    }

    /**
     * Selecting a worker: it becomes the selection and its id goes into the
     * draft; title, description and location are kept. Selecting the worker
     * that is already selected changes nothing.
     */
    method HandleSelectWorker(w: Worker)
      requires Valid()
      modifies this`selected, this`draft
      ensures Valid()
      ensures selected == Some(w) && draft == WithWorker(old(draft), w)
      ensures old(selected) == Some(w) ==> draft == old(draft)
    {
      selected := Some(w);
      draft := WithWorker(draft, w);
    }

    /** Cancel clears the selection and keeps the draft as it is. */
    method Cancel()
      requires Valid()
      modifies this`selected
      ensures Valid() && selected == None
    {
      selected := None;
    }

    method SetTitle(s: string)
      requires Valid()
      modifies this`draft
      ensures Valid() && draft == old(draft).(title := s)
    {
      draft := draft.(title := s);
    }

    method SetDescription(s: string)
      requires Valid()
      modifies this`draft
      ensures Valid() && draft == old(draft).(description := s)
    {
      draft := draft.(description := s);
    }

    method SetLocationAddress(s: string)
      requires Valid()
      modifies this`draft
      ensures Valid() && draft == old(draft).(location := old(draft).location.(address := s))
    {
      draft := draft.(location := draft.location.(address := s));
    }

    method SetLocationCity(s: string)
      requires Valid()
      modifies this`draft
      ensures Valid() && draft == old(draft).(location := old(draft).location.(city := s))
    {
      draft := draft.(location := draft.location.(city := s));
    }

    method SetLocationState(s: string)
      requires Valid()
      modifies this`draft
      ensures Valid() && draft == old(draft).(location := old(draft).location.(state := s))
    {
      draft := draft.(location := draft.location.(state := s));
    }

    /**
     * Book Now. Without a title or a description it raises "Missing
     * Information" and sends nothing. Otherwise it posts one order for the
     * selected worker; on an ok response it raises the success toast, clears
     * the selection and empties the draft; on any failure it raises "Booking
     * Error" and keeps selection and draft for a retry. With no worker
     * selected, reading the worker's id throws before the request is made.
     */
    method HandleBookNow(response: OrderResponse)
      requires Valid()
      modifies this`selected, this`draft, this`notices, this`sent
      ensures Valid()
      ensures !HasTitleAndDescription(old(draft)) ==>
        && notices == old(notices) + [MissingInformationNotice]
        && sent == old(sent) && selected == old(selected) && draft == old(draft)
      ensures HasTitleAndDescription(old(draft)) && old(selected).None? ==>
        && notices == old(notices) + [BookingErrorNotice]
        && sent == old(sent) && selected == old(selected) && draft == old(draft)
      ensures HasTitleAndDescription(old(draft)) && old(selected).Some? ==>
        sent == old(sent) + [OrderRequest(OrderBody(old(selected).value, old(draft), filter.skills))]
      ensures HasTitleAndDescription(old(draft)) && old(selected).Some? && response.OrderOk? ==>
        && notices == old(notices) + [SuccessNotice(old(selected).value)]
        && selected == None && draft == EmptyDraft
      ensures HasTitleAndDescription(old(draft)) && old(selected).Some? && !response.OrderOk? ==>
        && notices == old(notices) + [BookingErrorNotice]
        && selected == old(selected) && draft == old(draft)
    {
      if !HasTitleAndDescription(draft) {
        notices := notices + [MissingInformationNotice];
        return;
      }
      if selected.None? {
        notices := notices + [BookingErrorNotice];
        return;
      }
      var worker := selected.value;
      var body := OrderBody(worker, draft, filter.skills);
      sent := sent + [OrderRequest(body)];
      if response.OrderOk? {
        notices := notices + [SuccessNotice(worker)];
        selected := None;
        draft := EmptyDraft;
      } else {
        notices := notices + [BookingErrorNotice];
      }
    }
  }

  /**
   * A client of the handlers: search, select a broker-managed worker, try to
   * book without a description, then book. Only the handlers' contracts are
   * used.
   */
  method BookBrokerManagedWorker()
  {
    var c := new WorkerSearch();
    var w1 := Worker("w1", "Ann", Some("b1"), Some("555-0100"), None, Some(3));
    c.SetSkills("plumbing");
    assert c.filter == DefaultFilter.(skills := "plumbing");
    assert Params(c.filter) == [(Skills, "plumbing")];
    c.HandleSearch(SearchOk([w1]));
    assert c.Workers() == [w1] && c.sent == [SearchRequest([(Skills, "plumbing")])];
    c.HandleSelectWorker(w1);
    c.SetTitle("Fix sink");
    c.HandleBookNow(OrderOk);
    assert c.notices == [MissingInformationNotice] && |c.sent| == 1 && c.selected == Some(w1);
    c.SetDescription("leaky pipe");
    c.SetLocationAddress("1 Main St");
    c.HandleBookNow(OrderOk);
    var body := Order("w1", Some("b1"), "Fix sink", "leaky pipe", "plumbing", Location("1 Main St", "", ""));
    assert c.sent[1] == OrderRequest(body);
    assert c.notices[1].description == BrokerMessage;
    assert c.selected == None && c.draft == EmptyDraft;
  }

  /**
   * A client that edits the filter around a search: the results belong to
   * the filter they were fetched for. Editing the city hides them, undoing
   * the edit brings them back from the cache, and a response that arrives
   * after an edit is stored under the old filter and not shown.
   */
  method ResultsFollowTheFilter()
  {
    var c := new WorkerSearch();
    var w1 := Worker("w1", "Ann", None, Some("555-0100"), None, Some(3));
    c.SetSkills("plumbing");
    var plumbing := c.filter;
    c.HandleSearch(SearchOk([w1]));
    assert c.Workers() == [w1];
    c.SetCity("Austin");
    assert c.filter != plumbing && c.filter !in c.cache;
    assert c.Workers() == [];
    c.SetCity("");
    assert c.filter == plumbing;
    assert c.Workers() == [w1];
    var _ := c.BeginSearch();
    c.SetSkills("");
    assert c.filter == DefaultFilter && DefaultFilter !in c.cache;
    var w2 := Worker("w2", "Bo", None, None, None, None);
    c.CompleteSearch(SearchOk([w2]));
    assert c.Workers() == [] && c.cache[plumbing] == [w2];
  }
}
