/** The customer list page: the state the component keeps, and the handlers
    that load rows in chunks, page through them client-side, apply filters
    and tick rows. Every server response is a parameter of the handler that
    awaits it (`None` for a falsy response); each handler is one atomic
    step, with the effects it triggers run at its end. */
module CustomerPage {
  import opened Options
  import opened Lists
  import opened Paging
  import opened Selection
  import opened FilterQuery
  import opened CustomerRows

  /** The export effect: the loaded rows whose id is ticked, in load order. */
  function ExportSubset(rows: seq<Row>, selected: seq<Id>): (r: seq<Row>)
    ensures forall c :: c in r <==> c in rows && c.id in selected
    ensures IsSubsequence(r, rows)
    ensures forall c :: multiset(r)[c] == if c.id in selected then multiset(rows)[c] else 0
    ensures |r| <= |rows|
  {
    var keep := (c: Row) => c.id in selected;
    FilterIsSubsequence(rows, keep);
    FilterCount(rows, keep);
    Filter(rows, keep)
  }

  /** After a row is toggled, exactly its rows change side of the export. */
  lemma ExportAfterToggle(rows: seq<Row>, selected: seq<Id>, id: Id)
    ensures forall c :: c in ExportSubset(rows, ToggleRow(selected, id)) <==>
              c in rows && (if c.id == id then id !in selected else c.id in selected)
  {
  }

  /** The `[filters.Limit]` effect runs when the Limit array is replaced: a
      pick on the Limit picker always builds a new one, and any other
      update either keeps the old array or brings a different value. */
  predicate LimitEffectFires(before: Filters, after: Filters, field: Key, over: Option<Filters>) {
    (over.None? && field == Limit) || after.limit != before.limit
  }

  /** The dependent-picker effect runs when one of the three parent ids changes. */
  predicate ParentIdsChanged(before: Dependent, after: Dependent) {
    before.campaign.id != after.campaign.id || before.customerType.id != after.customerType.id
    || before.city.id != after.city.id
  }

  /** The parent of an object picker is picked, so its options are loaded. */
  predicate ParentPicked(d: Dependent, k: Key) {
    && (k == CustomerType ==> d.campaign.id != "")
    && (k == CustomerSubType ==> d.campaign.id != "" && d.customerType.id != "")
    && (k == Location ==> d.city.id != "")
  }

  /** The filters an object pick leaves once the dependent-picker effect
      has run: the picker's record, emptied further where the new picks
      changed a parent id. */
  function AfterPick(f: Filters, d: Dependent, k: Key, c: Choice): (r: Filters)
    requires IsObjectKey(k)
    ensures Consistent(r, ChooseDependent(d, k, c)) || !ParentIdsChanged(d, ChooseDependent(d, k, c))
  {
    var picked := ChooseFilters(f, k, c.name);
    var after := ChooseDependent(d, k, c);
    DependentEffectSettles(picked, after);
    if ParentIdsChanged(d, after) then DependentEffect(picked, after) else picked
  }

  /** A pick whose parent is picked, made while filters and picks agree,
      keeps the picker's record as it is: the effect empties nothing. */
  lemma AfterPickKeepsPick(f: Filters, d: Dependent, k: Key, c: Choice)
    requires IsObjectKey(k) && c.id != "" && ParentPicked(d, k) && Consistent(f, d)
    ensures AfterPick(f, d, k, c) == ChooseFilters(f, k, c.name)
    ensures Consistent(AfterPick(f, d, k, c), ChooseDependent(d, k, c))
  {
    ChoosePreservesConsistency(f, d, k, c);
  }

  class CustomerListPage {
    var customerData: seq<Row>
    var exportingCustomerData: seq<Row>
    var fetchedCount: nat
    var hasMoreCustomers: bool
    var isFetchingMore: bool
    var totalCustomers: nat
    var totalCustomerPage: nat
    var currentTablePage: nat
    var rowsPerTablePage: nat
    var selectedCustomers: seq<Id>
    var selectedUser: Option<Id>
    var selectedMailtemplate: Option<Id>
    var selectedWhatsapptemplate: Option<Id>
    var filters: Filters
    var dependent: Dependent
    var lastAppliedFilters: Option<Filters>
    var isFilteredTrigger: bool

    /** Between handlers: the rows per page are the picked Limit, the page
        is at least 1, no fetch is under way, and the shown page count is
        the one the `[filters, totalCustomers]` effect computes. */
    ghost predicate Valid()
      reads this
    {
      && LimitIsOption(filters.limit)
      && rowsPerTablePage == LimitNumber(filters.limit)
      && currentTablePage >= 1
      && !isFetchingMore
      && totalCustomerPage == PageCountAtLeastOne(totalCustomers, rowsPerTablePage)
    }

    /** The state after the first render, once the Limit effect has run
        on the initial `Limit: ["100"]`. */
    constructor ()
      ensures Valid()
      ensures customerData == [] && exportingCustomerData == [] && fetchedCount == 0
      ensures hasMoreCustomers && totalCustomers == 0 && totalCustomerPage == 1
      ensures currentTablePage == 1 && rowsPerTablePage == 100
      ensures selectedCustomers == [] && selectedUser.None? && selectedMailtemplate.None? && selectedWhatsapptemplate.None?
      ensures filters == InitialFilters && dependent == NoDependent
      ensures lastAppliedFilters.None? && !isFilteredTrigger
    {
      customerData := [];
      exportingCustomerData := [];
      fetchedCount := 0;
      hasMoreCustomers := true;
      isFetchingMore := false;
      totalCustomers := 0;
      totalCustomerPage := 1;
      currentTablePage := 1;
      selectedCustomers := [];
      selectedUser := None;
      selectedMailtemplate := None;
      selectedWhatsapptemplate := None;
      filters := InitialFilters;
      dependent := NoDependent;
      lastAppliedFilters := None;
      isFilteredTrigger := false;
      rowsPerTablePage := LimitNumber(InitialFilters.limit);
      Text.SmallNumerals();
      assert LimitNumber(InitialFilters.limit) == 100;
    }

    /** `totalTablePages`: pages of the loaded rows, never fewer than 1. */
    function TotalTablePages(): (n: nat)
      reads this`customerData, this`rowsPerTablePage
      requires rowsPerTablePage > 0
      ensures n >= 1 && (n - 1) * rowsPerTablePage <= |customerData| <= n * rowsPerTablePage
      ensures n > 1 ==> (n - 1) * rowsPerTablePage < |customerData|
      ensures |customerData| > 0 ==> n == CeilDiv(|customerData|, rowsPerTablePage)
      ensures |customerData| == 0 ==> n == 1
    {
      PageCountAtLeastOne(|customerData|, rowsPerTablePage)
    }

    /** `currentRows`: the window of the current page. */
    function CurrentRows(): (rows: seq<Row>)
      reads this`customerData, this`currentTablePage, this`rowsPerTablePage
      requires rowsPerTablePage > 0 && currentTablePage >= 1
      ensures var start := PageStart(currentTablePage, rowsPerTablePage);
              |rows| == if start < |customerData|
                        then (if |customerData| - start < rowsPerTablePage then |customerData| - start else rowsPerTablePage)
                        else 0
      ensures |rows| <= rowsPerTablePage
      ensures forall i :: 0 <= i < |rows| ==>
                PageStart(currentTablePage, rowsPerTablePage) + i < |customerData|
                && rows[i] == customerData[PageStart(currentTablePage, rowsPerTablePage) + i]
    {
      PageRows(customerData, currentTablePage, rowsPerTablePage)
    }

    /** The header checkbox. */
    predicate AllRowsSelected()
      reads this`customerData, this`currentTablePage, this`rowsPerTablePage, this`selectedCustomers
      requires rowsPerTablePage > 0 && currentTablePage >= 1
    {
      HeaderChecked(Ids(CurrentRows()), selectedCustomers)
    }

    /** The Next and Last buttons are disabled. */
    predicate NextDisabled()
      reads this
      requires rowsPerTablePage > 0
    {
      !hasMoreCustomers && currentTablePage == TotalTablePages()
    }

    /** The `[filters.Limit]` effect. */
    method ApplyLimitEffect()
      requires LimitIsOption(filters.limit)
      modifies this`rowsPerTablePage, this`currentTablePage
      ensures rowsPerTablePage == LimitNumber(filters.limit) && currentTablePage == 1
    {
      rowsPerTablePage := LimitNumber(filters.limit);
      currentTablePage := 1;
    }

    /** The `[filters, totalCustomers]` effect. */
    method TotalPageEffect()
      requires LimitIsOption(filters.limit)
      modifies this`totalCustomerPage
      ensures totalCustomerPage == PageCountAtLeastOne(totalCustomers, LimitNumber(filters.limit))
    {
      totalCustomerPage := PageCountAtLeastOne(totalCustomers, LimitNumber(filters.limit));
    }

    /** The `[selectedCustomers]` effect. */
    method ExportEffect()
      modifies this`exportingCustomerData
      ensures exportingCustomerData == ExportSubset(customerData, selectedCustomers)
    {
      exportingCustomerData := ExportSubset(customerData, selectedCustomers);
    }

    /** `getCustomers`: the first chunk, without filters. */
    method GetCustomers(resp: Option<seq<RawCustomer>>) returns (query: seq<Pair>)
      requires resp.Some? ==> AllMappable(resp.value)
      modifies this`customerData, this`fetchedCount, this`hasMoreCustomers
      ensures query == [LimitPair(), SkipPair(0)]
      ensures resp.Some? ==> customerData == MapRows(resp.value) && fetchedCount == |resp.value|
                             && hasMoreCustomers == (|resp.value| == FetchChunk)
      ensures resp.None? ==> customerData == old(customerData) && fetchedCount == 0 && hasMoreCustomers
    {
      fetchedCount := 0;
      hasMoreCustomers := true;
      query := [];
      query := query + [LimitPair()];
      query := query + [SkipPair(0)];
      if resp.Some? {
        var mapped := MapRows(resp.value);
        customerData := mapped;
        fetchedCount := |mapped|;
        hasMoreCustomers := |mapped| == FetchChunk;
      }
    }

    /** `fetchMore`: the next chunk after the loaded rows, appended to them. */
    method FetchMore(resp: Option<seq<RawCustomer>>) returns (query: Option<seq<Pair>>)
      requires Valid()
      requires resp.Some? ==> AllMappable(resp.value)
      modifies this`customerData, this`fetchedCount, this`hasMoreCustomers, this`isFetchingMore
      ensures Valid()
      ensures old(isFetchingMore || !hasMoreCustomers) ==> query.None? && unchanged(this)
      ensures old(!isFetchingMore && hasMoreCustomers) ==>
                query == Some([LimitPair(), SkipPair(|old(customerData)|)] + FilterPairs(filters))
      ensures old(!isFetchingMore && hasMoreCustomers) && resp.Some? ==>
                && customerData == old(customerData) + MapRows(resp.value)
                && fetchedCount == old(fetchedCount) + |resp.value|
                && hasMoreCustomers == (|resp.value| == FetchChunk)
      ensures resp.None? ==>
                customerData == old(customerData) && fetchedCount == old(fetchedCount)
                && hasMoreCustomers == old(hasMoreCustomers)
    {
      if isFetchingMore || !hasMoreCustomers {
        return None;
      }
      isFetchingMore := true;
      var q := FetchMoreQuery(filters, |customerData|);
      query := Some(q);
      if resp.Some? {
        var mapped := MapRows(resp.value);
        customerData := customerData + mapped;
        fetchedCount := fetchedCount + |mapped|;
        hasMoreCustomers := |mapped| == FetchChunk;
      }
      isFetchingMore := false;
    }

    /** `handleLastPage`: every matching row at once, and the last page. */
    method HandleLastPage(resp: Option<seq<RawCustomer>>) returns (query: seq<Pair>)
      requires Valid()
      requires resp.Some? ==> AllMappable(resp.value)
      modifies this`customerData, this`fetchedCount, this`hasMoreCustomers, this`totalCustomers, this`currentTablePage, this`totalCustomerPage
      ensures Valid()
      ensures query == FilterPairs(filters)
      ensures resp.Some? ==>
                && customerData == MapRows(resp.value) && fetchedCount == |resp.value|
                && !hasMoreCustomers && totalCustomers == |resp.value|
                && currentTablePage == PageCountAtLeastOne(|resp.value|, rowsPerTablePage)
                && NextDisabled()
      ensures resp.None? ==> unchanged(this)
    {
      query := LastPageQuery(filters);
      if resp.Some? {
        var mapped := MapRows(resp.value);
        customerData := mapped;
        fetchedCount := |mapped|;
        hasMoreCustomers := false;
        totalCustomers := |mapped|;
        currentTablePage := PageCountAtLeastOne(|mapped|, rowsPerTablePage);
        TotalPageEffect();
      }
    }

    /** `getTotalCustomerPage`: the count of all customers and its pages. */
    method GetTotalCustomerPage(resp: Option<seq<RawCustomer>>)
      requires Valid()
      modifies this`totalCustomers, this`totalCustomerPage
      ensures Valid()
      ensures resp.Some? ==>
                && totalCustomers == |resp.value|
                && totalCustomerPage == PageCountAtLeastOne(|resp.value|, rowsPerTablePage)
      ensures resp.None? ==> unchanged(this)
    {
      if resp.Some? {
        totalCustomers := |resp.value|;
        TotalPageEffect();
      }
    }

    /** The first chunk of a filtered query has arrived (or not): the
        rows replace the loaded ones and the table goes back to page 1. */
    twostate predicate FirstChunkLoaded(resp: Option<seq<RawCustomer>>)
      requires resp.Some? ==> AllMappable(resp.value)
      reads this
    {
      if resp.Some? then
        && customerData == MapRows(resp.value) && fetchedCount == |resp.value|
        && hasMoreCustomers == (|resp.value| == FetchChunk) && currentTablePage == 1
      else
        && customerData == old(customerData) && fetchedCount == old(fetchedCount)
        && hasMoreCustomers == old(hasMoreCustomers) && currentTablePage == old(currentTablePage)
    }

    /** The `if (data)` block shared by `handleSelectChange` and the refresh. */
    method LoadFirstChunk(resp: Option<seq<RawCustomer>>)
      requires resp.Some? ==> AllMappable(resp.value)
      modifies this`customerData, this`fetchedCount, this`hasMoreCustomers, this`currentTablePage
      ensures FirstChunkLoaded(resp)
    {
      if resp.Some? {
        var mapped := MapRows(resp.value);
        customerData := mapped;
        fetchedCount := |mapped|;
        hasMoreCustomers := |mapped| == FetchChunk;
        currentTablePage := 1;
      }
    }

    /** Installing new filters re-reads the first chunk and the total count,
        with the rows-per-page effect when the Limit array was replaced. */
    method HandleSelectChange(field: Key, sel: Selected, over: Option<Filters>,
                              resp: Option<seq<RawCustomer>>, totalResp: Option<seq<RawCustomer>>)
      returns (query: seq<Pair>, totalQuery: seq<Pair>)
      requires Valid()
      requires LimitIsOption(UpdateFilters(filters, field, sel, over).limit)
      requires resp.Some? ==> AllMappable(resp.value)
      modifies this`filters, this`lastAppliedFilters, this`isFilteredTrigger
      modifies this`customerData, this`fetchedCount, this`hasMoreCustomers, this`totalCustomers
      modifies this`currentTablePage, this`rowsPerTablePage, this`totalCustomerPage
      ensures Valid()
      ensures filters == UpdateFilters(old(filters), field, sel, over)
      ensures lastAppliedFilters == Some(filters) && isFilteredTrigger
      ensures query == FilterPairs(filters) + [LimitPair(), SkipPair(0)]
      ensures totalQuery == TotalQuery(query) && totalQuery == FilterPairs(filters)
      ensures customerData == (if resp.Some? then MapRows(resp.value) else old(customerData))
      ensures fetchedCount == (if resp.Some? then |resp.value| else old(fetchedCount))
      ensures hasMoreCustomers == (if resp.Some? then |resp.value| == FetchChunk else old(hasMoreCustomers))
      ensures totalCustomers == if totalResp.Some? then |totalResp.value| else old(totalCustomers)
      ensures LimitEffectFires(old(filters), filters, field, over) || resp.Some? ==> currentTablePage == 1
      ensures !LimitEffectFires(old(filters), filters, field, over) ==> rowsPerTablePage == old(rowsPerTablePage)
      ensures !LimitEffectFires(old(filters), filters, field, over) && resp.None? ==>
                currentTablePage == old(currentTablePage)
    {
      var updated := UpdateFilters(filters, field, sel, over);
      var fires := LimitEffectFires(filters, updated, field, over);
      query, totalQuery := InstallFilters(updated);
      ReceiveResponses(resp, totalResp, fires);
    }

    /** The synchronous part of `handleSelectChange`: the new record, its
        copy as the last applied filters, the trigger flag, and the two
        queries built from it. */
    method InstallFilters(updated: Filters) returns (query: seq<Pair>, totalQuery: seq<Pair>)
      modifies this`filters, this`lastAppliedFilters, this`isFilteredTrigger
      ensures filters == updated && lastAppliedFilters == Some(updated) && isFilteredTrigger
      ensures query == FilterPairs(updated) + [LimitPair(), SkipPair(0)]
      ensures totalQuery == TotalQuery(query) && totalQuery == FilterPairs(updated)
    {
      query, totalQuery := PageAndTotalQuery(updated);
      filters := updated;
      lastAppliedFilters := Some(updated);
      isFilteredTrigger := true;
    }

    /** The two responses of `handleSelectChange` arriving, then the
        rows-per-page effect (when `fires`) and the page-count effect. */
    method ReceiveResponses(resp: Option<seq<RawCustomer>>, totalResp: Option<seq<RawCustomer>>, fires: bool)
      requires LimitIsOption(filters.limit) && currentTablePage >= 1 && !isFetchingMore
      requires !fires ==> rowsPerTablePage == LimitNumber(filters.limit)
      requires resp.Some? ==> AllMappable(resp.value)
      modifies this`customerData, this`fetchedCount, this`hasMoreCustomers, this`totalCustomers
      modifies this`currentTablePage, this`rowsPerTablePage, this`totalCustomerPage
      ensures Valid()
      ensures customerData == (if resp.Some? then MapRows(resp.value) else old(customerData))
      ensures fetchedCount == (if resp.Some? then |resp.value| else old(fetchedCount))
      ensures hasMoreCustomers == (if resp.Some? then |resp.value| == FetchChunk else old(hasMoreCustomers))
      ensures totalCustomers == if totalResp.Some? then |totalResp.value| else old(totalCustomers)
      ensures fires || resp.Some? ==> currentTablePage == 1
      ensures !fires ==> rowsPerTablePage == old(rowsPerTablePage)
      ensures !fires && resp.None? ==> currentTablePage == old(currentTablePage)
    {
      LoadFirstChunk(resp);
      if totalResp.Some? {
        totalCustomers := |totalResp.value|;
      }
      if fires {
        ApplyLimitEffect();
      }
      TotalPageEffect();
    }

    /** The dependent-picker effect, when a parent id changed. */
    method DependentEffectRun(before: Dependent)
      modifies this`filters
      ensures filters == if ParentIdsChanged(before, dependent) then DependentEffect(old(filters), dependent) else old(filters)
      ensures filters.limit == old(filters.limit)
    {
      if ParentIdsChanged(before, dependent) {
        filters := DependentEffect(filters, dependent);
        assert filters.Get(Limit) == old(filters).Get(Limit);
      }
    }

    /** `clearFilter`: the cleared record, no picks, and the first chunk
        again; the new Limit array resets the rows per page to 10. */
    method ClearFilter(resp: Option<seq<RawCustomer>>) returns (query: seq<Pair>)
      requires Valid()
      requires resp.Some? ==> AllMappable(resp.value)
      modifies this`filters, this`dependent, this`isFilteredTrigger
      modifies this`customerData, this`fetchedCount, this`hasMoreCustomers, this`currentTablePage, this`rowsPerTablePage, this`totalCustomerPage
      ensures Valid()
      ensures filters == ClearedFilters && dependent == NoDependent && !isFilteredTrigger
      ensures query == [LimitPair(), SkipPair(0)]
      ensures resp.Some? ==> customerData == MapRows(resp.value) && fetchedCount == |resp.value|
                             && hasMoreCustomers == (|resp.value| == FetchChunk)
      ensures resp.None? ==> customerData == old(customerData) && fetchedCount == 0 && hasMoreCustomers
      ensures rowsPerTablePage == 10 && currentTablePage == 1
    {
      var before := dependent;
      filters := ClearedFilters;
      dependent := NoDependent;
      isFilteredTrigger := false;
      DependentEffectRun(before);
      DependentEffectSettles(ClearedFilters, NoDependent);
      query := GetCustomers(resp);
      ApplyLimitEffect();
      Text.SmallNumerals();
      assert LimitNumber(ClearedFilters.limit) == 10;
      TotalPageEffect();
    }

    /** `refreshCustomersWithLastFilters`: the first chunk under the last
        installed filters, when there are any. */
    method RefreshCustomersWithLastFilters(resp: Option<seq<RawCustomer>>) returns (query: Option<seq<Pair>>)
      requires Valid()
      requires resp.Some? ==> AllMappable(resp.value)
      modifies this`customerData, this`fetchedCount, this`hasMoreCustomers, this`currentTablePage
      ensures Valid()
      ensures old(lastAppliedFilters).None? ==> query.None? && unchanged(this)
      ensures old(lastAppliedFilters).Some? ==>
                query == Some(FilterPairs(old(lastAppliedFilters).value) + [LimitPair(), SkipPair(0)])
      ensures old(lastAppliedFilters).Some? && resp.Some? ==>
                && customerData == MapRows(resp.value) && fetchedCount == |resp.value|
                && hasMoreCustomers == (|resp.value| == FetchChunk) && currentTablePage == 1
      ensures resp.None? ==> unchanged(this)
    {
      if lastAppliedFilters.None? {
        return None;
      }
      var q := PageQuery(lastAppliedFilters.value);
      query := Some(q);
      LoadFirstChunk(resp);
    }

    /** An object picker (Campaign, Type, Subtype, City, Location): the
        picked object's name for its key, the dependent pickers emptied,
        the filters installed as an override, then the dependent effect. */
    method ChooseObject(k: Key, picked: Option<Choice>,
                        resp: Option<seq<RawCustomer>>, totalResp: Option<seq<RawCustomer>>)
      returns (query: Option<seq<Pair>>)
      requires Valid() && IsObjectKey(k)
      requires resp.Some? ==> AllMappable(resp.value)
      modifies this`filters, this`dependent, this`lastAppliedFilters, this`isFilteredTrigger
      modifies this`customerData, this`fetchedCount, this`hasMoreCustomers, this`totalCustomers
      modifies this`currentTablePage, this`rowsPerTablePage, this`totalCustomerPage
      ensures Valid()
      ensures picked.None? ==> query.None? && unchanged(this)
      ensures picked.Some? ==>
                && dependent == ChooseDependent(old(dependent), k, picked.value)
                && lastAppliedFilters == Some(ChooseFilters(old(filters), k, picked.value.name))
                && query == Some(FilterPairs(lastAppliedFilters.value) + [LimitPair(), SkipPair(0)])
                && filters == AfterPick(old(filters), old(dependent), k, picked.value)
      ensures picked.Some? ==>
                && isFilteredTrigger
                && fetchedCount == (if resp.Some? then |resp.value| else old(fetchedCount))
                && hasMoreCustomers == (if resp.Some? then |resp.value| == FetchChunk else old(hasMoreCustomers))
                && totalCustomers == (if totalResp.Some? then |totalResp.value| else old(totalCustomers))
      ensures picked.Some? && resp.Some? ==> customerData == MapRows(resp.value) && currentTablePage == 1
      ensures picked.Some? && resp.None? ==>
                customerData == old(customerData) && currentTablePage == old(currentTablePage)
      ensures rowsPerTablePage == old(rowsPerTablePage)
    {
      if picked.None? {
        return None;
      }
      var before := dependent;
      var q := PickAndLoad(k, picked.value, resp, totalResp);
      query := Some(q);
      SettleDependent(before);
    }

    /** The picker's updates installed through `handleSelectChange` with
        the new record as its override, before the dependent effect. */
    method PickAndLoad(k: Key, c: Choice, resp: Option<seq<RawCustomer>>, totalResp: Option<seq<RawCustomer>>)
      returns (query: seq<Pair>)
      requires Valid() && IsObjectKey(k)
      requires resp.Some? ==> AllMappable(resp.value)
      modifies this`filters, this`dependent, this`lastAppliedFilters, this`isFilteredTrigger
      modifies this`customerData, this`fetchedCount, this`hasMoreCustomers, this`totalCustomers
      modifies this`currentTablePage, this`rowsPerTablePage, this`totalCustomerPage
      ensures Valid()
      ensures dependent == ChooseDependent(old(dependent), k, c)
      ensures filters == ChooseFilters(old(filters), k, c.name) && lastAppliedFilters == Some(filters)
      ensures query == FilterPairs(filters) + [LimitPair(), SkipPair(0)]
      ensures isFilteredTrigger
      ensures customerData == (if resp.Some? then MapRows(resp.value) else old(customerData))
      ensures fetchedCount == (if resp.Some? then |resp.value| else old(fetchedCount))
      ensures hasMoreCustomers == (if resp.Some? then |resp.value| == FetchChunk else old(hasMoreCustomers))
      ensures totalCustomers == if totalResp.Some? then |totalResp.value| else old(totalCustomers)
      ensures currentTablePage == if resp.Some? then 1 else old(currentTablePage)
      ensures rowsPerTablePage == old(rowsPerTablePage)
    {
      var updated := PickObject(k, c);
      var totalQuery;
      query, totalQuery := HandleSelectChange(k, Single(c.name), Some(updated), resp, totalResp);
    }

    /** The picker's own updates: the object's name for its key with the
        dependent filters emptied, and the dependent picks reset. */
    method PickObject(k: Key, c: Choice) returns (updated: Filters)
      requires Valid() && IsObjectKey(k)
      modifies this`filters, this`dependent
      ensures Valid()
      ensures updated == ChooseFilters(old(filters), k, c.name) && filters == updated
      ensures dependent == ChooseDependent(old(dependent), k, c)
      ensures updated.limit == old(filters).limit
    {
      updated := ChooseFilters(filters, k, c.name);
      assert updated.limit == filters.limit by {
        assert updated.Get(Limit) == filters.Get(Limit);
      }
      filters := updated;
      dependent := ChooseDependent(dependent, k, c);
    }

    /** The dependent-picker effect after a pick, then the page count
        for the filters it leaves. */
    method SettleDependent(before: Dependent)
      requires Valid()
      modifies this`filters, this`totalCustomerPage
      ensures Valid()
      ensures filters == if ParentIdsChanged(before, dependent) then DependentEffect(old(filters), dependent) else old(filters)
    {
      DependentEffectRun(before);
      TotalPageEffect();
    }

    /** `nexttablePage`. */
    method NextTablePage()
      requires Valid()
      modifies this`currentTablePage
      ensures Valid()
      ensures currentTablePage == if old(currentTablePage) != TotalTablePages() then old(currentTablePage) + 1 else old(currentTablePage)
    {
      if currentTablePage != TotalTablePages() {
        currentTablePage := currentTablePage + 1;
      }
    }

    /** `prevtablePage`. */
    method PrevTablePage()
      requires Valid()
      modifies this`currentTablePage
      ensures Valid()
      ensures currentTablePage == if old(currentTablePage) != 1 then old(currentTablePage) - 1 else 1
    {
      if currentTablePage != 1 {
        currentTablePage := currentTablePage - 1;
      }
    }

    /** The First button. */
    method FirstPage()
      requires Valid()
      modifies this`currentTablePage
      ensures Valid() && currentTablePage == 1
    {
      currentTablePage := 1;
    }

    /** The Prev button: `Math.max(prev - 1, 1)`. */
    method PrevButton()
      requires Valid()
      modifies this`currentTablePage
      ensures Valid()
      ensures currentTablePage == PrevPage(old(currentTablePage))
    {
      currentTablePage := PrevPage(currentTablePage);
    }

    /** The Next button: the next loaded page; on the last one, another
        chunk first when the server may have more. */
    method NextButton(resp: Option<seq<RawCustomer>>) returns (query: Option<seq<Pair>>)
      requires Valid()
      requires resp.Some? ==> AllMappable(resp.value)
      modifies this`customerData, this`fetchedCount, this`hasMoreCustomers, this`isFetchingMore, this`currentTablePage
      ensures Valid()
      ensures old(currentTablePage < TotalTablePages()) ==>
                currentTablePage == old(currentTablePage) + 1 && query.None?
                && customerData == old(customerData) && fetchedCount == old(fetchedCount) && hasMoreCustomers == old(hasMoreCustomers)
      ensures old(currentTablePage >= TotalTablePages() && hasMoreCustomers) ==>
                && currentTablePage == old(currentTablePage) + 1
                && query == Some([LimitPair(), SkipPair(|old(customerData)|)] + FilterPairs(filters))
                && (resp.Some? ==> customerData == old(customerData) + MapRows(resp.value)
                                   && fetchedCount == old(fetchedCount) + |resp.value|
                                   && hasMoreCustomers == (|resp.value| == FetchChunk))
                && (resp.None? ==> customerData == old(customerData) && fetchedCount == old(fetchedCount)
                                   && hasMoreCustomers == old(hasMoreCustomers))
      ensures old(currentTablePage >= TotalTablePages() && !hasMoreCustomers) ==> query.None? && unchanged(this)
    {
      query := None;
      if currentTablePage < TotalTablePages() {
        currentTablePage := currentTablePage + 1;
        return;
      }
      if hasMoreCustomers {
        query := FetchMore(resp);
        currentTablePage := currentTablePage + 1;
      }
    }

    /** `handleSelectRow`, then the export effect. */
    method SelectRow(id: Id)
      requires Valid()
      modifies this`selectedCustomers, this`exportingCustomerData
      ensures Valid()
      ensures selectedCustomers == ToggleRow(old(selectedCustomers), id)
      ensures exportingCustomerData == ExportSubset(customerData, selectedCustomers)
    {
      selectedCustomers := ToggleRow(selectedCustomers, id);
      ExportEffect();
    }

    /** `handleSelectAll` on the current page, then the export effect. */
    method SelectAllRows()
      requires Valid()
      modifies this`selectedCustomers, this`exportingCustomerData
      ensures Valid()
      ensures selectedCustomers == SelectAll(old(selectedCustomers), Ids(CurrentRows()))
      ensures |CurrentRows()| > 0 ==> (AllRowsSelected() <==> !old(AllRowsSelected()))
      ensures exportingCustomerData == ExportSubset(customerData, selectedCustomers)
    {
      SelectVisible();
      ExportEffect();
    }

    /** `handleSelectAll` itself: the visible ids ticked, or unticked when
        all of them already were. */
    method SelectVisible()
      requires Valid()
      modifies this`selectedCustomers
      ensures selectedCustomers == SelectAll(old(selectedCustomers), Ids(CurrentRows()))
      ensures |CurrentRows()| > 0 ==> (AllRowsSelected() <==> !old(AllRowsSelected()))
    {
      var visible := Ids(CurrentRows());
      if |visible| > 0 {
        SelectAllFlipsHeader(selectedCustomers, visible);
      }
      selectedCustomers := SelectAll(selectedCustomers, visible);
    }

    /** `handleSelectUser`. */
    method SelectUser(id: Id)
      modifies this`selectedUser
      ensures selectedUser == ToggleChoice(old(selectedUser), id)
    {
      selectedUser := ToggleChoice(selectedUser, id);
    }

    /** `handleSelectMailtemplate`. */
    method SelectMailtemplate(id: Id)
      modifies this`selectedMailtemplate
      ensures selectedMailtemplate == ToggleChoice(old(selectedMailtemplate), id)
    {
      selectedMailtemplate := ToggleChoice(selectedMailtemplate, id);
    }

    /** `handleSelectWhatsapptemplate`. */
    method SelectWhatsapptemplate(id: Id)
      modifies this`selectedWhatsapptemplate
      ensures selectedWhatsapptemplate == ToggleChoice(old(selectedWhatsapptemplate), id)
    {
      selectedWhatsapptemplate := ToggleChoice(selectedWhatsapptemplate, id);
    }

    /** The Delete All button: with rows loaded and nothing ticked, the
        current page's rows are ticked before the dialog opens. */
    method PrepareDeleteAll()
      requires Valid()
      modifies this`selectedCustomers, this`exportingCustomerData
      ensures Valid()
      ensures |customerData| > 0 && |old(selectedCustomers)| == 0 ==>
                selectedCustomers == Ids(CurrentRows())
                && exportingCustomerData == ExportSubset(customerData, selectedCustomers)
      ensures !(|customerData| > 0 && |old(selectedCustomers)| == 0) ==> unchanged(this)
    {
      if |customerData| > 0 && |selectedCustomers| < 1 {
        selectedCustomers := Ids(CurrentRows());
        ExportEffect();
      }
    }
  }
}
