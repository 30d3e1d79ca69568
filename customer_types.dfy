/** The customer-type master list: the types loaded once with their names
    capitalised, a case-insensitive keyword filter over the type's name and
    its campaign's name, and client-side pages whose count is
    `Math.ceil(n / r)` with no floor, so an empty list has 0 pages. */
module CustomerTypes {
  import opened Options
  import opened Lists
  import opened Text
  import opened Paging
  import opened MasterLimit

  /** The populated campaign of a type; its name may be absent. */
  datatype CampaignRef = CampaignRef(name: Option<string>)

  /** A customer type as the server sends it. */
  datatype CustomerType = CustomerType(id: string, name: string, campaign: Option<CampaignRef>)

  /** One element of the `fetchTypes` map: `Name` capitalised, every other
      field copied. */
  function FormatType(t: CustomerType): (u: CustomerType)
    ensures u.id == t.id && u.campaign == t.campaign
    ensures |u.name| == |t.name|
    ensures t.name != "" ==> u.name[0] == UpperChar(t.name[0]) && u.name[1..] == t.name[1..]
  {
    t.(name := Capitalize(t.name))
  }

  /** `data.map(...)` in `fetchTypes`. */
  function FormatTypes(data: seq<CustomerType>): (r: seq<CustomerType>)
    ensures |r| == |data|
    ensures forall i :: 0 <= i < |data| ==> r[i] == FormatType(data[i])
  {
    seq(|data|, i requires 0 <= i < |data| => FormatType(data[i]))
  }

  lemma FormatTypesConcat(a: seq<CustomerType>, b: seq<CustomerType>)
    ensures FormatTypes(a + b) == FormatTypes(a) + FormatTypes(b)
  {
    assert forall i :: 0 <= i < |a + b| ==> (a + b)[i] == if i < |a| then a[i] else b[i - |a|];
  }

  /** `t.Campaign?.Name?.toLowerCase().includes(kw)`: false when the
      campaign or its name is missing. */
  predicate CampaignMatches(c: Option<CampaignRef>, keyword: string) {
    c.Some? && c.value.name.Some? && Includes(Lower(c.value.name.value), Lower(keyword))
  }

  /** The `filteredTypes` test for one type. */
  predicate Matches(t: CustomerType, keyword: string) {
    keyword == "" || Includes(Lower(t.name), Lower(keyword)) || CampaignMatches(t.campaign, keyword)
  }

  function MatchesKeyword(keyword: string): CustomerType -> bool {
    (t: CustomerType) => Matches(t, keyword)
  }

  /** `filteredTypes`: the types that match, in their order. */
  function FilterTypes(types: seq<CustomerType>, keyword: string): (r: seq<CustomerType>)
    ensures forall t :: t in r <==> t in types && Matches(t, keyword)
    ensures IsSubsequence(r, types)
    ensures forall t :: multiset(r)[t] == if Matches(t, keyword) then multiset(types)[t] else 0
  {
    FilterIsSubsequence(types, MatchesKeyword(keyword));
    FilterCount(types, MatchesKeyword(keyword));
    Filter(types, MatchesKeyword(keyword))
  }

  /** With no keyword every type is shown. */
  lemma FilterTypesEmptyKeyword(types: seq<CustomerType>)
    ensures FilterTypes(types, "") == types
  {
    assert forall i :: 0 <= i < |types| ==> MatchesKeyword("")(types[i]);
    FilterAllKept(types, MatchesKeyword(""));
  }

  /** Capitalising a name does not change whether it matches: both sides
      of `includes` are lower-cased first. */
  lemma FormatKeepsMatch(t: CustomerType, keyword: string)
    ensures Matches(FormatType(t), keyword) == Matches(t, keyword)
  {
    LowerOfCapitalize(t.name);
  }

  /** Filtering the formatted list is formatting the filtered list. */
  lemma {:induction false} FilterAfterFormat(data: seq<CustomerType>, keyword: string)
    ensures FilterTypes(FormatTypes(data), keyword) == FormatTypes(FilterTypes(data, keyword))
    decreases |data|
  {
    if data != [] {
      var keep := MatchesKeyword(keyword);
      var fd := FormatTypes(data);
      FilterCons(fd, keep);
      FilterCons(data, keep);
      assert fd[1..] == FormatTypes(data[1..]);
      FormatKeepsMatch(data[0], keyword);
      FilterAfterFormat(data[1..], keyword);
      var head := if keep(data[0]) then [data[0]] else [];
      FormatTypesConcat(head, Filter(data[1..], keep));
      assert FormatTypes(head) == if keep(data[0]) then [fd[0]] else [];
    } else {
      assert FormatTypes(data) == [];
    }
  }

  /** The list page, with the state it keeps between renders; the Limit
      effect has run after every handler. */
  class CustomerTypeListPage {
    var types: seq<CustomerType>
    var keyword: string
    var limit: string
    var currentTablePage: nat
    var rowsPerTablePage: nat

    ghost predicate Valid()
      reads this
    {
      limit in LimitChoices && rowsPerTablePage == RowsFor(limit) && currentTablePage >= 1
    }

    constructor ()
      ensures Valid()
      ensures types == [] && keyword == "" && limit == DefaultLimit
      ensures currentTablePage == 1 && rowsPerTablePage == 10
    {
      types := [];
      keyword := "";
      limit := DefaultLimit;
      currentTablePage := 1;
      rowsPerTablePage := 10;
      DefaultRows();
    }

    /** `filteredTypes`. */
    function Filtered(): (r: seq<CustomerType>)
      reads this
      ensures forall t :: t in r <==> t in types && Matches(t, keyword)
      ensures IsSubsequence(r, types)
      ensures forall t :: multiset(r)[t] == if Matches(t, keyword) then multiset(types)[t] else 0
    {
      FilterTypes(types, keyword)
    }

    /** `totalTablePages`: `Math.ceil(n / r)`, 0 when nothing matches. */
    function TotalTablePages(): (n: nat)
      reads this
      requires rowsPerTablePage > 0
      ensures n == 0 <==> |Filtered()| == 0
      ensures n * rowsPerTablePage >= |Filtered()|
      ensures n > 0 ==> (n - 1) * rowsPerTablePage < |Filtered()|
    {
      CeilDiv(|Filtered()|, rowsPerTablePage)
    }

    /** `currentRows`: `slice(p * r - r, p * r)` of the filtered types. */
    function CurrentRows(): (rows: seq<CustomerType>)
      reads this
      requires rowsPerTablePage > 0 && currentTablePage >= 1
      ensures rows == PageRows(Filtered(), currentTablePage, rowsPerTablePage)
      ensures |rows| <= rowsPerTablePage
    {
      LastRowFormIsPageRows(Filtered(), currentTablePage, rowsPerTablePage);
      Slice(Filtered(), currentTablePage * rowsPerTablePage - rowsPerTablePage, currentTablePage * rowsPerTablePage)
    }

    /** The Next button is disabled on the last page or when the page shows
        no row. */
    predicate NextDisabled()
      reads this
      requires rowsPerTablePage > 0 && currentTablePage >= 1
    {
      currentTablePage == TotalTablePages() || |CurrentRows()| <= 0
    }

    /** `fetchTypes`: a truthy response replaces the list, capitalised. */
    method FetchTypes(data: Option<seq<CustomerType>>)
      modifies this`types
      ensures data.Some? ==> types == FormatTypes(data.value)
      ensures data.None? ==> types == old(types)
    {
      if data.Some? {
        var formatted := FormatTypes(data.value);
        types := formatted;
      }
    }

    /** The Keyword input. The page is not reset. */
    method SetKeyword(k: string)
      modifies this`keyword
      ensures keyword == k
    {
      keyword := k;
    }

    /** The Limit picker, then the `[limit]` effect when the value changed:
        the rows per page follow the limit and the table returns to page 1. */
    method SetLimit(l: string)
      requires Valid() && l in LimitChoices
      modifies this`limit, this`rowsPerTablePage, this`currentTablePage
      ensures Valid() && limit == l && rowsPerTablePage == RowsFor(l)
      ensures l != old(limit) ==> currentTablePage == 1
      ensures l == old(limit) ==> currentTablePage == old(currentTablePage)
    {
      var changed := l != limit;
      limit := l;
      if changed {
        rowsPerTablePage := RowsFor(limit);
        currentTablePage := 1;
      }
    }

    /** `handleClear`: no keyword and the default limit, with the effect
        when the limit was another one. */
    method Clear()
      requires Valid()
      modifies this`keyword, this`limit, this`rowsPerTablePage, this`currentTablePage
      ensures Valid() && keyword == "" && limit == DefaultLimit && rowsPerTablePage == 10
      ensures old(limit) != DefaultLimit ==> currentTablePage == 1
      ensures old(limit) == DefaultLimit ==> currentTablePage == old(currentTablePage)
    {
      keyword := "";
      DefaultRows();
      SetLimit(DefaultLimit);
    }

    /** The Prev button: `Math.max(1, p - 1)`. */
    method PrevButton()
      requires Valid()
      modifies this`currentTablePage
      ensures Valid() && currentTablePage == PrevPage(old(currentTablePage))
    {
      currentTablePage := PrevPage(currentTablePage);
    }

    /** The Next button: `p < totalTablePages ? p + 1 : p`. */
    method NextButton()
      requires Valid()
      modifies this`currentTablePage
      ensures Valid() && currentTablePage == NextPage(old(currentTablePage), TotalTablePages())
    {
      currentTablePage := NextPage(currentTablePage, TotalTablePages());
    }
  }

  /** When the Next button is enabled, the page is one that shows rows and
      is not the last, so a click moves to the next page. */
  lemma NextEnabledAdvances(filtered: seq<CustomerType>, p: nat, r: nat)
    requires p >= 1 && r > 0
    requires p != CeilDiv(|filtered|, r) && |PageRows(filtered, p, r)| > 0
    ensures NextPage(p, CeilDiv(|filtered|, r)) == p + 1
  {
    PageNonEmptyIff(filtered, p, r);
  }

  /** After the keyword narrows the list the page is kept, so it can lie
      past the last page: the table is then empty although rows match,
      Next is disabled and Prev steps back one page at a time. */
  lemma StalePageShowsNothing(filtered: seq<CustomerType>, p: nat, r: nat)
    requires p >= 1 && r > 0 && p > CeilDiv(|filtered|, r)
    ensures |PageRows(filtered, p, r)| == 0
    ensures NextPage(p, CeilDiv(|filtered|, r)) == p
  {
    PageNonEmptyIff(filtered, p, r);
  }
}
