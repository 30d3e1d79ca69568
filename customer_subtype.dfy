/** The customer-subtype master list: the subtypes loaded once with their
    names capitalised, a case-insensitive keyword filter over the name and
    the names of the campaign and the customer type, and client-side pages
    whose count is `Math.max(1, Math.ceil(n / r))`, never 0. */
module CustomerSubtypes {
  import opened Options
  import opened Lists
  import opened Text
  import opened Paging
  import opened MasterLimit

  /** A populated reference (campaign or customer type) with its name. */
  datatype NamedRef = NamedRef(name: string)

  /** A customer subtype as the server sends it. */
  datatype Subtype = Subtype(id: string, name: string, campaign: Option<NamedRef>, customerType: Option<NamedRef>)

  /** One element of the `fetchSubtypes` map: `Name` capitalised, every
      other field copied. */
  function FormatSubtype(s: Subtype): (u: Subtype)
    ensures u.id == s.id && u.campaign == s.campaign && u.customerType == s.customerType
    ensures |u.name| == |s.name|
    ensures s.name != "" ==> u.name[0] == UpperChar(s.name[0]) && u.name[1..] == s.name[1..]
  {
    s.(name := Capitalize(s.name))
  }

  function FormatSubtypes(data: seq<Subtype>): (r: seq<Subtype>)
    ensures |r| == |data|
    ensures forall i :: 0 <= i < |data| ==> r[i] == FormatSubtype(data[i])
  {
    seq(|data|, i requires 0 <= i < |data| => FormatSubtype(data[i]))
  }

  lemma FormatSubtypesConcat(a: seq<Subtype>, b: seq<Subtype>)
    ensures FormatSubtypes(a + b) == FormatSubtypes(a) + FormatSubtypes(b)
  {
    assert forall i :: 0 <= i < |a + b| ==> (a + b)[i] == if i < |a| then a[i] else b[i - |a|];
  }

  /** `ref?.Name.toLowerCase().includes(kw)`: false when the reference is
      missing. */
  predicate RefMatches(r: Option<NamedRef>, keyword: string) {
    r.Some? && Includes(Lower(r.value.name), Lower(keyword))
  }

  /** The `filtered` test for one subtype. */
  predicate Matches(s: Subtype, keyword: string) {
    keyword == "" || Includes(Lower(s.name), Lower(keyword))
    || RefMatches(s.campaign, keyword) || RefMatches(s.customerType, keyword)
  }

  function MatchesKeyword(keyword: string): Subtype -> bool {
    (s: Subtype) => Matches(s, keyword)
  }

  /** `filtered`: the subtypes that match, in their order. */
  function FilterSubtypes(subtypes: seq<Subtype>, keyword: string): (r: seq<Subtype>)
    ensures forall s :: s in r <==> s in subtypes && Matches(s, keyword)
    ensures IsSubsequence(r, subtypes)
    ensures forall s :: multiset(r)[s] == if Matches(s, keyword) then multiset(subtypes)[s] else 0
  {
    FilterIsSubsequence(subtypes, MatchesKeyword(keyword));
    FilterCount(subtypes, MatchesKeyword(keyword));
    Filter(subtypes, MatchesKeyword(keyword))
  }

  lemma FilterSubtypesEmptyKeyword(subtypes: seq<Subtype>)
    ensures FilterSubtypes(subtypes, "") == subtypes
  {
    assert forall i :: 0 <= i < |subtypes| ==> MatchesKeyword("")(subtypes[i]);
    FilterAllKept(subtypes, MatchesKeyword(""));
  }

  lemma FormatKeepsMatch(s: Subtype, keyword: string)
    ensures Matches(FormatSubtype(s), keyword) == Matches(s, keyword)
  {
    LowerOfCapitalize(s.name);
  }

  /** Filtering the formatted list is formatting the filtered list. */
  lemma {:induction false} FilterAfterFormat(data: seq<Subtype>, keyword: string)
    ensures FilterSubtypes(FormatSubtypes(data), keyword) == FormatSubtypes(FilterSubtypes(data, keyword))
    decreases |data|
  {
    if data != [] {
      var keep := MatchesKeyword(keyword);
      var fd := FormatSubtypes(data);
      FilterCons(fd, keep);
      FilterCons(data, keep);
      assert fd[1..] == FormatSubtypes(data[1..]);
      FormatKeepsMatch(data[0], keyword);
      FilterAfterFormat(data[1..], keyword);
      var head := if keep(data[0]) then [data[0]] else [];
      FormatSubtypesConcat(head, Filter(data[1..], keep));
      assert FormatSubtypes(head) == if keep(data[0]) then [fd[0]] else [];
    } else {
      assert FormatSubtypes(data) == [];
    }
  }

  /** The serial column `indexOfFirstRow + i + 1`, with
      `indexOfFirstRow = p * r - r`, is the shared serial number. */
  lemma SerialFromFirstRow(p: nat, r: nat, i: nat)
    requires p >= 1
    ensures p * r - r >= 0
    ensures p * r - r + i + 1 == SerialNumber(p, r, i)
  {
    assert p * r - r == (p - 1) * r;
  }

  class SubtypeListPage {
    var subtypes: seq<Subtype>
    var keyword: string
    var limit: string
    var currentTablePage: nat
    var rowsPerTablePage: nat

    ghost predicate Valid()
      reads this
    {
      limit in LimitChoices && rowsPerTablePage == RowsFor(limit) && currentTablePage >= 1
    }

    constructor ()
      ensures Valid()
      ensures subtypes == [] && keyword == "" && limit == DefaultLimit
      ensures currentTablePage == 1 && rowsPerTablePage == 10
    {
      subtypes := [];
      keyword := "";
      limit := DefaultLimit;
      currentTablePage := 1;
      rowsPerTablePage := 10;
      DefaultRows();
    }

    function Filtered(): (r: seq<Subtype>)
      reads this
      ensures forall s :: s in r <==> s in subtypes && Matches(s, keyword)
      ensures IsSubsequence(r, subtypes)
      ensures forall s :: multiset(r)[s] == if Matches(s, keyword) then multiset(subtypes)[s] else 0
    {
      FilterSubtypes(subtypes, keyword)
    }

    /** `totalTablePages`: at least one page even when nothing matches. */
    function TotalTablePages(): (n: nat)
      reads this
      requires rowsPerTablePage > 0
      ensures n >= 1
      ensures |Filtered()| > 0 ==> n == CeilDiv(|Filtered()|, rowsPerTablePage)
      ensures (n - 1) * rowsPerTablePage <= |Filtered()| <= n * rowsPerTablePage
    {
      PageCountAtLeastOne(|Filtered()|, rowsPerTablePage)
    }

    /** `currentRows`: `slice(indexOfFirstRow, indexOfLastRow)`. */
    function CurrentRows(): (rows: seq<Subtype>)
      reads this
      requires rowsPerTablePage > 0 && currentTablePage >= 1
      ensures rows == PageRows(Filtered(), currentTablePage, rowsPerTablePage)
      ensures |rows| <= rowsPerTablePage
    {
      LastRowFormIsPageRows(Filtered(), currentTablePage, rowsPerTablePage);
      Slice(Filtered(), currentTablePage * rowsPerTablePage - rowsPerTablePage, currentTablePage * rowsPerTablePage)
    }

    predicate NextDisabled()
      reads this
      requires rowsPerTablePage > 0 && currentTablePage >= 1
    {
      currentTablePage == TotalTablePages() || |CurrentRows()| <= 0
    }

    /** `fetchSubtypes`: a truthy response replaces the list, capitalised. */
    method FetchSubtypes(data: Option<seq<Subtype>>)
      modifies this`subtypes
      ensures data.Some? ==> subtypes == FormatSubtypes(data.value)
      ensures data.None? ==> subtypes == old(subtypes)
    {
      if data.Some? {
        var formatted := FormatSubtypes(data.value);
        subtypes := formatted;
      }
    }

    /** The Keyword input. The page is not reset. */
    method SetKeyword(k: string)
      modifies this`keyword
      ensures keyword == k
    {
      keyword := k;
    }

    /** The Limit picker, then the `[limit]` effect when the value changed. */
    method SetLimit(l: string)
      requires Valid() && l in LimitChoices
      modifies this`limit, this`rowsPerTablePage, this`currentTablePage
      ensures Valid() && limit == l && rowsPerTablePage == RowsFor(l)
      ensures l != old(limit) ==> currentTablePage == 1
      ensures l == old(limit) ==> currentTablePage == old(currentTablePage)
    {
      var changed := l != limit;
      limit := l;
      if changed {
        rowsPerTablePage := RowsFor(limit);
        currentTablePage := 1;
      }
    }

    /** `handleClear`. */
    method Clear()
      requires Valid()
      modifies this`keyword, this`limit, this`rowsPerTablePage, this`currentTablePage
      ensures Valid() && keyword == "" && limit == DefaultLimit && rowsPerTablePage == 10
      ensures old(limit) != DefaultLimit ==> currentTablePage == 1
      ensures old(limit) == DefaultLimit ==> currentTablePage == old(currentTablePage)
    {
      keyword := "";
      DefaultRows();
      SetLimit(DefaultLimit);
    }

    /** The Prev button: `Math.max(1, p - 1)`. */
    method PrevButton()
      requires Valid()
      modifies this`currentTablePage
      ensures Valid() && currentTablePage == PrevPage(old(currentTablePage))
    {
      currentTablePage := PrevPage(currentTablePage);
    }

    /** The Next button: `p < totalTablePages ? p + 1 : p`; from a page
        within the count it never passes the last page. */
    method NextButton()
      requires Valid()
      modifies this`currentTablePage
      ensures Valid() && currentTablePage == NextPage(old(currentTablePage), TotalTablePages())
      ensures old(currentTablePage) <= TotalTablePages() ==> currentTablePage <= TotalTablePages()
      ensures old(currentTablePage) == TotalTablePages() ==> currentTablePage == old(currentTablePage)
    {
      currentTablePage := NextPage(currentTablePage, TotalTablePages());
    }
  }

  /** When the Next button is enabled, a click moves to the next page. */
  lemma NextEnabledAdvances(filtered: seq<Subtype>, p: nat, r: nat)
    requires p >= 1 && r > 0
    requires p != PageCountAtLeastOne(|filtered|, r) && |PageRows(filtered, p, r)| > 0
    ensures NextPage(p, PageCountAtLeastOne(|filtered|, r)) == p + 1
  {
    PageNonEmptyIff(filtered, p, r);
  }
}
