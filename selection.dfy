/** The customer list's selection state: the ids of the ticked rows, in the
    order they were ticked, and the single-choice pickers for the user and
    the mail and WhatsApp templates. */
module Selection {
  import opened Options
  import opened Lists

  type Id = string

  /** `prev.filter((cid) => cid !== id)`. */
  function Without(prev: seq<Id>, id: Id): (r: seq<Id>)
    ensures id !in r
    ensures forall y :: y != id ==> (y in r <==> y in prev)
    ensures multiset(r) == multiset(prev)[id := 0]
    ensures IsSubsequence(r, prev)
  {
    var keep := (cid: Id) => cid != id;
    FilterCount(prev, keep);
    FilterIsSubsequence(prev, keep);
    Filter(prev, keep)
  }

  /** `handleSelectRow`: untick an id that is ticked (every occurrence of it
      goes), tick one that is not by appending it. */
  function ToggleRow(prev: seq<Id>, id: Id): (r: seq<Id>)
    ensures id in r <==> id !in prev
    ensures forall y :: y != id ==> (y in r <==> y in prev)
    ensures id in prev ==> multiset(r) == multiset(prev)[id := 0] && IsSubsequence(r, prev)
    ensures id !in prev ==> |r| == |prev| + 1 && r[..|prev|] == prev && r[|prev|] == id
  {
    if id in prev then Without(prev, id) else prev + [id]
  }

  /** Ticking an id that was not ticked and then unticking it restores the
      selection exactly. */
  lemma ToggleRowTwiceRestores(prev: seq<Id>, id: Id)
    requires id !in prev
    ensures ToggleRow(ToggleRow(prev, id), id) == prev
  {
    var once := prev + [id];
    assert ToggleRow(prev, id) == once;
    var keep := (cid: Id) => cid != id;
    assert forall i :: 0 <= i < |prev| ==> keep(prev[i]);
    FilterConcat(prev, [id], keep);
    FilterAllKept(prev, keep);
    FilterCons([id], keep);
    assert [id][1..] == [];
  }

  /** Toggling keeps a selection duplicate-free. */
  lemma ToggleRowNoDuplicates(prev: seq<Id>, id: Id)
    requires NoDuplicates(prev)
    ensures NoDuplicates(ToggleRow(prev, id))
  {
    if id in prev {
      FilterNoDuplicates(prev, (cid: Id) => cid != id);
    } else {
      var r := prev + [id];
      forall i, j | 0 <= i < j < |r| ensures r[i] != r[j] {
        if j == |prev| {
          assert r[i] == prev[i];
        }
      }
    }
  }

  /** `allIds.every((id) => prev.includes(id))`. */
  predicate AllIn(ids: seq<Id>, selected: seq<Id>) {
    forall i :: 0 <= i < |ids| ==> ids[i] in selected
  }

  /** The header checkbox: `currentRows.length > 0 && currentRows.every(...)`. */
  predicate HeaderChecked(visible: seq<Id>, selected: seq<Id>) {
    |visible| > 0 && AllIn(visible, selected)
  }

  /** `handleSelectAll` on the ids of the visible rows: when all are ticked,
      untick them; otherwise tick them all, `[...new Set([...prev, ...allIds])]`. */
  function SelectAll(prev: seq<Id>, visible: seq<Id>): (r: seq<Id>)
    ensures AllIn(visible, prev) ==>
              (forall y :: y in r <==> y in prev && y !in visible) && IsSubsequence(r, prev)
    ensures !AllIn(visible, prev) ==>
              (forall y :: y in r <==> y in prev || y in visible) && NoDuplicates(r)
    ensures !AllIn(visible, prev) && NoDuplicates(prev) ==> |prev| <= |r| && r[..|prev|] == prev
  {
    if AllIn(visible, prev) then
      var keep := (id: Id) => id !in visible;
      FilterIsSubsequence(prev, keep);
      Filter(prev, keep)
    else
      var r := Dedup(prev + visible);
      if NoDuplicates(prev) then DedupKeepsPrefix(prev, visible); r else r
  }

  /** Unticking all visible ids removes every copy of them and keeps every
      copy of the other ids. */
  lemma SelectAllUntickCounts(prev: seq<Id>, visible: seq<Id>)
    requires AllIn(visible, prev)
    ensures forall y :: multiset(SelectAll(prev, visible))[y] == if y in visible then 0 else multiset(prev)[y]
  {
    FilterCount(prev, (id: Id) => id !in visible);
  }

  /** On a page with at least one row, select-all flips the header checkbox. */
  lemma SelectAllFlipsHeader(prev: seq<Id>, visible: seq<Id>)
    requires |visible| > 0
    ensures HeaderChecked(visible, SelectAll(prev, visible)) <==> !HeaderChecked(visible, prev)
  {
    var r := SelectAll(prev, visible);
    if AllIn(visible, prev) {
      assert visible[0] !in r;
    }
  }

  /** Select-all keeps a selection duplicate-free. */
  lemma SelectAllNoDuplicates(prev: seq<Id>, visible: seq<Id>)
    requires NoDuplicates(prev)
    ensures NoDuplicates(SelectAll(prev, visible))
  {
    if AllIn(visible, prev) {
      FilterNoDuplicates(prev, (id: Id) => id !in visible);
    }
  }

  /** `handleSelectUser` and the two template pickers: choosing the current
      choice clears it, choosing anything else makes it the only choice. */
  function ToggleChoice(prev: Option<Id>, id: Id): (r: Option<Id>)
    ensures r == None <==> prev == Some(id)
    ensures r != None ==> r == Some(id)
  {
    if prev == Some(id) then None else Some(id)
  }

  /** Choosing the same id twice from an empty picker leaves it empty. */
  lemma ToggleChoiceTwice(prev: Option<Id>, id: Id)
    requires prev == None || prev == Some(id)
    ensures ToggleChoice(ToggleChoice(prev, id), id) == prev
  {
  }
}
