/** The customer list's filter record, how a picked value is normalised
    into it, how it is written out as an ordered list of query pairs, and
    the resets between dependent pickers (Campaign -> Type -> Subtype,
    City -> Location). */
module FilterQuery {
  import opened Options
  import opened Lists
  import Text

  /** One `name=value` pair of a query, in the order it was appended. */
  type Pair = (string, string)

  /** The keys of the filter record, in the order the record declares them
      (the order `Object.entries` visits them). */
  datatype Key = StatusAssign | Campaign | CustomerType | CustomerSubType | City | Location | User | Keyword | Limit

  function KeyName(k: Key): string {
    match k
    case StatusAssign => "StatusAssign"
    case Campaign => "Campaign"
    case CustomerType => "CustomerType"
    case CustomerSubType => "CustomerSubType"
    case City => "City"
    case Location => "Location"
    case User => "User"
    case Keyword => "Keyword"
    case Limit => "Limit"
  }

  const KeyOrder: seq<Key> := [StatusAssign, Campaign, CustomerType, CustomerSubType, City, Location, User, Keyword, Limit]

  /** Position of a key in `KeyOrder`. */
  function KeyIndex(k: Key): (i: nat)
    ensures i < |KeyOrder| && KeyOrder[i] == k
  {
    match k
    case StatusAssign => 0
    case Campaign => 1
    case CustomerType => 2
    case CustomerSubType => 3
    case City => 4
    case Location => 5
    case User => 6
    case Keyword => 7
    case Limit => 8
  }

  /** Position of the key a query name belongs to; names that are no key
      rank after all keys. */
  function NameRank(name: string): (i: nat)
    ensures forall k :: KeyName(k) == name ==> i == KeyIndex(k)
  {
    if name == "StatusAssign" then 0
    else if name == "Campaign" then 1
    else if name == "CustomerType" then 2
    else if name == "CustomerSubType" then 3
    else if name == "City" then 4
    else if name == "Location" then 5
    else if name == "User" then 6
    else if name == "Keyword" then 7
    else if name == "Limit" then 8
    else 9
  }

  lemma KeyNameInjective(a: Key, b: Key)
    ensures KeyName(a) == KeyName(b) ==> a == b
  {
  }

  /** A filter value: a list of picked names, or the initial keyword text. */
  datatype Value = Many(items: seq<string>) | One(text: string)

  datatype Filters = Filters(
    statusAssign: Value, campaign: Value, customerType: Value, customerSubType: Value,
    city: Value, location: Value, user: Value, keyword: Value, limit: Value)
  {
    function Get(k: Key): Value {
      match k
      case StatusAssign => statusAssign
      case Campaign => campaign
      case CustomerType => customerType
      case CustomerSubType => customerSubType
      case City => city
      case Location => location
      case User => user
      case Keyword => keyword
      case Limit => limit
    }

    /** `{ ...filters, [k]: v }`. */
    function Set(k: Key, v: Value): (r: Filters)
      ensures r.Get(k) == v
      ensures forall j :: j != k ==> r.Get(j) == Get(j)
    {
      match k
      case StatusAssign => this.(statusAssign := v)
      case Campaign => this.(campaign := v)
      case CustomerType => this.(customerType := v)
      case CustomerSubType => this.(customerSubType := v)
      case City => this.(city := v)
      case Location => this.(location := v)
      case User => this.(user := v)
      case Keyword => this.(keyword := v)
      case Limit => this.(limit := v)
    }
  }

  /** The record the page starts with. */
  const InitialFilters: Filters :=
    Filters(Many([]), Many([]), Many([]), Many([]), Many([]), Many([]), Many([]), One(""), Many(["100"]))

  /** The record `clearFilter` installs. */
  const ClearedFilters: Filters :=
    Filters(Many([]), Many([]), Many([]), Many([]), Many([]), Many([]), Many([]), One(""), Many(["10"]))

  /** The options of the Limit picker. */
  const LimitOptions: seq<string> := ["10", "25", "50", "100"]

  /** A Limit value the rows-per-page effect can read: one picked option. */
  predicate LimitIsOption(v: Value) {
    v.Many? && |v.items| == 1 && v.items[0] in LimitOptions
  }

  /** `Number(filters.Limit[0])` for a Limit value that is one option. */
  function LimitNumber(v: Value): (n: nat)
    requires LimitIsOption(v)
    ensures n > 0
    ensures Text.NatToString(n) == v.items[0]
  {
    Text.SmallNumerals();
    var s := v.items[0];
    if s == "10" then 10 else if s == "25" then 25 else if s == "50" then 50 else 100
  }

  /** What `handleSelectChange` receives from a picker or the keyword box. */
  datatype Selected = Multi(values: seq<string>) | Single(value: string)

  /** `Array.isArray(selected) ? selected : selected ? [selected] : []`. */
  function Normalize(sel: Selected): (v: Value)
    ensures v.Many?
    ensures sel.Multi? ==> v.items == sel.values
    ensures sel.Single? ==> (v.items == [] <==> sel.value == "")
    ensures sel.Single? && sel.value != "" ==> v.items == [sel.value]
  {
    match sel
    case Multi(xs) => Many(xs)
    case Single(s) => if s != "" then Many([s]) else Many([])
  }

  /** The record `handleSelectChange` installs: the override when one is
      given, otherwise the current record with only `field` replaced. */
  function UpdateFilters(f: Filters, field: Key, sel: Selected, over: Option<Filters>): (r: Filters)
    ensures over.Some? ==> r == over.value
    ensures over.None? ==> r.Get(field) == Normalize(sel)
    ensures over.None? ==> forall k :: k != field ==> r.Get(k) == f.Get(k)
  {
    match over
    case Some(o) => o
    case None => f.Set(field, Normalize(sel))
  }

  /** `(name, v)` for each `v` of `xs`, in order. */
  function ManyPairs(name: string, xs: seq<string>): (q: seq<Pair>)
    ensures |q| == |xs|
    ensures forall i :: 0 <= i < |xs| ==> q[i] == (name, xs[i])
  {
    seq(|xs|, i requires 0 <= i < |xs| => (name, xs[i]))
  }

  /** The pairs one entry of the record contributes (the `forEach` body of
      `handleSelectChange`): none for Limit, one per element of a list, one
      for a non-empty text. The key named "Limit" is `Limit`, since names
      are distinct. */
  function EntryPairs(k: Key, v: Value): seq<Pair> {
    if k == Limit then []
    else match v
      case Many(xs) => if |xs| > 0 then ManyPairs(KeyName(k), xs) else []
      case One(s) => if s != "" then [(KeyName(k), s)] else []
  }

  /** The same body as `fetchMore` and `handleLastPage` write it: two
      independent `if`s and no length test on the list. */
  function EntryPairsFetchMoreForm(k: Key, v: Value): seq<Pair> {
    if k == Limit then []
    else
      (if v.Many? then ManyPairs(KeyName(k), v.items) else [])
      + (if v.One? && v.text != "" then [(KeyName(k), v.text)] else [])
  }

  lemma SerialisationFormsAgree(k: Key, v: Value)
    ensures EntryPairsFetchMoreForm(k, v) == EntryPairs(k, v)
  {
    if v.Many? && |v.items| == 0 {
      assert ManyPairs(KeyName(k), v.items) == [];
    }
  }

  /** The pairs of the entries `keys`, one entry after the other. */
  function PairsOf(f: Filters, keys: seq<Key>): seq<Pair>
    decreases |keys|
  {
    if keys == [] then []
    else PairsOf(f, keys[..|keys| - 1]) + EntryPairs(keys[|keys| - 1], f.Get(keys[|keys| - 1]))
  }

  /** One more key of the list adds that entry's pairs at the end. */
  lemma PairsOfPrefix(f: Filters, keys: seq<Key>, i: nat)
    requires i < |keys|
    ensures PairsOf(f, keys[..i + 1]) == PairsOf(f, keys[..i]) + EntryPairs(keys[i], f.Get(keys[i]))
  {
    assert keys[..i + 1][..i] == keys[..i];
  }

  /** The pairs of the whole record. */
  function FilterPairs(f: Filters): seq<Pair> {
    PairsOf(f, KeyOrder)
  }

  /** The `forEach` body for one entry: append its pairs to the query. */
  method AppendEntryPairs(q0: seq<Pair>, key: Key, value: Value) returns (q: seq<Pair>)
    ensures q == q0 + EntryPairs(key, value)
  {
    q := q0;
    if key == Limit {
      return;
    }
    match value
    case Many(xs) =>
      if |xs| > 0 {
        var j := 0;
        while j < |xs|
          invariant 0 <= j <= |xs|
          invariant q == q0 + ManyPairs(KeyName(key), xs[..j])
        {
          assert ManyPairs(KeyName(key), xs[..j + 1]) == ManyPairs(KeyName(key), xs[..j]) + [(KeyName(key), xs[j])];
          AppendAssociative(q0, ManyPairs(KeyName(key), xs[..j]), [(KeyName(key), xs[j])]);
          q := q + [(KeyName(key), xs[j])];
          j := j + 1;
        }
        assert xs[..j] == xs;
      }
    case One(s) =>
      if s != "" {
        q := q + [(KeyName(key), s)];
      }
  }

  /** The `Object.entries(...).forEach` loop over the entries `keys`:
      append the pairs of each entry, one entry after the other. */
  method AppendPairsOf(q0: seq<Pair>, f: Filters, keys: seq<Key>) returns (q: seq<Pair>)
    ensures q == q0 + PairsOf(f, keys)
  {
    q := q0;
    var i := 0;
    while i < |keys|
      invariant 0 <= i <= |keys|
      invariant q == q0 + PairsOf(f, keys[..i])
    {
      PairsOfPrefix(f, keys, i);
      AppendAssociative(q0, PairsOf(f, keys[..i]), EntryPairs(keys[i], f.Get(keys[i])));
      q := AppendEntryPairs(q, keys[i], f.Get(keys[i]));
      i := i + 1;
    }
    assert keys[..i] == keys;
  }

  /** The loop over the whole record. */
  method AppendFilterPairs(q0: seq<Pair>, f: Filters) returns (q: seq<Pair>)
    ensures q == q0 + FilterPairs(f)
  {
    q := AppendPairsOf(q0, f, KeyOrder);
  }

  /** `FETCH_CHUNK`: the page size of every request. */
  const FetchChunk: nat := 100

  function LimitPair(): Pair { ("Limit", Text.NatToString(FetchChunk)) }

  function SkipPair(n: nat): Pair { ("Skip", Text.NatToString(n)) }

  lemma ChunkPairsSpelled()
    ensures LimitPair() == ("Limit", "100") && SkipPair(0) == ("Skip", "0")
  {
    Text.SmallNumerals();
  }

  /** The query of `handleSelectChange` and of the refresh after a delete:
      the filter pairs, then `Limit=100` and `Skip=0`. */
  method PageQuery(f: Filters) returns (q: seq<Pair>)
    ensures q == FilterPairs(f) + [LimitPair(), SkipPair(0)]
    ensures |q| >= 2 && q[|q| - 2] == ("Limit", "100") && q[|q| - 1] == ("Skip", "0")
  {
    q := AppendFilterPairs([], f);
    q := q + [LimitPair()];
    q := q + [SkipPair(0)];
    ChunkPairsSpelled();
  }

  /** `params.delete(name)`: every pair with that name goes, the rest keep
      their order. */
  function Delete(q: seq<Pair>, name: string): (r: seq<Pair>)
    ensures forall p :: p in r <==> p in q && p.0 != name
    ensures IsSubsequence(r, q)
  {
    FilterIsSubsequence(q, NotNamed(name));
    Filter(q, NotNamed(name))
  }

  function NotNamed(name: string): Pair -> bool {
    (p: Pair) => p.0 != name
  }

  /** Deleting a name the pairs do not carry changes nothing. */
  lemma DeleteAbsent(q: seq<Pair>, name: string)
    requires forall p :: p in q ==> p.0 != name
    ensures Delete(q, name) == q
  {
    assert forall i :: 0 <= i < |q| ==> NotNamed(name)(q[i]);
    FilterAllKept(q, NotNamed(name));
  }

  /** Deleting the name of the last pair drops that pair alone. */
  lemma DeleteLast(q: seq<Pair>, last: Pair)
    requires forall p :: p in q ==> p.0 != last.0
    ensures Delete(q + [last], last.0) == q
  {
    FilterConcat(q, [last], NotNamed(last.0));
    DeleteAbsent(q, last.0);
    assert [last][1..] == [];
  }

  /** The "total" query: a copy of the page query without Limit and Skip. */
  function TotalQuery(q: seq<Pair>): (r: seq<Pair>)
    ensures forall p :: p in r <==> p in q && p.0 != "Limit" && p.0 != "Skip"
  {
    Delete(Delete(q, "Limit"), "Skip")
  }

  /** `params.getAll(name)`: the values of the pairs with that name, in order. */
  function GetAll(q: seq<Pair>, name: string): seq<string>
    decreases |q|
  {
    if q == [] then []
    else GetAll(q[..|q| - 1], name) + (if q[|q| - 1].0 == name then [q[|q| - 1].1] else [])
  }

  lemma {:induction false} GetAllConcat(a: seq<Pair>, b: seq<Pair>, name: string)
    ensures GetAll(a + b, name) == GetAll(a, name) + GetAll(b, name)
    decreases |b|
  {
    if b == [] {
      assert a + b == a;
    } else {
      assert (a + b)[..|a + b| - 1] == a + b[..|b| - 1];
      GetAllConcat(a, b[..|b| - 1], name);
    }
  }

  lemma {:induction false} GetAllManyPairs(name: string, other: string, xs: seq<string>)
    ensures GetAll(ManyPairs(name, xs), other) == if name == other then xs else []
    decreases |xs|
  {
    if xs != [] {
      var q := ManyPairs(name, xs);
      assert q[..|q| - 1] == ManyPairs(name, xs[..|xs| - 1]);
      GetAllManyPairs(name, other, xs[..|xs| - 1]);
      assert xs == xs[..|xs| - 1] + [xs[|xs| - 1]];
    }
  }

  /** The values that should reach the query for key `k`. */
  function ExpectedValues(k: Key, v: Value): seq<string> {
    if k == Limit then []
    else match v
      case Many(xs) => xs
      case One(s) => if s != "" then [s] else []
  }

  lemma EntryPairsValues(j: Key, v: Value, k: Key)
    ensures GetAll(EntryPairs(j, v), KeyName(k)) == if j == k then ExpectedValues(k, v) else []
  {
    KeyNameInjective(j, k);
    if j != Limit && v.Many? && |v.items| > 0 {
      GetAllManyPairs(KeyName(j), KeyName(k), v.items);
    } else if j != Limit && v.One? && v.text != "" {
      assert EntryPairs(j, v)[..0] == [];
    }
  }

  lemma {:induction false} PairsOfValues(f: Filters, keys: seq<Key>, k: Key)
    requires NoDuplicates(keys)
    ensures GetAll(PairsOf(f, keys), KeyName(k)) == if k in keys then ExpectedValues(k, f.Get(k)) else []
    decreases |keys|
  {
    if keys != [] {
      var init, last := keys[..|keys| - 1], keys[|keys| - 1];
      assert keys == init + [last];
      assert NoDuplicates(init);
      assert last !in init;
      PairsOfValues(f, init, k);
      GetAllConcat(PairsOf(f, init), EntryPairs(last, f.Get(last)), KeyName(k));
      EntryPairsValues(last, f.Get(last), k);
    }
  }

  lemma KeyOrderComplete(k: Key)
    ensures k in KeyOrder && NoDuplicates(KeyOrder)
  {
    assert KeyOrder[KeyIndex(k)] == k;
    forall i, j | 0 <= i < j < |KeyOrder| ensures KeyOrder[i] != KeyOrder[j] {
      assert KeyIndex(KeyOrder[i]) == i && KeyIndex(KeyOrder[j]) == j;
    }
  }

  /** For every key, the query carries exactly the key's values in their
      order: each list element once, a text only when non-empty, and never
      anything for Limit. */
  lemma FilterPairsValues(f: Filters, k: Key)
    ensures GetAll(FilterPairs(f), KeyName(k)) == ExpectedValues(k, f.Get(k))
  {
    KeyOrderComplete(k);
    PairsOfValues(f, KeyOrder, k);
  }

  lemma EntryPairsNames(k: Key, v: Value)
    ensures forall p :: p in EntryPairs(k, v) ==> p.0 == KeyName(k) && k != Limit
  {
  }

  /** The keys are listed in record order without repeats. */
  predicate InRecordOrder(keys: seq<Key>) {
    forall i, j :: 0 <= i < j < |keys| ==> KeyIndex(keys[i]) < KeyIndex(keys[j])
  }

  /** No entry writes a pair named Limit or Skip. */
  lemma {:induction false} PairsOfNames(f: Filters, keys: seq<Key>)
    ensures forall p :: p in PairsOf(f, keys) ==> p.0 != "Limit" && p.0 != "Skip"
    decreases |keys|
  {
    if keys != [] {
      var init, last := keys[..|keys| - 1], keys[|keys| - 1];
      PairsOfNames(f, init);
      EntryPairsNames(last, f.Get(last));
      KeyNameInjective(last, Limit);
      assert PairsOf(f, keys) == PairsOf(f, init) + EntryPairs(last, f.Get(last));
    }
  }

  /** The pairs' names rank in nondecreasing order. */
  predicate RanksSorted(q: seq<Pair>) {
    forall i, j :: 0 <= i < j < |q| ==> NameRank(q[i].0) <= NameRank(q[j].0)
  }

  lemma SortedConcat(a: seq<Pair>, b: seq<Pair>)
    requires RanksSorted(a) && RanksSorted(b)
    requires forall x, y :: x in a && y in b ==> NameRank(x.0) <= NameRank(y.0)
    ensures RanksSorted(a + b)
  {
    forall i, j | 0 <= i < j < |a + b|
      ensures NameRank((a + b)[i].0) <= NameRank((a + b)[j].0)
    {
      if j < |a| {
        assert (a + b)[i] == a[i] && (a + b)[j] == a[j];
      } else if i < |a| {
        assert (a + b)[i] == a[i] && (a + b)[j] == b[j - |a|];
        assert a[i] in a && b[j - |a|] in b;
      } else {
        assert (a + b)[i] == b[i - |a|] && (a + b)[j] == b[j - |a|];
      }
    }
  }

  /** Entries visited in record order write their pairs in that order:
      every pair ranks at most as its last key, and ranks never go down. */
  lemma {:induction false} PairsOfOrdered(f: Filters, keys: seq<Key>)
    requires InRecordOrder(keys)
    ensures keys != [] ==> forall p :: p in PairsOf(f, keys) ==> NameRank(p.0) <= KeyIndex(keys[|keys| - 1])
    ensures RanksSorted(PairsOf(f, keys))
    decreases |keys|
  {
    if keys != [] {
      var init, last := keys[..|keys| - 1], keys[|keys| - 1];
      assert InRecordOrder(init);
      PairsOfOrdered(f, init);
      var a: seq<Pair> := PairsOf(f, init);
      var b: seq<Pair> := EntryPairs(last, f.Get(last));
      EntryPairsNames(last, f.Get(last));
      assert forall p :: p in b ==> NameRank(p.0) == KeyIndex(last);
      assert RanksSorted(b) by {
        forall i, j | 0 <= i < j < |b| ensures NameRank(b[i].0) <= NameRank(b[j].0) {
          assert b[i] in b && b[j] in b;
        }
      }
      assert init != [] ==> KeyIndex(init[|init| - 1]) < KeyIndex(last);
      SortedConcat(a, b);
      assert PairsOf(f, keys) == a + b;
    }
  }

  lemma KeyOrderInRecordOrder()
    ensures InRecordOrder(KeyOrder)
  {
    forall i, j | 0 <= i < j < |KeyOrder| ensures KeyIndex(KeyOrder[i]) < KeyIndex(KeyOrder[j]) {
      assert KeyIndex(KeyOrder[i]) == i && KeyIndex(KeyOrder[j]) == j by {
        KeyOrderComplete(KeyOrder[i]);
        assert KeyOrder[KeyIndex(KeyOrder[i])] == KeyOrder[i];
        assert KeyOrder[KeyIndex(KeyOrder[j])] == KeyOrder[j];
      }
    }
  }

  /** The pairs follow the order of the record's keys. */
  lemma FilterPairsOrdered(f: Filters)
    ensures forall i, j :: 0 <= i < j < |FilterPairs(f)| ==>
              NameRank(FilterPairs(f)[i].0) <= NameRank(FilterPairs(f)[j].0)
  {
    KeyOrderInRecordOrder();
    PairsOfOrdered(f, KeyOrder);
  }

  /** None of the pairs is named Limit or Skip. */
  lemma FilterPairsNames(f: Filters)
    ensures forall p :: p in FilterPairs(f) ==> p.0 != "Limit" && p.0 != "Skip"
  {
    PairsOfNames(f, KeyOrder);
  }

  /** The total query is the page query without its last two pairs: the
      filter pairs alone. */
  lemma TotalQueryIsFilterPairs(f: Filters)
    ensures TotalQuery(FilterPairs(f) + [LimitPair(), SkipPair(0)]) == FilterPairs(f)
  {
    var fp := FilterPairs(f);
    FilterPairsNames(f);
    var l, s := LimitPair(), SkipPair(0);
    assert fp + [l, s] == (fp + [l]) + [s];
    FilterConcat(fp + [l], [s], NotNamed("Limit"));
    DeleteLast(fp, l);
    assert [s][1..] == [];
    assert Delete(fp + [l, s], "Limit") == fp + [s];
    DeleteLast(fp, s);
  }

  /** `handleLastPage` deletes Limit and Skip from the filter pairs, which
      never carry them: the query is the filter pairs alone. */
  lemma LastPageQueryIsFilterPairs(f: Filters)
    ensures Delete(Delete(FilterPairs(f), "Limit"), "Skip") == FilterPairs(f)
  {
    FilterPairsNames(f);
    DeleteAbsent(FilterPairs(f), "Limit");
    DeleteAbsent(FilterPairs(f), "Skip");
  }

  /** The query of `handleLastPage`: the filter pairs, with Limit and Skip
      deleted. */
  method LastPageQuery(f: Filters) returns (q: seq<Pair>)
    ensures q == FilterPairs(f)
  {
    q := AppendFilterPairs([], f);
    assert q == FilterPairs(f);
    LastPageQueryIsFilterPairs(f);
    q := Delete(q, "Limit");
    q := Delete(q, "Skip");
  }

  /** The query of `fetchMore`: Limit and Skip first, then the filter pairs. */
  method FetchMoreQuery(f: Filters, skip: nat) returns (q: seq<Pair>)
    ensures q == [LimitPair(), SkipPair(skip)] + FilterPairs(f)
  {
    q := [];
    q := q + [LimitPair()];
    q := q + [SkipPair(skip)];
    q := AppendFilterPairs(q, f);
  }

  /** The two queries of `handleSelectChange`: the page query and its copy
      without Limit and Skip. */
  method PageAndTotalQuery(f: Filters) returns (q: seq<Pair>, total: seq<Pair>)
    ensures q == FilterPairs(f) + [LimitPair(), SkipPair(0)]
    ensures total == TotalQuery(q) && total == FilterPairs(f)
  {
    q := PageQuery(f);
    total := Delete(q, "Limit");
    total := Delete(total, "Skip");
    TotalQueryIsFilterPairs(f);
  }

  /** A picked object of an object picker: its id and display name. */
  datatype Choice = Choice(id: string, name: string)

  const NoChoice: Choice := Choice("", "")

  /** The `dependent` record: the object picked in each object picker. */
  datatype Dependent = Dependent(campaign: Choice, customerType: Choice, customerSubType: Choice, city: Choice, location: Choice)
  {
    function GetChoice(k: Key): Choice
      requires IsObjectKey(k)
    {
      match k
      case Campaign => campaign
      case CustomerType => customerType
      case CustomerSubType => customerSubType
      case City => city
      case Location => location
    }
  }

  const NoDependent: Dependent := Dependent(NoChoice, NoChoice, NoChoice, NoChoice, NoChoice)

  /** The keys whose picker shows objects rather than names. */
  predicate IsObjectKey(k: Key) {
    k.Campaign? || k.CustomerType? || k.CustomerSubType? || k.City? || k.Location?
  }

  /** The pickers whose options depend on `k`'s choice and are reset by it. */
  function DependentsOf(k: Key): seq<Key> {
    match k
    case Campaign => [CustomerType, CustomerSubType]
    case CustomerType => [CustomerSubType]
    case City => [Location]
    case _ => []
  }

  /** The record an object picker installs: the picked name for `k`, and
      `[]` for the pickers that depend on it. */
  function ChooseFilters(f: Filters, k: Key, name: string): (r: Filters)
    requires IsObjectKey(k)
    ensures r.Get(k) == Many([name])
    ensures forall d :: d in DependentsOf(k) ==> r.Get(d) == Many([])
    ensures forall j :: j != k && j !in DependentsOf(k) ==> r.Get(j) == f.Get(j)
  {
    match k
    case Campaign => f.(campaign := Many([name]), customerType := Many([]), customerSubType := Many([]))
    case CustomerType => f.(customerType := Many([name]), customerSubType := Many([]))
    case CustomerSubType => f.(customerSubType := Many([name]))
    case City => f.(city := Many([name]), location := Many([]))
    case Location => f.(location := Many([name]))
  }

  /** The `dependent` record after picking `c` for `k`: the pickers that
      depend on `k` are emptied. */
  function ChooseDependent(d: Dependent, k: Key, c: Choice): (r: Dependent)
    requires IsObjectKey(k)
    ensures r.GetChoice(k) == c
    ensures forall j :: j in DependentsOf(k) ==> IsObjectKey(j) && r.GetChoice(j) == NoChoice
    ensures forall j :: IsObjectKey(j) && j != k && j !in DependentsOf(k) ==> r.GetChoice(j) == d.GetChoice(j)
  {
    match k
    case Campaign => d.(campaign := c, customerType := NoChoice, customerSubType := NoChoice)
    case CustomerType => d.(customerType := c, customerSubType := NoChoice)
    case CustomerSubType => d.(customerSubType := c)
    case City => d.(city := c, location := NoChoice)
    case Location => d.(location := c)
  }

  /** The effect that runs when the picked Campaign, Type or City id
      changes: a picker whose parent is not picked loses its filter. */
  function DependentEffect(f: Filters, d: Dependent): (r: Filters)
    ensures d.campaign.id == "" ==> r.customerType == Many([]) && r.customerSubType == Many([])
    ensures !(d.campaign.id != "" && d.customerType.id != "") ==> r.customerSubType == Many([])
    ensures d.city.id == "" ==> r.location == Many([])
    ensures d.campaign.id != "" ==> r.customerType == f.customerType
    ensures d.campaign.id != "" && d.customerType.id != "" ==> r.customerSubType == f.customerSubType
    ensures d.city.id != "" ==> r.location == f.location
    ensures forall k :: k != CustomerType && k != CustomerSubType && k != Location ==> r.Get(k) == f.Get(k)
  {
    var f1 := if d.campaign.id != "" then f else f.(customerType := Many([]), customerSubType := Many([]));
    var f2 := if d.campaign.id != "" && d.customerType.id != "" then f1 else f1.(customerSubType := Many([]));
    if d.city.id != "" then f2 else f2.(location := Many([]))
  }

  /** A filter on a dependent picker only while its parent is picked. */
  predicate Consistent(f: Filters, d: Dependent) {
    && (d.campaign.id == "" ==> f.customerType == Many([]) && f.customerSubType == Many([]))
    && (!(d.campaign.id != "" && d.customerType.id != "") ==> f.customerSubType == Many([]))
    && (d.city.id == "" ==> f.location == Many([]))
  }

  /** The effect leaves the filters consistent with the picks, and changes
      nothing when they already are; so running it twice is running it once. */
  lemma DependentEffectSettles(f: Filters, d: Dependent)
    ensures Consistent(DependentEffect(f, d), d)
    ensures Consistent(f, d) ==> DependentEffect(f, d) == f
    ensures DependentEffect(DependentEffect(f, d), d) == DependentEffect(f, d)
  {
  }

  /** Picking an object whose parent is picked keeps filters and picks
      consistent, so the effect that follows does not undo the pick. */
  lemma ChoosePreservesConsistency(f: Filters, d: Dependent, k: Key, c: Choice)
    requires IsObjectKey(k) && Consistent(f, d) && c.id != ""
    requires k == CustomerType ==> d.campaign.id != ""
    requires k == CustomerSubType ==> d.campaign.id != "" && d.customerType.id != ""
    requires k == Location ==> d.city.id != ""
    ensures Consistent(ChooseFilters(f, k, c.name), ChooseDependent(d, k, c))
    ensures DependentEffect(ChooseFilters(f, k, c.name), ChooseDependent(d, k, c)) == ChooseFilters(f, k, c.name)
  {
    DependentEffectSettles(ChooseFilters(f, k, c.name), ChooseDependent(d, k, c));
  }
}
