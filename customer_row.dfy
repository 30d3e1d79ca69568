/** `mapCustomer`: how one customer record from the server becomes a row
    of the customer table, and the `dd-mm-yyyy` creation date it shows. */
module CustomerRows {
  import opened Options
  import opened Text

  /** The calendar fields `new Date(item.createdAt)` yields in local time:
      day of month, month counted from 0, and full year. */
  datatype DateParts = DateParts(day: nat, month: nat, year: int)

  /** The user a customer is assigned to, when it is populated. */
  datatype AssignedUser = AssignedUser(name: Option<string>)

  /** A customer as the server sends it. Optional members are the ones the
      mapping tests for presence. `createdAt` is `None` when it does not
      parse as a date. */
  datatype RawCustomer = RawCustomer(
    id: string,
    campaign: string, customerType: string, customerSubType: string,
    customerName: string, description: string, email: string,
    city: string, location: string,
    contactNumber: Option<string>,
    assignTo: Option<AssignedUser>,
    isFavourite: bool,
    date: Option<string>,
    createdAt: Option<DateParts>,
    sitePlan: Option<string>)

  /** One row of the customer table. `contactNumber` and `assignTo` stay
      absent when the record lacks them. */
  datatype Row = Row(
    id: string,
    campaign: string, customerType: string, customerSubType: string,
    name: string, description: string, email: string,
    city: string, location: string,
    contactNumber: Option<string>,
    assignTo: Option<string>,
    isFavourite: bool,
    date: string,
    sitePlan: string)

  /** `n.toString().padStart(2, "0")` for a number below 100: two digits
      that read back as `n`. */
  function TwoDigits(n: nat): (t: string)
    requires n < 100
    ensures |t| == 2 && AllDigits(t) && DecimalValue(t) == n
  {
    PaddedRoundTrip(n);
    PadStart(NatToString(n), 2, '0')
  }

  /** The formatted creation date: two-digit day, "-", two-digit month
      counted from 1, "-", the year. */
  function FormatDate(d: DateParts): (s: string)
    requires d.day < 100 && d.month + 1 < 100
    ensures |s| == 6 + |IntToString(d.year)| && s[2] == '-' && s[5] == '-'
    ensures s[..2] == TwoDigits(d.day) && s[3..5] == TwoDigits(d.month + 1) && s[6..] == IntToString(d.year)
  {
    JoinDate(TwoDigits(d.day), TwoDigits(d.month + 1), IntToString(d.year))
  }

  /** `dd + "-" + mm + "-" + yy` for two-character `dd` and `mm`. */
  function JoinDate(dd: string, mm: string, yy: string): (s: string)
    requires |dd| == 2 && |mm| == 2
    ensures |s| == 6 + |yy| && s[2] == '-' && s[5] == '-'
    ensures s[..2] == dd && s[3..5] == mm && s[6..] == yy
  {
    var s := dd + "-" + mm + "-" + yy;
    assert s[..2] == dd;
    assert s[3..5] == mm;
    assert s[6..] == yy;
    s
  }

  /** What the formatter yields for a date that did not parse: every
      field of an invalid `Date` is `NaN`, and padding leaves "NaN" as it
      is. */
  const InvalidDate: string := "NaN-NaN-NaN"

  function FormatCreatedAt(c: Option<DateParts>): (s: string)
    requires c.Some? ==> c.value.day < 100 && c.value.month + 1 < 100
    ensures c.None? ==> s == InvalidDate
    ensures c.Some? ==> s == FormatDate(c.value)
  {
    match c
    case None => InvalidDate
    case Some(d) => FormatDate(d)
  }

  /** A date a real calendar can produce. */
  predicate CalendarDate(d: DateParts) {
    1 <= d.day <= 31 && d.month < 12 && d.year >= 0
  }

  /** Reading a `dd-mm-yyyy` string back into its fields. */
  function ParseDate(s: string): Option<DateParts> {
    if |s| >= 7 && s[2] == '-' && s[5] == '-' && AllDigits(s[..2]) && AllDigits(s[3..5]) && AllDigits(s[6..])
       && DecimalValue(s[3..5]) >= 1
    then Some(DateParts(DecimalValue(s[..2]), DecimalValue(s[3..5]) - 1, DecimalValue(s[6..])))
    else None
  }

  /** Reading back a string of the formatted shape gives the values of its
      three parts. */
  lemma ParseShaped(s: string, dd: string, mm: string, yy: string)
    requires |s| == 6 + |yy| && s[2] == '-' && s[5] == '-' && s[..2] == dd && s[3..5] == mm && s[6..] == yy
    requires |yy| >= 1 && AllDigits(dd) && AllDigits(mm) && AllDigits(yy) && DecimalValue(mm) >= 1
    ensures ParseDate(s) == Some(DateParts(DecimalValue(dd), DecimalValue(mm) - 1, DecimalValue(yy)))
  {
  }

  /** The formatted date determines the date it came from. */
  lemma FormatDateRoundTrip(d: DateParts)
    requires CalendarDate(d)
    ensures ParseDate(FormatDate(d)) == Some(d)
  {
    var dd, mm, yy := TwoDigits(d.day), TwoDigits(d.month + 1), IntToString(d.year);
    assert yy == NatToString(d.year) && |yy| >= 1 && AllDigits(yy);
    assert DecimalValue(dd) == d.day && DecimalValue(mm) == d.month + 1;
    DecimalRoundTrip(d.year);
    assert DecimalValue(yy) == d.year;
    var s := FormatDate(d);
    assert |s| == 6 + |yy| && s[2] == '-' && s[5] == '-' && s[..2] == dd && s[3..5] == mm && s[6..] == yy;
    ParseShaped(s, dd, mm, yy);
  }

  /** Different calendar dates never share a formatted string. */
  lemma FormatDateInjective(d: DateParts, e: DateParts)
    requires CalendarDate(d) && CalendarDate(e)
    ensures FormatDate(d) == FormatDate(e) ==> d == e
  {
    FormatDateRoundTrip(d);
    FormatDateRoundTrip(e);
  }

  /** The first `n` characters of `s`, or all of it when shorter: `s.slice(0, n)`. */
  function Prefix(s: string, n: nat): (t: string)
    ensures |t| == if |s| < n then |s| else n
    ensures t == s[..|t|]
  {
    if |s| < n then s else s[..n]
  }

  /** `item.SitePlan || ""`: a missing or empty site plan becomes "". */
  function SitePlanOrEmpty(p: Option<string>): (t: string)
    ensures p.Some? && p.value != "" ==> t == p.value
    ensures p.None? ==> t == ""
    ensures t == "" || p == Some(t)
  {
    match p
    case Some(v) => v
    case None => ""
  }

  /** A record whose creation date can be formatted. */
  predicate Mappable(item: RawCustomer) {
    item.createdAt.Some? ==> item.createdAt.value.day < 100 && item.createdAt.value.month + 1 < 100
  }

  /** `mapCustomer`. */
  function MapCustomer(item: RawCustomer): (r: Row)
    requires Mappable(item)
    ensures r.id == item.id
  {
    var contact := if item.contactNumber.Some? then Some(Prefix(item.contactNumber.value, 10)) else None;
    var assignee := if item.assignTo.Some? then item.assignTo.value.name else None;
    var date := if item.date.Some? then item.date.value else FormatCreatedAt(item.createdAt);
    Row(
      item.id,
      item.campaign, item.customerType, item.customerSubType,
      item.customerName, item.description, item.email,
      item.city, item.location,
      contact, assignee, item.isFavourite, date,
      SitePlanOrEmpty(item.sitePlan))
  }

  /** What each field of a mapped row holds: the record's fields copied,
      the phone number cut to its first ten characters, the assignee's
      name, the supplied date or else the formatted creation date, and the
      site plan or "". */
  lemma MapCustomerFields(item: RawCustomer)
    requires Mappable(item)
    ensures MapCustomer(item).id == item.id && MapCustomer(item).name == item.customerName && MapCustomer(item).isFavourite == item.isFavourite
    ensures MapCustomer(item).campaign == item.campaign && MapCustomer(item).customerType == item.customerType && MapCustomer(item).customerSubType == item.customerSubType
    ensures MapCustomer(item).description == item.description && MapCustomer(item).email == item.email
    ensures MapCustomer(item).city == item.city && MapCustomer(item).location == item.location
    ensures item.contactNumber.None? <==> MapCustomer(item).contactNumber.None?
    ensures item.contactNumber.Some? ==>
              |MapCustomer(item).contactNumber.value| <= 10 && MapCustomer(item).contactNumber.value <= item.contactNumber.value
              && (|item.contactNumber.value| <= 10 ==> MapCustomer(item).contactNumber.value == item.contactNumber.value)
    ensures item.assignTo.None? ==> MapCustomer(item).assignTo.None?
    ensures item.assignTo.Some? ==> MapCustomer(item).assignTo == item.assignTo.value.name
    ensures item.date.Some? ==> MapCustomer(item).date == item.date.value
    ensures item.date.None? ==> MapCustomer(item).date == FormatCreatedAt(item.createdAt)
    ensures item.sitePlan.Some? && item.sitePlan.value != "" ==> MapCustomer(item).sitePlan == item.sitePlan.value
    ensures item.sitePlan.None? || item.sitePlan == Some("") ==> MapCustomer(item).sitePlan == ""
  {
  }

  /** Without a supplied `date`, the row's date reads back as the record's
      creation date. */
  lemma MapCustomerDateReadsBack(item: RawCustomer)
    requires item.date.None? && item.createdAt.Some? && CalendarDate(item.createdAt.value)
    ensures ParseDate(MapCustomer(item).date) == item.createdAt
  {
    FormatDateRoundTrip(item.createdAt.value);
  }

  predicate AllMappable(items: seq<RawCustomer>) {
    forall i :: 0 <= i < |items| ==> Mappable(items[i])
  }

  /** `data.map(mapCustomer)`. */
  function MapRows(items: seq<RawCustomer>): (rows: seq<Row>)
    requires AllMappable(items)
    ensures |rows| == |items|
    ensures forall i :: 0 <= i < |items| ==> rows[i] == MapCustomer(items[i]) && rows[i].id == items[i].id
  {
    seq(|items|, i requires 0 <= i < |items| => MapCustomer(items[i]))
  }

  /** Mapping a batch after what is already loaded is mapping each part. */
  lemma MapRowsConcat(a: seq<RawCustomer>, b: seq<RawCustomer>)
    requires AllMappable(a) && AllMappable(b)
    ensures AllMappable(a + b)
    ensures MapRows(a + b) == MapRows(a) + MapRows(b)
  {
    assert forall i :: 0 <= i < |a + b| ==> (a + b)[i] == if i < |a| then a[i] else b[i - |a|];
  }

  /** The ids of rows, in order. */
  function Ids(rows: seq<Row>): (ids: seq<string>)
    ensures |ids| == |rows|
    ensures forall i :: 0 <= i < |rows| ==> ids[i] == rows[i].id
  {
    seq(|rows|, i requires 0 <= i < |rows| => rows[i].id)
  }
}
