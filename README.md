# Customer lists of the CRM, in Dafny

This project models the list logic of three pages of a CRM web front end.
The pages themselves are React components that call a REST back end. The
model keeps what those pages compute and leaves out rendering and network
access: every server response becomes a parameter of the handler that waits
for it, with `None` standing for a falsy response.

- **The customer list** (`src/app/customer/page.tsx`) is the class
  `CustomerPage.CustomerListPage`. It has the component's state fields and
  one method per handler, plus the effects each handler triggers.
  - Rows arrive in chunks of 100 (`FETCH_CHUNK`) and are then paged on the
    client.
  - Filters are normalised into a record and written out as an ordered list
    of query pairs (`FilterQuery`). Object pickers empty the pickers that
    depend on them.
  - Rows are ticked one at a time or a page at a time (`Selection`). The
    ticked rows form the export subset.
  - Each record from the server is mapped to a table row with a
    `dd-mm-yyyy` creation date (`CustomerRows`).
- **The customer-type master list**
  (`src/app/masters/customer-types/page.tsx`) is
  `CustomerTypes.CustomerTypeListPage`. It shares the page arithmetic in
  `Paging`. Its page count is `Math.ceil(n / r)`, which is 0 for an empty
  list.
- **The customer-subtype master list**
  (`src/app/masters/customer-subtype/page.tsx`) is
  `CustomerSubtypes.SubtypeListPage`. Its page count is
  `Math.max(1, Math.ceil(n / r))`, which is never 0.

Each handler is one atomic step. The effects it schedules run at its end,
and they fire under the same conditions as React's dependency check:

- On the master pages, the `[limit]` effect runs only when the limit string
  changes.
- On the customer list, the `[filters.Limit]` effect runs when the Limit
  array is replaced: a pick on the Limit picker, or `clearFilter`.
- The `[filters, totalCustomers]` page-count effect is an invariant of
  `Valid()`.
- The `[selectedCustomers]` export effect runs after every selection
  change.

Supporting modules:

- `Options` defines `Option`.
- `Lists` provides order-preserving filter, subsequence and de-duplication.
- `Text` provides ASCII case mapping, `includes`, capitalisation, decimal
  numerals and `padStart`.
- `MasterLimit` is the Limit `<select>` of the master pages.

## Model

| member | source | states |
|---|---|---|
| Paging.CeilDiv | src/app/customer/page.tsx:453 | `Math.ceil(n / r)`: the fewest pages of `r` rows that hold `n` rows; 0 exactly when `n` is 0 |
| Paging.PageCountAtLeastOne | src/app/customer/page.tsx:452-454 | `Math.ceil(n / r) \|\| 1`: at least 1, the ceiling when there are rows, 1 when there are none |
| Paging.MaxOneIsOrOne | src/app/masters/customer-subtype/page.tsx:84 | `Math.max(1, c)` and `c \|\| 1` give the same page count |
| Paging.Slice | src/app/customer/page.tsx:457 | `slice(b, e)` clips both ends to the length, is empty for a reversed range, and holds the elements from `b` on |
| Paging.PageRows | src/app/customer/page.tsx:456-457 | the page window has at most `r` rows, its length is the clipped remainder, and row `i` is element `(p - 1) * r + i` |
| Paging.LastRowFormIsPageRows | src/app/masters/customer-types/page.tsx:85-87 | the master pages' `slice(p * r - r, p * r)` is the same window as `slice((p - 1) * r, (p - 1) * r + r)` |
| Paging.PageNonEmptyIff | src/app/customer/page.tsx:452-457 | a page shows a row exactly when its number is at most `ceil(n / r)` |
| Paging.PagesBeforeLastAreFull | src/app/customer/page.tsx:452-457 | every page before the last holds exactly `r` rows |
| Paging.RowOnItsPage | src/app/customer/page.tsx:452-457 | row `k` of the list is row `k % r` of page `k / r + 1`, and that page is within the count, so the pages show every row |
| Paging.SerialNumber | src/app/customer/page.tsx:1411 | the serial column `(p - 1) * r + (i + 1)` is at least 1 |
| Paging.SerialNumberIsPosition | src/app/masters/customer-types/page.tsx:194 | a shown row's serial number is its 1-based position in the whole list |
| Paging.SerialNumbersContinue | src/app/masters/customer-types/page.tsx:194 | the first serial of a page follows the last serial of the page before |
| Paging.PrevPage | src/app/customer/page.tsx:1547-1549 | `Math.max(p - 1, 1)`: never below 1, one back from any page above 1 |
| Paging.NextPage | src/app/masters/customer-types/page.tsx:278-281 | `p < total ? p + 1 : p`: one forward below the total, unchanged otherwise, and never past the total from a page within it |
| Text.LowerChar | src/app/masters/customer-types/page.tsx:57 | `toLowerCase` on one character: no upper-case letter is left, other characters are unchanged |
| Text.UpperChar | src/app/masters/customer-types/page.tsx:37 | `toUpperCase` on one character: a lower-case letter becomes its upper-case letter, other characters are unchanged |
| Text.LowerOfUpper | src/app/masters/customer-types/page.tsx:37 | lower-casing an upper-cased character gives its lower case |
| Text.Lower | src/app/masters/customer-types/page.tsx:57 | `toLowerCase` keeps the length and lower-cases each character |
| Text.LowerEmpty | src/app/masters/customer-types/page.tsx:56-57 | only the empty string lower-cases to the empty string |
| Text.Capitalize | src/app/masters/customer-types/page.tsx:37 | `charAt(0).toUpperCase() + slice(1)`: same length, first character upper-cased, the rest unchanged |
| Text.CapitalizeIdempotent | src/app/masters/customer-types/page.tsx:37 | capitalising twice is capitalising once |
| Text.LowerOfCapitalize | src/app/masters/customer-types/page.tsx:37 | capitalising does not change the lower-cased name |
| Text.Includes | src/app/masters/customer-types/page.tsx:57 | `includes` is true exactly when the substring occurs at some position |
| Text.IncludesEmpty | src/app/masters/customer-types/page.tsx:56-57 | every string includes the empty string |
| Text.DigitChar | src/app/customer/page.tsx:209 | the character of a digit is a decimal digit with that value |
| Text.NatToString | src/app/customer/page.tsx:209 | `toString()` on a natural: at least one digit, no leading zero, one digit exactly below 10 |
| Text.DecimalRoundTrip | src/app/customer/page.tsx:209-211 | reading the decimal spelling of a natural gives it back |
| Text.SmallNumerals | src/app/customer/page.tsx:52 | the spellings of 0, 10, 25, 50 and 100 |
| Text.IntToString | src/app/customer/page.tsx:211 | `getFullYear()` printed: the digits, after a minus sign when negative |
| Text.PadStart | src/app/customer/page.tsx:209-210 | `padStart(width, fill)`: the string at the end, the fill before it, width at least `width` |
| Text.PaddedRoundTrip | src/app/customer/page.tsx:209-210 | a number below 100 padded to two digits has two digits that read back as the number |
| Lists.Filter | src/app/customer/page.tsx:160 | `Array.filter`: never longer, and holds exactly the kept elements |
| Lists.FilterIsSubsequence | src/app/masters/customer-types/page.tsx:52-60 | filtering keeps the order of the elements it keeps |
| Lists.Dedup | src/app/customer/page.tsx:679 | `[...new Set(s)]`: no duplicates, the same elements, and no change to a list without duplicates |
| Lists.DedupOnto | src/app/customer/page.tsx:679 | de-duplicating onto a duplicate-free prefix keeps that prefix and adds the missing elements |
| Lists.DedupKeepsPrefix | src/app/customer/page.tsx:679 | `new Set([...prev, ...ids])` over a duplicate-free `prev` keeps `prev` first |
| Selection.Without | src/app/customer/page.tsx:687 | `prev.filter(cid => cid !== id)` drops every occurrence of `id`, keeps every other id with its count, in order |
| Selection.ToggleRow | src/app/customer/page.tsx:684-690 | a ticked id is unticked wherever it occurs; an unticked id is appended; no other id changes |
| Selection.ToggleRowTwiceRestores | src/app/customer/page.tsx:684-690 | ticking then unticking an id restores the selection exactly |
| Selection.ToggleRowNoDuplicates | src/app/customer/page.tsx:684-690 | toggling keeps a selection free of duplicates |
| Selection.SelectAll | src/app/customer/page.tsx:674-681 | when all visible ids are ticked they are all unticked and the other ids keep their order (their number of copies is `SelectAllUntickCounts`); otherwise the visible ids are added with no duplicates after the previous selection |
| Selection.SelectAllUntickCounts | src/app/customer/page.tsx:677 | when every visible id is ticked, `prev.filter(...)` leaves no copy of a visible id and every copy of the other ids |
| Selection.SelectAllFlipsHeader | src/app/customer/page.tsx:1370-1373 | on a page with a row, select-all turns the header checkbox on exactly when it was off |
| Selection.SelectAllNoDuplicates | src/app/customer/page.tsx:674-681 | select-all keeps a selection free of duplicates |
| Selection.ToggleChoice | src/app/customer/page.tsx:692-702 | picking the current user or template clears it, picking another makes it the only one |
| Selection.ToggleChoiceTwice | src/app/customer/page.tsx:692-702 | picking the same id twice from an empty picker leaves it empty |
| FilterQuery.KeyIndex | src/app/customer/page.tsx:95-105 | each filter key's position in the record's declaration order |
| FilterQuery.NameRank | src/app/customer/page.tsx:95-105 | a query name ranks as the position of the key it names |
| FilterQuery.KeyNameInjective | src/app/customer/page.tsx:95-105 | distinct keys have distinct names |
| FilterQuery.Filters.Set | src/app/customer/page.tsx:342-347 | `{ ...filters, [k]: v }` sets `k` and keeps every other key |
| FilterQuery.LimitNumber | src/app/customer/page.tsx:461 | `Number(filters.Limit[0])` of a picked option is positive and its decimal spelling is the option |
| FilterQuery.Normalize | src/app/customer/page.tsx:343-347 | an array is kept, a non-empty string becomes a singleton, an empty string becomes `[]` |
| FilterQuery.UpdateFilters | src/app/customer/page.tsx:341-348 | the override when given; otherwise only `field` changes, to the normalised value |
| FilterQuery.ManyPairs | src/app/customer/page.tsx:357-358 | one `(key, v)` pair per element, in order |
| FilterQuery.SerialisationFormsAgree | src/app/customer/page.tsx:242-246 | the `forEach` body of `fetchMore` and `handleLastPage` writes the same pairs as that of `handleSelectChange` |
| FilterQuery.PairsOfPrefix | src/app/customer/page.tsx:354-362 | one more entry visited appends that entry's pairs |
| FilterQuery.AppendEntryPairs | src/app/customer/page.tsx:355-361 | the loop body for one entry appends that entry's pairs to the query |
| FilterQuery.AppendPairsOf | src/app/customer/page.tsx:354-362 | the `Object.entries(...).forEach` loop appends the pairs of every entry visited, in turn |
| FilterQuery.AppendFilterPairs | src/app/customer/page.tsx:354-362 | the loop over the whole record appends the record's pairs |
| FilterQuery.ChunkPairsSpelled | src/app/customer/page.tsx:365-366 | the appended pairs are `Limit=100` and `Skip=0` |
| FilterQuery.PageQuery | src/app/customer/page.tsx:353-366 | the page query is the filter pairs, then `Limit=100` and `Skip=0` as its last two pairs |
| FilterQuery.Delete | src/app/customer/page.tsx:369-371 | `delete(name)` removes every pair with that name and keeps the others in order |
| FilterQuery.DeleteAbsent | src/app/customer/page.tsx:273-274 | deleting a name no pair carries changes nothing |
| FilterQuery.DeleteLast | src/app/customer/page.tsx:369-371 | deleting the name of the last pair, carried by no other pair, drops only that pair |
| FilterQuery.TotalQuery | src/app/customer/page.tsx:369-371 | the total query holds exactly the page query's pairs not named Limit or Skip |
| FilterQuery.GetAllConcat | src/app/customer/page.tsx:353-366 | the values of a name in two queries joined are the values in each, in order |
| FilterQuery.GetAllManyPairs | src/app/customer/page.tsx:357-358 | an array entry's pairs carry exactly its elements under its own name |
| FilterQuery.EntryPairsValues | src/app/customer/page.tsx:355-361 | one entry carries its expected values under its own name and nothing under any other |
| FilterQuery.PairsOfValues | src/app/customer/page.tsx:354-362 | entries visited without repeats carry each visited key's values and nothing for the others |
| FilterQuery.KeyOrderComplete | src/app/customer/page.tsx:95-105 | `Object.entries` visits every key once |
| FilterQuery.FilterPairsValues | src/app/customer/page.tsx:354-362 | for every key the query carries exactly its values in order: each array element, a text only when non-empty, nothing for Limit |
| FilterQuery.EntryPairsNames | src/app/customer/page.tsx:356 | an entry's pairs carry its own name, and the Limit entry writes none |
| FilterQuery.PairsOfNames | src/app/customer/page.tsx:354-362 | the entry pairs are never named Limit or Skip |
| FilterQuery.SortedConcat | src/app/customer/page.tsx:354-362 | pairs in key order followed by pairs of later keys stay in key order |
| FilterQuery.PairsOfOrdered | src/app/customer/page.tsx:354-362 | entries visited in record order write pairs whose keys never go back in that order |
| FilterQuery.KeyOrderInRecordOrder | src/app/customer/page.tsx:95-105 | the visiting order is the declaration order, without repeats |
| FilterQuery.FilterPairsOrdered | src/app/customer/page.tsx:354-362 | the filter pairs follow the order of the record's keys |
| FilterQuery.FilterPairsNames | src/app/customer/page.tsx:356 | no filter pair is named Limit or Skip |
| FilterQuery.TotalQueryIsFilterPairs | src/app/customer/page.tsx:369-371 | the total query is the page query without its last two pairs |
| FilterQuery.LastPageQueryIsFilterPairs | src/app/customer/page.tsx:272-274 | deleting Limit and Skip from the filter pairs changes nothing |
| FilterQuery.LastPageQuery | src/app/customer/page.tsx:265-274 | the query of `handleLastPage` is the filter pairs alone |
| FilterQuery.FetchMoreQuery | src/app/customer/page.tsx:238-246 | the query of `fetchMore` is `Limit=100`, then `Skip` with the given count, then the filter pairs |
| FilterQuery.PageAndTotalQuery | src/app/customer/page.tsx:353-371 | the page query and its copy without Limit and Skip, which is the filter pairs |
| FilterQuery.ChooseFilters | src/app/customer/page.tsx:1144-1149 | an object pick sets its key to the picked name, empties the dependent pickers, and keeps the rest |
| FilterQuery.ChooseDependent | src/app/customer/page.tsx:1152-1157 | the pick is recorded for its key and the dependent picks are reset |
| FilterQuery.DependentEffect | src/app/customer/page.tsx:610-636 | a Type or Subtype filter is emptied while its parent is unpicked, a Location filter while no City is picked; everything else is kept |
| FilterQuery.DependentEffectSettles | src/app/customer/page.tsx:610-636 | the effect leaves filters agreeing with the picks, changes nothing when they already agree, and is idempotent |
| FilterQuery.ChoosePreservesConsistency | src/app/customer/page.tsx:1141-1262 | picking an object whose parent is picked keeps filters and picks agreeing, so the effect does not undo the pick |
| CustomerRows.TwoDigits | src/app/customer/page.tsx:209-210 | a number below 100 padded to two digits reads back as the number |
| CustomerRows.FormatDate | src/app/customer/page.tsx:208-211 | day in two digits, `-`, month counted from 1 in two digits, `-`, the year |
| CustomerRows.JoinDate | src/app/customer/page.tsx:209-211 | the three parts joined with `-` sit at positions 0-1, 3-4 and 6 onward |
| CustomerRows.FormatCreatedAt | src/app/customer/page.tsx:207-211 | an unparsable creation date prints as `NaN-NaN-NaN`, a valid one as its formatted date |
| CustomerRows.ParseShaped | src/app/customer/page.tsx:208-211 | a string of the formatted shape reads back as the values of its three parts |
| CustomerRows.FormatDateRoundTrip | src/app/customer/page.tsx:208-211 | the formatted date reads back as the calendar date it came from |
| CustomerRows.FormatDateInjective | src/app/customer/page.tsx:208-211 | two calendar dates share a formatted string only when they are equal |
| CustomerRows.Prefix | src/app/customer/page.tsx:223 | `slice(0, n)` is a prefix of length `min(n, length)` |
| CustomerRows.SitePlanOrEmpty | src/app/customer/page.tsx:227 | `SitePlan \|\| ""`: a non-empty plan is kept, a missing or empty one becomes "" |
| CustomerRows.MapCustomer | src/app/customer/page.tsx:206-229 | the row keeps the record's id; the field-by-field contract is `MapCustomerFields` |
| CustomerRows.MapCustomerFields | src/app/customer/page.tsx:206-229 | the row copies the record's fields, cuts the number to a prefix of at most 10 characters, takes the assignee's name, the supplied date over the formatted one, and the site plan or "" |
| CustomerRows.MapCustomerDateReadsBack | src/app/customer/page.tsx:226 | without a supplied date the row's date reads back as the creation date |
| CustomerRows.MapRows | src/app/customer/page.tsx:196 | `data.map(mapCustomer)`: one row per record, in order, with the record's id |
| CustomerRows.MapRowsConcat | src/app/customer/page.tsx:251-252 | mapping a batch appended to the loaded records is appending its mapped rows |
| CustomerRows.Ids | src/app/customer/page.tsx:675 | `rows.map(c => c._id)`: the ids in row order |
| CustomerPage.ExportSubset | src/app/customer/page.tsx:159-162 | the export holds exactly the loaded rows whose id is ticked, in load order, each as many times as it was loaded |
| CustomerPage.ExportAfterToggle | src/app/customer/page.tsx:159-162 | after a toggle only the toggled id's rows change side of the export |
| CustomerPage.AfterPick | src/app/customer/page.tsx:610-636 | when a pick changes a parent id the filters end up agreeing with the new picks |
| CustomerPage.AfterPickKeepsPick | src/app/customer/page.tsx:1141-1262 | a pick whose parent is picked, made while filters and picks agree, survives the dependent effect unchanged |
| CustomerPage.CustomerListPage.constructor | src/app/customer/page.tsx:94-113 | the initial state, after the Limit effect on `Limit: ["100"]` has set 100 rows per page |
| CustomerPage.CustomerListPage.TotalTablePages | src/app/customer/page.tsx:452-454 | `Math.max(1, Math.ceil(n / r))` over the loaded rows: 1 when none are loaded, otherwise the fewest pages that hold them all |
| CustomerPage.CustomerListPage.CurrentRows | src/app/customer/page.tsx:456-457 | `slice(startIndex, startIndex + r)`: exactly the loaded rows from the page's first position, as many as remain up to a page |
| CustomerPage.CustomerListPage.ApplyLimitEffect | src/app/customer/page.tsx:460-464 | the rows per page become the picked Limit and the table returns to page 1 |
| CustomerPage.CustomerListPage.TotalPageEffect | src/app/customer/page.tsx:172-175 | the shown page count is `ceil(totalCustomers / Limit) \|\| 1` |
| CustomerPage.CustomerListPage.ExportEffect | src/app/customer/page.tsx:159-162 | the export data becomes the ticked loaded rows |
| CustomerPage.CustomerListPage.GetCustomers | src/app/customer/page.tsx:184-203 | asks for `Limit=100&Skip=0`; the chunk replaces the rows, the count is its length, and more remain exactly when it is full |
| CustomerPage.CustomerListPage.FetchMore | src/app/customer/page.tsx:232-259 | no request while fetching or when nothing remains; otherwise `Skip` is the loaded count, the chunk is appended after the unchanged rows, the count grows by its length, and more remain exactly when it is full |
| CustomerPage.CustomerListPage.HandleLastPage | src/app/customer/page.tsx:262-289 | every matching row at once: nothing more to load, the total is the row count, the page is the last, and Next is disabled |
| CustomerPage.CustomerListPage.GetTotalCustomerPage | src/app/customer/page.tsx:164-169 | on a response, the total is its length and the page count its ceiling, at least 1; with no response neither is set |
| CustomerPage.CustomerListPage.LoadFirstChunk | src/app/customer/page.tsx:375-381 | a chunk replaces the rows and returns to page 1; no chunk changes nothing |
| CustomerPage.CustomerListPage.HandleSelectChange | src/app/customer/page.tsx:339-393 | installs the normalised filters as the last applied ones, asks for the filter pairs with `Limit=100&Skip=0` and for their total without them, loads the chunk and total, and resets the rows per page only when the Limit array was replaced |
| CustomerPage.CustomerListPage.InstallFilters | src/app/customer/page.tsx:349-371 | the new record, its copy as the last applied filters, the trigger flag, and its two queries |
| CustomerPage.CustomerListPage.ReceiveResponses | src/app/customer/page.tsx:375-389 | the chunk and the total arrive, then page 1 and the new rows per page when the Limit effect fires, and the page count |
| CustomerPage.CustomerListPage.DependentEffectRun | src/app/customer/page.tsx:610-636 | the dependent effect runs only when a parent id changed, and never touches the Limit |
| CustomerPage.CustomerListPage.ClearFilter | src/app/customer/page.tsx:395-416 | the cleared record and picks, the first chunk without filters, 10 rows per page and page 1 |
| CustomerPage.CustomerListPage.RefreshCustomersWithLastFilters | src/app/customer/page.tsx:418-449 | nothing without applied filters; otherwise the page query of the last applied filters and the first chunk |
| CustomerPage.CustomerListPage.ChooseObject | src/app/customer/page.tsx:1141-1262 | no change when the picked id is not found; otherwise the pick is recorded, its record is installed as an override (trigger set, the first chunk replacing the rows on page 1, the total counted; each left as it was when its response is missing) and the dependent effect settles the filters |
| CustomerPage.CustomerListPage.PickAndLoad | src/app/customer/page.tsx:1143-1158 | the picker's record and picks, then `handleSelectChange` with that record as the override: rows, counts and page from the responses, each kept when its response is missing, and the Limit unchanged |
| CustomerPage.CustomerListPage.PickObject | src/app/customer/page.tsx:1143-1157 | the picker's own updates of the filters and the picks, keeping the Limit |
| CustomerPage.CustomerListPage.SettleDependent | src/app/customer/page.tsx:610-636 | the dependent effect after a pick, then the page count |
| CustomerPage.CustomerListPage.NextTablePage | src/app/customer/page.tsx:467-470 | one page forward unless on the last page |
| CustomerPage.CustomerListPage.PrevTablePage | src/app/customer/page.tsx:471-473 | one page back unless on page 1 |
| CustomerPage.CustomerListPage.FirstPage | src/app/customer/page.tsx:1539-1540 | back to page 1 |
| CustomerPage.CustomerListPage.PrevButton | src/app/customer/page.tsx:1547-1549 | one page back, never below page 1 |
| CustomerPage.CustomerListPage.NextButton | src/app/customer/page.tsx:1556-1569 | forward within the loaded pages; on the last one, another chunk (appended, counted, and deciding whether more remain) and then forward when more remain; a no-op when the button is disabled |
| CustomerPage.CustomerListPage.SelectRow | src/app/customer/page.tsx:684-690 | the id is toggled and the export follows |
| CustomerPage.CustomerListPage.SelectAllRows | src/app/customer/page.tsx:674-681 | select-all on the current page's ids flips the header checkbox and the export follows |
| CustomerPage.CustomerListPage.SelectVisible | src/app/customer/page.tsx:674-680 | select-all on the current page's ids, which flips the header checkbox |
| CustomerPage.CustomerListPage.SelectUser | src/app/customer/page.tsx:692-694 | the single user choice is toggled |
| CustomerPage.CustomerListPage.SelectMailtemplate | src/app/customer/page.tsx:696-698 | the single mail template choice is toggled |
| CustomerPage.CustomerListPage.SelectWhatsapptemplate | src/app/customer/page.tsx:700-702 | the single WhatsApp template choice is toggled |
| CustomerPage.CustomerListPage.PrepareDeleteAll | src/app/customer/page.tsx:1340-1349 | with rows loaded and nothing ticked the current page is ticked; otherwise nothing changes |
| MasterLimit.RowsFor | src/app/masters/customer-types/page.tsx:48 | `Number(limit)` of an option is positive and spelled as the option |
| MasterLimit.DefaultRows | src/app/masters/customer-types/page.tsx:79-82 | the default limit "10" is an option worth 10 rows |
| CustomerTypes.FormatType | src/app/masters/customer-types/page.tsx:35-38 | the name's first character is upper-cased, its length and the rest are unchanged, the other fields are copied |
| CustomerTypes.FormatTypes | src/app/masters/customer-types/page.tsx:35-38 | every type formatted, in order |
| CustomerTypes.FormatTypesConcat | src/app/masters/customer-types/page.tsx:35-38 | formatting two lists joined is joining them formatted |
| CustomerTypes.FilterTypes | src/app/masters/customer-types/page.tsx:52-60 | exactly the types whose lower-cased name or campaign name includes the lower-cased keyword, in order, with each match's multiplicity kept and no other type present |
| CustomerTypes.FilterTypesEmptyKeyword | src/app/masters/customer-types/page.tsx:56 | with no keyword every type is shown |
| CustomerTypes.FormatKeepsMatch | src/app/masters/customer-types/page.tsx:35-38 | capitalising a name does not change whether it matches |
| CustomerTypes.FilterAfterFormat | src/app/masters/customer-types/page.tsx:32-60 | filtering the formatted types is formatting the filtered types |
| CustomerTypes.CustomerTypeListPage.constructor | src/app/masters/customer-types/page.tsx:28-29 | page 1, 10 rows, no keyword and the default limit |
| CustomerTypes.CustomerTypeListPage.Filtered | src/app/masters/customer-types/page.tsx:52-60 | the loaded types that match the keyword, in load order and with their multiplicities |
| CustomerTypes.CustomerTypeListPage.TotalTablePages | src/app/masters/customer-types/page.tsx:84 | `Math.ceil(n / r)` with no floor: 0 exactly when nothing matches, otherwise just enough pages |
| CustomerTypes.CustomerTypeListPage.CurrentRows | src/app/masters/customer-types/page.tsx:85-87 | the window of the current page, at most a page of rows |
| CustomerTypes.CustomerTypeListPage.FetchTypes | src/app/masters/customer-types/page.tsx:32-41 | a response replaces the types, formatted; no response changes nothing |
| CustomerTypes.CustomerTypeListPage.SetKeyword | src/app/masters/customer-types/page.tsx:52-60 | the keyword changes and the page stays |
| CustomerTypes.CustomerTypeListPage.SetLimit | src/app/masters/customer-types/page.tsx:47-50 | the rows per page follow the limit; the page returns to 1 exactly when the limit changed |
| CustomerTypes.CustomerTypeListPage.Clear | src/app/masters/customer-types/page.tsx:79-82 | no keyword, the default limit and 10 rows, page 1 when the limit was another one |
| CustomerTypes.CustomerTypeListPage.PrevButton | src/app/masters/customer-types/page.tsx:268-270 | `Math.max(1, p - 1)` |
| CustomerTypes.CustomerTypeListPage.NextButton | src/app/masters/customer-types/page.tsx:278-282 | `p < totalTablePages ? p + 1 : p` |
| CustomerTypes.NextEnabledAdvances | src/app/masters/customer-types/page.tsx:278-286 | when Next is enabled a click moves to the next page |
| CustomerTypes.StalePageShowsNothing | src/app/masters/customer-types/page.tsx:84-87 | a page past the last one shows no rows and Next leaves it there |
| CustomerSubtypes.FormatSubtype | src/app/masters/customer-subtype/page.tsx:33-36 | the name's first character is upper-cased, its length and the rest are unchanged, the other fields are copied |
| CustomerSubtypes.FormatSubtypes | src/app/masters/customer-subtype/page.tsx:33-36 | every subtype formatted, in order |
| CustomerSubtypes.FormatSubtypesConcat | src/app/masters/customer-subtype/page.tsx:33-36 | formatting two lists joined is joining them formatted |
| CustomerSubtypes.FilterSubtypes | src/app/masters/customer-subtype/page.tsx:51-60 | exactly the subtypes whose lower-cased name, campaign name or type name includes the lower-cased keyword, in order, with each match's multiplicity kept and no other subtype present |
| CustomerSubtypes.FilterSubtypesEmptyKeyword | src/app/masters/customer-subtype/page.tsx:55 | with no keyword every subtype is shown |
| CustomerSubtypes.FormatKeepsMatch | src/app/masters/customer-subtype/page.tsx:33-36 | capitalising a name does not change whether it matches |
| CustomerSubtypes.FilterAfterFormat | src/app/masters/customer-subtype/page.tsx:30-60 | filtering the formatted subtypes is formatting the filtered subtypes |
| CustomerSubtypes.SerialFromFirstRow | src/app/masters/customer-subtype/page.tsx:171 | `indexOfFirstRow + i + 1` is the serial number `(p - 1) * r + i + 1` |
| CustomerSubtypes.SubtypeListPage.constructor | src/app/masters/customer-subtype/page.tsx:26-27 | page 1, 10 rows, no keyword and the default limit |
| CustomerSubtypes.SubtypeListPage.Filtered | src/app/masters/customer-subtype/page.tsx:51-60 | the loaded subtypes that match the keyword, in load order and with their multiplicities |
| CustomerSubtypes.SubtypeListPage.TotalTablePages | src/app/masters/customer-subtype/page.tsx:84 | `Math.max(1, Math.ceil(n / r))`: at least 1, and just enough pages |
| CustomerSubtypes.SubtypeListPage.CurrentRows | src/app/masters/customer-subtype/page.tsx:85-87 | the window of the current page, at most a page of rows |
| CustomerSubtypes.SubtypeListPage.FetchSubtypes | src/app/masters/customer-subtype/page.tsx:30-40 | a response replaces the subtypes, formatted; no response changes nothing |
| CustomerSubtypes.SubtypeListPage.SetKeyword | src/app/masters/customer-subtype/page.tsx:51-60 | the keyword changes and the page stays |
| CustomerSubtypes.SubtypeListPage.SetLimit | src/app/masters/customer-subtype/page.tsx:46-49 | the rows per page follow the limit; the page returns to 1 exactly when the limit changed |
| CustomerSubtypes.SubtypeListPage.Clear | src/app/masters/customer-subtype/page.tsx:79-82 | no keyword, the default limit and 10 rows, page 1 when the limit was another one |
| CustomerSubtypes.SubtypeListPage.PrevButton | src/app/masters/customer-subtype/page.tsx:216 | `Math.max(1, p - 1)` |
| CustomerSubtypes.SubtypeListPage.NextButton | src/app/masters/customer-subtype/page.tsx:217 | one forward below the count, never past the last page, a no-op on it |
| CustomerSubtypes.NextEnabledAdvances | src/app/masters/customer-subtype/page.tsx:217 | when Next is enabled a click moves to the next page |

## Left out

- Network calls are left out. Every call into the REST layer (`getFilteredCustomer`, `getCustomer`, `getTypes`, `getSubtype` and the rest) is a handler parameter holding the response.
- The delete, favourite, assign, mail and WhatsApp actions are left out: they are server calls followed by toasts. This covers `handleDelete`, `handleFavourite`, `handleDeleteAll`, `handleAssignto` and the mail/WhatsApp senders, plus the master pages' `handleDelete` and `handleEdit`. `PrepareDeleteAll` models only which rows the Delete All button ticks.
- Loading the picker options is left out: these are network calls. This covers `fetchUsers`, `fetchEmailTemplates`, `fetchWhatsappTemplates`, `fetchFields`, `fetchCustomerType`, `fetchLocation`, `fetchCustomerSubType`, and the options half of the dependent-picker effect. Picker choices arrive as a `Choice`, or `None` when `find` matches nothing.
- The mount effect that reads `Campaign` from the URL (`src/app/customer/page.tsx:122-156`) is left out; only the handlers it calls (`handleSelectChange`, `getCustomers`, `getTotalCustomerPage`) are modelled. Not captured: its early return until the Campaign options have loaded; its own writes of `StatusAssign: [status]` and of the Campaign pick; the override it builds from the `filters` of that render with `Campaign: [status]`, which replaces the record and so drops the `StatusAssign` just set; and its re-running whenever the URL parameters or the Campaign options change.
- Asynchrony is left out: races between overlapping requests, React's batching of state updates, and the render between a picker's own updates and the dependent effect. Each handler is one atomic step, and `isFetchingMore` is always false between steps.
- CustomerPage.CustomerListPage.ChooseObject: the dependent effect is applied after the responses arrive. In the page it may run before them. The responses never change the filters, so the final state is the same either way.
- Rendering, toasts, navigation, role-gated buttons, the Excel export and `getPlainTextFromHTML` (which needs a browser `DOMParser`) are left out.
- JavaScript `Date` parsing in the local time zone is left out. The creation date arrives already split into day, month from 0, and year, or as `None` when it does not parse.
- Percent-encoding of query parameters is left out. This is the application/x-www-form-urlencoded serializer of the WHATWG URL Standard, section 5.2. A query is the ordered list of name/value pairs before encoding.
- Case mapping covers ASCII letters only. `toLowerCase` and `toUpperCase` of other characters are not modelled.
- `Math.ceil` over floating point is modelled as natural-number ceiling division. The two agree for the row counts and positive rows-per-page values used here.
- CustomerPage.CustomerListPage.HandleSelectChange: requires the installed Limit to be one of the picker's options. An emptied or foreign Limit would make `Number(...)` give `NaN` or 0 rows per page, and that is not modelled.
- MasterLimit.RowsFor: defined for the `<select>` options only. A foreign value would make `Number(limit)` give `NaN`.
- CustomerRows.MapCustomer: its own ensures states only that the id is copied. The field-by-field contract is the lemma `CustomerRows.MapCustomerFields`.
- CustomerRows.Mappable: a day or month of 100 or more cannot come from a real `Date`. The formatter requires fewer, which every parsed date satisfies.
- CustomerSubtypes.FormatSubtype: a subtype without a `Name` is not modelled. The page capitalises it to `NaN`, and the model always has a name.
- The types and subtypes records hold only the fields the list logic reads: the id, the name, and the campaign and type names. The page spreads the other fields through unchanged.
- `src/app/component/DateSelector.tsx` is not part of this model. It wraps a date picker and has no list logic.
