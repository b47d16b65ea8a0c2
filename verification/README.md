# Search filter taxonomy and filter handling

A Dafny model of the filter logic of the ONS search frontend controller
(`data/filter.go`). The search page shows three facet categories
(Publication, Data, Other) holding eight content types. Each content type
has a localisation key, the name the page uses in its `filter` query
parameter, and the finer sub-types the search API knows it by. The
controller does three things with this taxonomy:

- **reviewFilters** checks each `filter` value of an incoming request
  against the lookup table `filterOptions`. For each known value it appends
  the content type's name and localisation key to the request's `Filter`.
  At the first unknown value it stops with `ErrFilterNotFound`, and the
  appends made before it stay in place.
- **GetCategories** returns a copy of the category list, documented as
  one where all the counts are set to zero.
- **updateQueryWithAPIFilters / getSubFilters** rewrite the outgoing
  `content_type` parameter. It becomes one value: the comma-joined
  sub-types of the chosen content types. Unknown values contribute nothing.

Modules:

- `AppErrors` (`errors.dfy`): the `FilterNotFound` error and the
  pass/fail `Outcome`.
- `UrlValues` (`url_values.dfy`): `url.Values` as `map<string, seq<string>>`,
  indexing (`Get`) and `Set`, and `strings.Join`. `Split` is the inverse
  of `Join` on non-empty lists of separator-free strings, used to state
  what the joined parameter holds.
- `Taxonomy` (`taxonomy.dfy`): the `ContentType` and `Category` records,
  the static constants, `FilterOptions` and `GetCategories`.
- `Filters` (`filters.dfy`): the `Filter` record, `reviewFilters`,
  `getSubFilters` and `updateQueryWithAPIFilters`. The inner functions take
  the lookup table as a parameter `options`. The entry points
  `ReviewFilters` and `UpdateQueryWithAPIFilters` pass `FilterOptions`, as
  the Go code reads the package-level table.

`reviewFilters` changes its caller's struct through a pointer. The model
returns a `Reviewed` record instead: the filter as updated so far, plus the
outcome. A failed review therefore still shows the entries appended before
the failure, as the Go caller would see them.

Two behaviours of the code are worth stating plainly:

- `GetCategories` is documented as returning the categories "where all the
  count is set to zero" (`data/filter.go:145`). It copies the static
  categories and never writes a count. The counts are zero only because the
  static definitions leave `Count` unset (`StaticCountsZero`).
- `updateQueryWithAPIFilters` skips the rewrite only when `content_type` has
  no values (`data/filter.go:169`). When every value is unknown, the
  sub-type list is empty and `content_type` becomes `[""]`
  (`data/filter.go:170-172`). `UpdateQueryWithAPIFilters` states this case.

## Model

| member | source | states |
|---|---|---|
| Taxonomy.GetCategories | data/filter.go:146-163 | Exactly three categories, named Publication, Data and Other in that order. Each holds its content types in the static order. Every category and content-type count is zero. The content types listed are exactly the entries of the lookup table, each under its own name. |
| Taxonomy.StaticCountsZero | data/filter.go:34-108 | No static category or content type has a non-zero count. |
| Taxonomy.AllContentTypesOfCategories | data/filter.go:34-52 | Read category by category, the categories list the eight content types Bulletin, Article, Compendium, TimeSeries, Datasets, UserRequestedData, Methodology, CorporateInformation. |
| Taxonomy.FilterOptionsKeyedByType | data/filter.go:111-120 | Every key of the lookup table is the `Type` of the content type it maps to. |
| Taxonomy.TaxonomyInFilterOptions | data/filter.go:34-120 | Every content type listed in the categories is in the lookup table, under its own `Type`. |
| Taxonomy.FilterOptionsInTaxonomy | data/filter.go:110-120 | Every value of the lookup table is a content type listed in one of the categories. |
| Taxonomy.FilterOptionsKeysAreTaxonomyTypes | data/filter.go:34-120 | The key set of the lookup table is exactly the set of `Type`s of the content types listed in the three categories. |
| Taxonomy.TaxonomyTypeNamesDistinct | data/filter.go:54-108 | The eight listed content types have pairwise distinct `Type`s. |
| Taxonomy.SubTypesHaveNoComma | data/filter.go:54-108 | No sub-type of any content type in the table contains a comma. |
| Filters.FirstUnknown | data/filter.go:126-138 | The index where the review loop stops: every earlier value is a table key, and the value at the index (if any) is not. |
| Filters.ReviewValues | data/filter.go:126-142 | The loop result. The outcome is a pass exactly when no value is unknown, and otherwise `FilterNotFound`. The filter is the input extended by the content types of exactly the values before the first unknown one. The old lists stay as a prefix. At each new index stand the looked-up `Type` and its localisation key. |
| Filters.ExtendsStep | data/filter.go:129-131 | Appending one known value's content type and then extending by the rest extends by one value more. |
| Filters.ReviewFilters | data/filter.go:123-143 | The review passes iff every `filter` value is a key of the lookup table. On a pass, `Query` gains exactly those values in input order, and `LocaliseKeyName` gains their localisation keys at the matching positions. Either way both old lists stay as a prefix. An error is always `FilterNotFound`. |
| Filters.ExtendedByValues | data/filter.go:130 | Because the table is keyed by `Type`, appending the looked-up `Type`s appends the filter values themselves. |
| Filters.ReviewStopsAtFirstUnknown | data/filter.go:132-138 | When value k is the first unknown one, the review fails with `FilterNotFound`. `Query` holds exactly the earlier values, with their localisation keys. |
| Filters.ReviewIgnoresLaterValues | data/filter.go:126-138 | Once a value is unknown, appending more values after it leaves the result unchanged, so no later value is examined. |
| Filters.ReviewValuesConcat | data/filter.go:126-140 | Reviewing a + b is reviewing a, then, only if that passed, reviewing b starting from the resulting filter. |
| Filters.ReviewKeepsLockstep | data/filter.go:130-131 | If `Query` and `LocaliseKeyName` start with equal lengths, they end with equal lengths. At each new index the entry is a table key, and the localisation key is the one of that entry. |
| Filters.ReviewWithoutFilters | data/filter.go:124-142 | With no `filter` values the review passes and the filter is unchanged. |
| Filters.GetSubFilters | data/filter.go:177-186 | A string is in the result iff it is a sub-type of one of the known filter values. An empty input gives an empty result. |
| Filters.GetSubFiltersOne | data/filter.go:181-182 | One filter value contributes exactly its own sub-types, or none when it is unknown. |
| Filters.GetSubFiltersConcat | data/filter.go:180-183 | The sub-types of a + b are the sub-types of a followed by those of b, so the filter order is kept. |
| Filters.GetSubFiltersSkipsUnknown | data/filter.go:181-182 | An unknown filter value can be removed without changing the result, and it raises no error. |
| Filters.GetSubFiltersCommaFree | data/filter.go:177-186 | If no sub-type in the table contains a comma, no element of the result does. |
| Filters.JoinedSubFiltersSplit | data/filter.go:170-172 | The comma-joined sub-types split back into exactly the sub-types. With no sub-types the joined string is empty. |
| Filters.UpdateQueryWithAPIFilters | data/filter.go:166-174 | With no `content_type` values the query is unchanged. Otherwise `content_type` has exactly one value, which splits at commas into the sub-types of the old values (or is `""` when they have none). The key set is unchanged, and so is every other key. |
| UrlValues.Get | data/filter.go:124 | Indexing a query by a present key gives that key's values, and by an absent key gives no values. |
| Filters.Append | data/filter.go:130-131 | The content type's `Type` is appended to `Query` and its localisation key to `LocaliseKeyName`. Each list grows by one, and the old entries stay as a prefix. |
| Filters.SubTypesOf | data/filter.go:181-182 | A known value yields its table entry's `SubTypes`. An unknown value yields none, as Go's zero `ContentType` has nil `SubTypes`. |
| UrlValues.SetValue | data/filter.go:172 | `Set` gives the key exactly the one value and leaves every other key unchanged. |
| UrlValues.Join | data/filter.go:172 | Joining the empty list gives the empty string, and joining a one-element list gives that element. For longer lists of separator-free strings, the result is fixed by `SplitJoin` and `JoinSplit`. |
| UrlValues.SplitJoin | data/filter.go:172 | Joining a non-empty list of comma-free strings with "," and splitting at ',' gives the list back. |
| UrlValues.JoinSplit | data/filter.go:172 | Splitting any string at a separator and joining the pieces with it gives the string back. |

## Left out

- main.go is not part of this model: process start-up, configuration, health checks, routing, the HTTP server and signal-driven shutdown are I/O and concurrency over external libraries.
- The response mapper (`CreateSearchPage`, the filter-summary text, the limit/offset defaults) is not part of this model: its implementation is not among the modelled files.
- `SearchURLParams` is defined outside `data/filter.go` and is not part of this model. Only its `Filter` field, the one `reviewFilters` touches, is modelled.
- The `context` argument and the error log in `reviewFilters` are side effects and are left out. The log records the zero `ContentType` returned by the failed lookup, not the rejected value.
- The deep-copy mechanics of `GetCategories` are left out. Dafny sequences and datatypes are values, so a caller cannot change the static taxonomy through the copy.
- Go's `int` width for `Count` is not modelled: every count in this code is zero.
- UrlValues.Join: its own contract states only the empty and one-element cases. For longer lists of separator-free strings, the result is fixed by the round-trip lemmas `SplitJoin` and `JoinSplit`; lists whose elements contain the separator are not pinned, and the filter code never joins such a list (`Taxonomy.SubTypesHaveNoComma`).
- Strings: Go strings are byte strings, while the model's `string` is a sequence of Unicode characters, so a percent-decoded query value holding invalid UTF-8 has no counterpart here. No outcome changes: every table key is ASCII, and the ASCII ',' never occurs inside a multi-byte UTF-8 sequence, so the lookups and the comma split agree.
- UrlValues.Split models `strings.Split` for a one-character separator only, the case the joined `content_type` value needs.
- Filters.GetSubFilters: its contract states membership only, not multiplicity or order. Order and duplicates are fixed by `GetSubFiltersConcat` together with `GetSubFiltersOne`.
