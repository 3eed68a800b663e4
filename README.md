# Search query construction of the Linux.org.ru search viewer

This project models, in Dafny, how the site's `SearchViewer` turns a user's search request into
the Elasticsearch search request it sends, and proves what that request contains.

- The query text is escaped: `[`, `]`, `\` and `/` each get a backslash in front.
- The escaped text goes to the index's validate call as a lenient query-string clause with
  minimum-should-match `50%`. If the index rejects it, the clause becomes a lenient phrase match
  on `_all` over the original text.
- The search range, date interval and user become the clauses of a mandatory bool filter.
- The booster always wraps the root query. It multiplies the score of topics by 3 and of
  documents from the last three years by 2.
- Section and group become post filters. A single post filter is used directly; several are
  wrapped in one bool filter.
- The request declares two facets: `sections` is never filtered, and `groups` is scoped to the
  chosen section.
- The request also gets the sort of the chosen order, a page of 50 rows from the request's
  offset, and highlighting for `title`, `topic_title` and `message`.

Files:

- `optional.dfy`: the `Option` type that stands for Java's nullable references.
- `query_escape.dfy` (module `QueryEscape`): the escaping as a function on strings. It comes with
  its inverse `Unescape` and the `WellEscaped` grammar of escaped texts. Lemmas prove the
  round trip in both directions, the length, injectivity and that each character is escaped
  on its own.
- `es_query.dfy` (module `EsQuery`): the pieces of the client's query language that the core
  builds: filters, queries, score functions, facets, sorts and highlighted fields.
  - What a filter and a query admit for a document (`Matches`, `Admits`) and the score
    multiplier of a set of factor functions (`Multiplier`). The model uses these to give the
    plan a meaning.
  - The two mutable builders the core fills in: `BoolFilterBuilder` (its `must` appends a
    clause) and `SearchRequestBuilder`. The request builder wraps the request source as a
    `SearchPlan` value; its setters replace one setting and its adders append to a list.
- `search.dfy` (module `Search`): the core itself.
  - The enums `SearchRange`, `SearchInterval` and `SearchOrder` are datatypes with their
    accessors.
  - `SearchRequest` is an immutable record.
  - The pure steps are functions: `ProcessQueryString`, `Boost`, and the filter, facet and
    highlight declarations. `Plan` is the specification function for the whole request.
  - The class `SearchViewer` builds the request imperatively. `PerformSearch` is split into
    `SetRootQuery`, `QueryFilter` and `AddPostFiltersAndFacets`, along the source's own
    sections. `AndFilters` loops over the post filters and `SetupHighlight` mutates the request
    builder. `PerformSearch` is proved to return exactly `Plan(query, validator)`.
- `search_properties.dfy` (module `SearchProperties`): the properties of `Plan`.

The index's validate call is modelled as a parameter `validator: Query -> bool`, applied to the
candidate query-string clause. The executing call is not made: `PerformSearch` returns the built
request (`SearchPlan`) instead.

- The section post filter and the groups-facet scope apply only when the section is neither
  null nor the empty string (`Strings.isNullOrEmpty`, `SearchViewer.java` lines 227 and 235).
- The group post filter applies whenever the group is non-null, even when it is empty
  (`SearchViewer.java` line 241).
- The range filter's value is the string `"false"` or `"true"`, not a boolean
  (`SearchViewer.java` lines 50-51).

## Model

| member | source | states |
|---|---|---|
| `QueryEscape.Escape` | src/main/java/ru/org/linux/search/SearchViewer.java:135 | the escaped text is longer than the input by exactly the number of `[`, `]`, `\` and `/` in it |
| `QueryEscape.EscapeSplit` | src/main/java/ru/org/linux/search/SearchViewer.java:135 | around every position, the output is the escaped prefix, then the character with a backslash before it exactly when it is special, then the escaped suffix; all other characters are unchanged and in order |
| `QueryEscape.EscapeAppend` | src/main/java/ru/org/linux/search/SearchViewer.java:135 | escaping a concatenation is the concatenation of the escapings, so each character is escaped independently |
| `QueryEscape.EscapeIdentity` | src/main/java/ru/org/linux/search/SearchViewer.java:135 | a text without special characters is left unchanged |
| `QueryEscape.UnescapeEscape` | src/main/java/ru/org/linux/search/SearchViewer.java:135 | removing the inserted backslashes gives back the original text |
| `QueryEscape.EscapeWellEscaped` | src/main/java/ru/org/linux/search/SearchViewer.java:135 | in the escaped text every special character is preceded by its backslash, and every backslash escapes a special character |
| `QueryEscape.EscapeUnescape` | src/main/java/ru/org/linux/search/SearchViewer.java:135 | every well-escaped text is the escaping of its unescaped text (the other direction of the round trip) |
| `QueryEscape.EscapeInjective` | src/main/java/ru/org/linux/search/SearchViewer.java:135 | two different texts never escape to the same text |
| `Search.SearchRange.Value` | src/main/java/ru/org/linux/search/SearchViewer.java:48-63 | the range carries no `is_comment` value exactly when it is `ALL` |
| `Search.SearchRange.Column` | src/main/java/ru/org/linux/search/SearchViewer.java:65-67 | every range filter is on the `is_comment` field |
| `Search.SearchInterval.Range` | src/main/java/ru/org/linux/search/SearchViewer.java:74-91 | the interval carries no lower date bound exactly when it is `ALL`; the four bounds themselves are stated by `IntervalFilterExactly` |
| `Search.SearchInterval.Column` | src/main/java/ru/org/linux/search/SearchViewer.java:97-99 | every interval filter bounds the `postdate` field |
| `Search.SearchOrder.Column` | src/main/java/ru/org/linux/search/SearchViewer.java:102-123 | relevance sorts on `_score`, both date orders on `postdate` |
| `Search.SearchOrder.Order` | src/main/java/ru/org/linux/search/SearchViewer.java:102-105 | only `DATE_OLD_TO_NEW` sorts ascending |
| `Search.ProcessQueryString` | src/main/java/ru/org/linux/search/SearchViewer.java:134-158 | exactly one outcome: the query-string clause exactly when the validator accepts the candidate, and then it is lenient, has minimum-should-match `50%`, and its text is the escaped query, which unescapes to the original; otherwise a lenient phrase match on `_all` over the original, unescaped text |
| `Search.Boost` | src/main/java/ru/org/linux/search/SearchViewer.java:160-167 | the booster is a function-score query wrapping exactly the given query |
| `Search.SearchViewer.constructor` | src/main/java/ru/org/linux/search/SearchViewer.java:130-132 | the viewer keeps the request it is given |
| `Search.SearchViewer.PerformSearch` | src/main/java/ru/org/linux/search/SearchViewer.java:169-255 | the request built step by step is exactly `Plan(query, validator)`, the plan whose properties the `SearchProperties` lemmas state |
| `Search.SearchViewer.SetRootQuery` | src/main/java/ru/org/linux/search/SearchViewer.java:192-222 | sets the boosted primary clause when the mandatory filter has no clauses, else the boosted filtered query with all mandatory clauses; nothing else changes |
| `Search.SearchViewer.QueryFilter` | src/main/java/ru/org/linux/search/SearchViewer.java:192-214 | the mandatory bool filter holds exactly the range, interval and user clauses, in that order |
| `Search.SearchViewer.AddPostFiltersAndFacets` | src/main/java/ru/org/linux/search/SearchViewer.java:224-247 | appends the two facets; sets the post filter to the conjunction of the section and group filters when there is one, and leaves it unset otherwise; nothing else changes |
| `Search.SearchViewer.AndFilters` | src/main/java/ru/org/linux/search/SearchViewer.java:257-269 | a single filter is returned as it is, any other number is wrapped in one bool-must filter holding all of them in order; the result admits exactly the documents every filter admits |
| `Search.SearchViewer.SetupHighlight` | src/main/java/ru/org/linux/search/SearchViewer.java:271-289 | appends the three highlighted fields and sets the HTML encoder and the pre and post tags; nothing else changes |
| `SearchProperties.RangeFilterExactly` | src/main/java/ru/org/linux/search/SearchViewer.java:194-196 | the mandatory filters on `is_comment` are none for `ALL`, exactly `is_comment = "false"` for `TOPICS` and exactly `is_comment = "true"` for `COMMENTS` |
| `SearchProperties.IntervalFilterExactly` | src/main/java/ru/org/linux/search/SearchViewer.java:198-204 | the mandatory filters on `postdate` are none for `ALL`, otherwise exactly one range from the interval's own bound (`YEAR` gives `now/d-1y`, and so on) with no upper bound |
| `SearchProperties.UserFilterExactly` | src/main/java/ru/org/linux/search/SearchViewer.java:206-214 | with a user, exactly one term filter on the nick: on `topic_author` when the usertopic flag is set, on `author` otherwise; without a user, neither |
| `SearchProperties.MandatoryFiltersOnly` | src/main/java/ru/org/linux/search/SearchViewer.java:192-214 | there is one mandatory filter per setting that is not `ALL` or absent, and every one is on `is_comment`, `postdate`, `topic_author` or `author` |
| `SearchProperties.MandatoryFiltersAdmit` | src/main/java/ru/org/linux/search/SearchViewer.java:192-214 | a document passes all mandatory filters exactly when it satisfies the request's range, interval and user conditions |
| `SearchProperties.RootQueryAdmits` | src/main/java/ru/org/linux/search/SearchViewer.java:216-222 | the root query admits a document exactly when the primary clause matches it and it satisfies range, interval and user, whichever branch was taken; boosting does not change what is admitted |
| `SearchProperties.BoostOutermost` | src/main/java/ru/org/linux/search/SearchViewer.java:216-222 | the root query is a function-score query and the only one in the tree; it carries exactly the two factor functions `is_comment = "false"` ×3 and `postdate ≥ now/d-3y` ×2; it wraps the primary clause alone when there are no mandatory filters, else the primary clause filtered by all of them |
| `SearchProperties.BoostFactors` | src/main/java/ru/org/linux/search/SearchViewer.java:160-167 | the booster multiplies the score of a topic by 3 and of a document of the last three years by 2, so a recent topic gets 6 |
| `SearchProperties.PostFiltersExactly` | src/main/java/ru/org/linux/search/SearchViewer.java:224-243 | the section post filter is there exactly when the section is non-null and non-empty, the group post filter exactly when the group is non-null (even if empty); section comes before group and there are no others |
| `SearchProperties.ConjunctionAdmits` | src/main/java/ru/org/linux/search/SearchViewer.java:257-269 | one filter is used directly and any other number is wrapped in a bool-must filter; the result admits exactly what every filter admits |
| `SearchProperties.PostFilterAdmits` | src/main/java/ru/org/linux/search/SearchViewer.java:241-247 | no post filter is set exactly when there is neither section nor group; otherwise the post filter admits exactly the documents of the requested section and group |
| `SearchProperties.FacetScoping` | src/main/java/ru/org/linux/search/SearchViewer.java:231-239 | two facets: `sections` on field `section` with no facet filter, and `groups` on field `group` with a `section` term filter exactly when the section is non-empty (the same filter as the section post filter) |
| `SearchProperties.SortBy` | src/main/java/ru/org/linux/search/SearchViewer.java:249 | one sort: `_score` descending for `RELEVANCE`, `postdate` descending for `DATE`, `postdate` ascending for `DATE_OLD_TO_NEW` |
| `SearchProperties.Paging` | src/main/java/ru/org/linux/search/SearchViewer.java:189-190 | the page size is 50 and the first row is the request's offset |
| `SearchProperties.HighlightSettings` | src/main/java/ru/org/linux/search/SearchViewer.java:271-289 | `title` and `topic_title` are highlighted with 0 fragments and their sizes left at the client's default; `message` with 1 fragment whose size and no-match size are both 250; HTML encoder, `<em class=search-hl>` … `</em>` |
| `SearchProperties.UnbalancedBracketFallsBack` | src/main/java/ru/org/linux/search/SearchViewer.java:150-157 | for `a[b`, the candidate the validator sees has the text `a\[b`; when the index rejects it, the clause is a phrase match on `_all` over the literal `a[b` |

## Left out

- The two Elasticsearch calls, the validate call and the execution of the search, are not made.
  Validation is the `validator` parameter, and `PerformSearch` returns the built request instead
  of the response. Network failures and timeouts are not modelled.
- The index and type names come from `SearchQueueListener`, which is not part of this model.
  The request does not record them.
- The list of returned fields (`addFields`) is plain configuration and is not recorded.
- Logging of an invalid query is not modelled. Nor are the display titles and names of the
  enums (`getTitle`, `getName`).
- Date-math bounds (`now/h-1M`, `now/d-3y`, …) stay opaque strings. A document records which
  (field, bound) pairs its date reaches; clocks and date arithmetic are not modelled.
- `Matches` and `Admits` give filters and queries their ordinary meaning: a term equality, an
  inclusive lower bound, the conjunction of a bool-must filter, and a filtered query as the
  query and its filter together. `Multiplier` takes factor functions to multiply (the
  function-score default). These are the client's semantics and are not checked against it.
  What a free-text clause matches is a parameter (`textMatch`).
- `rangeFilter(...).from(x)` and `.gte(x)` are both modelled as one inclusive lower bound with no
  upper bound (`RangeFrom`).
- `SearchRequest` and `User` are not part of this model. The request is an immutable record
  whose query text is never null and whose offset is a natural number; the user is reduced to
  the nick.
- Java strings are UTF-16 and Dafny's are sequences of Unicode scalar values. This makes no
  difference to the escaping, whose special characters are all ASCII.
- `Search.Boost`: its own contract says only that it wraps the given query. The two factor
  functions are stated by `BoostOutermost` and their effect on scores by `BoostFactors`.
- `TagService`, `CSRFHandlerInterceptor` and the `RuTypoChanger` tests are outside the search
  core. They are CRUD glue, interceptor plumbing that always returns `true`, and tests of a class
  whose implementation is not part of this model.
