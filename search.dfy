/**
 * The search viewer: turns a user's search request into the search plan that is sent to the
 * index. The free text becomes a query-string clause when the index validates it and a phrase
 * match otherwise; range, interval and user become mandatory filters; the whole query is wrapped
 * in a relevance booster; section and group become post filters; two facets, the sort, paging
 * and highlighting complete the plan.
 */
module Search {
  import opened Optional
  import opened QueryEscape
  import opened EsQuery

  /** Length of the message fragment, and of the text returned when nothing matched. */
  const MessageFragment: nat := 250
  /** Score factor for topics, as opposed to comments. */
  const TopicBoost: nat := 3
  /** Score factor for documents dated within the last three years. */
  const RecentBoost: nat := 2
  /** Page size. */
  const SearchRows: nat := 50

  /** Which kind of document is searched: the `is_comment` value it requires, if any. */
  datatype SearchRange = All | Topics | Comments {
    function Value(): (v: Option<string>)
      ensures v.None? <==> this == SearchRange.All
    {
      match this
      case All => None
      case Topics => Some("false")
      case Comments => Some("true")
    }

    /** Range filters always test the `is_comment` field. */
    function Column(): (c: string)
      ensures c == "is_comment"
    {
      "is_comment"
    }
  }

  /** How far back the search reaches: the date-math lower bound on `postdate`, if any. */
  datatype SearchInterval = Month | ThreeMonth | Year | ThreeYear | All {
    function Range(): (r: Option<string>)
      ensures r.None? <==> this == SearchInterval.All
    {
      match this
      case Month => Some("now/h-1M")
      case ThreeMonth => Some("now/d-3M")
      case Year => Some("now/d-1y")
      case ThreeYear => Some("now/w-3y")
      case All => None
    }

    /** Interval filters always bound the `postdate` field. */
    function Column(): (c: string)
      ensures c == "postdate"
    {
      "postdate"
    }
  }

  /** The result order: the sort column and its direction. */
  datatype SearchOrder = Relevance | Date | DateOldToNew {
    function Column(): (c: string)
      ensures c == (if this == Relevance then "_score" else "postdate")
    {
      match this
      case Relevance => "_score"
      case Date => "postdate"
      case DateOldToNew => "postdate"
    }

    function Order(): (o: SortOrder)
      ensures o == Asc <==> this == DateOldToNew
    {
      match this
      case Relevance => Desc
      case Date => Desc
      case DateOldToNew => Asc
    }
  }

  datatype User = User(nick: string)

  /** What the user asked for; `None` stands for a Java null. */
  datatype SearchRequest = SearchRequest(
    q: string,
    offset: nat,
    range: SearchRange,
    interval: SearchInterval,
    sort: SearchOrder,
    user: Option<User>,
    usertopic: bool,
    section: Option<string>,
    group: Option<string>)

  predicate IsNullOrEmpty(s: Option<string>) {
    s.None? || s.value == ""
  }

  function ToSeq<T>(o: Option<T>): seq<T> {
    if o.Some? then [o.value] else []
  }

  /** The lenient query-string clause over the escaped text that is offered for validation. */
  function Candidate(queryText: string): Query {
    QueryString(Escape(queryText), true, "50%")
  }

  /**
   * The primary clause. `validator` answers the index's validate call for the candidate
   * clause: when it accepts, the candidate is used; otherwise a lenient phrase match on `_all`
   * over the original, unescaped text.
   */
  function ProcessQueryString(validator: Query -> bool, queryText: string): (r: Query)
    ensures r.QueryString? <==> validator(Candidate(queryText))
    ensures r.QueryString? ==>
      r.text == Escape(queryText) && Unescape(r.text) == queryText &&
      r.lenient && r.minimumShouldMatch == "50%"
    ensures !r.QueryString? ==> r == MatchPhrase("_all", queryText, true)
  {
    UnescapeEscape(queryText);
    var candidate := Candidate(queryText);
    if validator(candidate) then candidate else MatchPhrase("_all", queryText, true)
  }

  /** The two score functions of the booster: topics ×3, documents of the last three years ×2. */
  function BoostFunctions(): seq<ScoreFunction> {
    [Factor(Term("is_comment", "false"), TopicBoost),
     Factor(RangeFrom("postdate", "now/d-3y"), RecentBoost)]
  }

  function Boost(q: Query): (r: Query)
    ensures r.FunctionScore? && r.query == q
  {
    FunctionScore(q, BoostFunctions())
  }

  function RangeFilter(range: SearchRange): Option<Filter> {
    if range.Value().Some? then Some(Term(range.Column(), range.Value().value)) else None
  }

  function IntervalFilter(interval: SearchInterval): Option<Filter> {
    if interval.Range().Some? then Some(RangeFrom(interval.Column(), interval.Range().value))
    else None
  }

  function UserFilter(user: Option<User>, usertopic: bool): Option<Filter> {
    if user.None? then None
    else if usertopic then Some(Term("topic_author", user.value.nick))
    else Some(Term("author", user.value.nick))
  }

  /** The clauses of the mandatory bool filter, in the order they are added. */
  function MandatoryFilters(req: SearchRequest): seq<Filter> {
    ToSeq(RangeFilter(req.range)) + ToSeq(IntervalFilter(req.interval)) +
    ToSeq(UserFilter(req.user, req.usertopic))
  }

  /** The root query: the primary clause, filtered when there are mandatory filters, boosted. */
  function RootQuery(req: SearchRequest, validator: Query -> bool): Query {
    var primary := ProcessQueryString(validator, req.q);
    var mandatory := MandatoryFilters(req);
    if mandatory == [] then Boost(primary) else Boost(Filtered(primary, BoolMust(mandatory)))
  }

  /** The post filters, in the order they are added: section, then group. */
  function PostFilters(req: SearchRequest): seq<Filter> {
    (if !IsNullOrEmpty(req.section) then [Term("section", req.section.value)] else []) +
    (if req.group.Some? then [Term("group", req.group.value)] else [])
  }

  /** A single filter stands alone; any other number is wrapped in a bool filter. */
  function Conjunction(filters: seq<Filter>): Filter {
    if |filters| == 1 then filters[0] else BoolMust(filters)
  }

  function PostFilter(req: SearchRequest): Option<Filter> {
    var filters := PostFilters(req);
    if filters == [] then None else Some(Conjunction(filters))
  }

  /** The sections facet is never filtered; the groups facet is scoped to a chosen section. */
  function Facets(req: SearchRequest): seq<Facet> {
    [TermsFacet("sections", "section", None),
     TermsFacet("groups", "group",
       if !IsNullOrEmpty(req.section) then Some(Term("section", req.section.value)) else None)]
  }

  function HighlightFields(): seq<HighlightField> {
    [HighlightField("title", Some(0), None, None),
     HighlightField("topic_title", Some(0), None, None),
     HighlightField("message", Some(1), Some(MessageFragment), Some(MessageFragment))]
  }

  const HighlightEncoder: string := "html"
  const HighlightPreTag: string := "<em class=search-hl>"
  const HighlightPostTag: string := "</em>"

  /** The plan built for a request, given the index's answer to validation. */
  function Plan(req: SearchRequest, validator: Query -> bool): SearchPlan {
    SearchPlan(
      query := Some(RootQuery(req, validator)),
      size := Some(SearchRows),
      from := Some(req.offset),
      postFilter := PostFilter(req),
      facets := Facets(req),
      sorts := [Sort(req.sort.Column(), req.sort.Order())],
      highlightedFields := HighlightFields(),
      encoder := Some(HighlightEncoder),
      preTags := [HighlightPreTag],
      postTags := [HighlightPostTag])
  }

  class SearchViewer {
    const query: SearchRequest

    constructor (query: SearchRequest)
      ensures this.query == query
    {
      this.query := query;
    }

    /**
     * Builds the search request step by step and returns it instead of executing it.
     * `validator` is the index's answer to the validate call.
     */
    method PerformSearch(validator: Query -> bool) returns (plan: SearchPlan)
      ensures plan == Plan(query, validator)
    {
      var request := new SearchRequestBuilder();

      var esQuery := ProcessQueryString(validator, query.q);

      request.SetSize(SearchRows);
      request.SetFrom(query.offset);

      SetRootQuery(request, esQuery);
      ghost var queried := SearchPlan(Some(RootQuery(query, validator)), Some(SearchRows),
                                      Some(query.offset), None, [], [], [], None, [], []);
      assert request.source == queried;

      AddPostFiltersAndFacets(request);
      ghost var filtered := queried.(postFilter := PostFilter(query), facets := Facets(query));
      assert request.source == filtered;

      request.AddSort(query.sort.Column(), query.sort.Order());

      SetupHighlight(request);

      plan := request.source;
    }

    /**
     * Sets the root query: the primary clause, filtered by the mandatory filter when it has
     * clauses, wrapped in the booster either way.
     */
    method SetRootQuery(request: SearchRequestBuilder, esQuery: Query)
      modifies request
      ensures request.source == old(request.source).(query := Some(
        if MandatoryFilters(query) == [] then Boost(esQuery)
        else Boost(Filtered(esQuery, BoolMust(MandatoryFilters(query))))))
    {
      var queryFilter := QueryFilter();

      if !queryFilter.HasClauses() {
        request.SetQuery(Boost(esQuery));
      } else {
        var rootQuery := Filtered(esQuery, queryFilter.Build());
        request.SetQuery(Boost(rootQuery));
      }
    }

    /**
     * Collects the section and group post filters and sets their conjunction, if there is any;
     * adds the sections facet and the groups facet, scoped to a chosen section.
     */
    method AddPostFiltersAndFacets(request: SearchRequestBuilder)
      modifies request
      ensures request.source == old(request.source).(
        facets := old(request.source.facets) + Facets(query),
        postFilter := if PostFilter(query).Some? then PostFilter(query)
                      else old(request.source.postFilter))
    {
      var section := query.section;
      var postFilters: seq<Filter> := [];

      if !IsNullOrEmpty(section) {
        postFilters := postFilters + [Term("section", query.section.value)];
      }

      request.AddFacet(TermsFacet("sections", "section", None));

      var groupFacet := TermsFacet("groups", "group", None);

      if !IsNullOrEmpty(section) {
        groupFacet := groupFacet.(facetFilter := Some(Term("section", query.section.value)));
      }

      request.AddFacet(groupFacet);
      assert request.source.facets == old(request.source.facets) + Facets(query);

      if query.group.Some? {
        postFilters := postFilters + [Term("group", query.group.value)];
      }
      assert postFilters == PostFilters(query);

      if postFilters != [] {
        var postFilter := AndFilters(postFilters);
        request.SetPostFilter(postFilter);
      }
    }

    /** The mandatory bool filter: range, then interval, then user, each only when set. */
    method QueryFilter() returns (queryFilter: BoolFilterBuilder)
      ensures fresh(queryFilter)
      ensures queryFilter.clauses == MandatoryFilters(query)
    {
      queryFilter := new BoolFilterBuilder();

      if query.range.Value().Some? {
        queryFilter.Must(Term(query.range.Column(), query.range.Value().value));
      }

      if query.interval.Range().Some? {
        queryFilter.Must(RangeFrom(query.interval.Column(), query.interval.Range().value));
      }

      if query.user.Some? {
        var user := query.user.value;
        if query.usertopic {
          queryFilter.Must(Term("topic_author", user.nick));
        } else {
          queryFilter.Must(Term("author", user.nick));
        }
      }
    }

    /**
     * Combines the post filters: a single filter is used as it is, otherwise every filter
     * becomes a clause of one bool filter. Either way the result admits exactly the documents
     * every filter admits.
     */
    static method AndFilters(filters: seq<Filter>) returns (r: Filter)
      ensures r == Conjunction(filters)
      ensures forall d :: Matches(r, d) <==> forall f :: f in filters ==> Matches(f, d)
    {
      if |filters| == 1 {
        r := filters[0];
      } else {
        var postRoot := new BoolFilterBuilder();
        for i := 0 to |filters|
          invariant postRoot.clauses == filters[..i]
        {
          postRoot.Must(filters[i]);
        }
        assert filters[..|filters|] == filters;
        r := postRoot.Build();
      }
    }

    /** Declares the highlighted fields and the markup around highlighted spans. */
    static method SetupHighlight(request: SearchRequestBuilder)
      modifies request
      ensures request.source == old(request.source).(
        highlightedFields := old(request.source.highlightedFields) + HighlightFields(),
        encoder := Some(HighlightEncoder),
        preTags := [HighlightPreTag],
        postTags := [HighlightPostTag])
    {
      request.AddHighlightedField(HighlightField("title", Some(0), None, None));
      request.AddHighlightedField(HighlightField("topic_title", Some(0), None, None));
      request.AddHighlightedField(
        HighlightField("message", Some(1), Some(MessageFragment), Some(MessageFragment)));
      request.SetHighlighterEncoder(HighlightEncoder);
      request.SetHighlighterPreTags([HighlightPreTag]);
      request.SetHighlighterPostTags([HighlightPostTag]);
    }
  }
}
