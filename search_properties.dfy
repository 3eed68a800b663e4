/**
 * What the search plan promises: which mandatory filter each request setting contributes, which
 * documents the root query then admits and how they are rescored, how post filters and facets
 * are scoped, and the fixed sort, paging and highlighting settings.
 */
module SearchProperties {
  import opened Optional
  import opened QueryEscape
  import opened EsQuery
  import opened Search

  /** A term or range filter on `field`. */
  predicate IsOn(f: Filter, field: string) {
    (f.Term? || f.RangeFrom?) && f.field == field
  }

  /** The filters of `fs` on `field`, in order. */
  function FiltersOn(fs: seq<Filter>, field: string): (r: seq<Filter>)
    ensures |r| <= |fs|
    ensures forall f :: f in r ==> f in fs && IsOn(f, field)
  {
    if fs == [] then []
    else (if IsOn(fs[0], field) then [fs[0]] else []) + FiltersOn(fs[1..], field)
  }

  lemma {:induction false} FiltersOnAppend(a: seq<Filter>, b: seq<Filter>, field: string)
    ensures FiltersOn(a + b, field) == FiltersOn(a, field) + FiltersOn(b, field)
  {
    if a == [] {
      assert a + b == b;
    } else {
      assert (a + b)[0] == a[0];
      assert (a + b)[1..] == a[1..] + b;
      FiltersOnAppend(a[1..], b, field);
    }
  }

  lemma FiltersOnToSeq(o: Option<Filter>, field: string)
    ensures FiltersOn(ToSeq(o), field) == if o.Some? && IsOn(o.value, field) then [o.value] else []
  {
    if o.Some? {
      assert [o.value][1..] == [];
    }
  }

  /** The mandatory filters on a field are those of range, interval and user, in that order. */
  lemma MandatoryFiltersOn(req: SearchRequest, field: string)
    ensures FiltersOn(MandatoryFilters(req), field) ==
            ToSeq(if RangeFilter(req.range).Some? && IsOn(RangeFilter(req.range).value, field)
                  then RangeFilter(req.range) else None) +
            ToSeq(if IntervalFilter(req.interval).Some? &&
                     IsOn(IntervalFilter(req.interval).value, field)
                  then IntervalFilter(req.interval) else None) +
            ToSeq(if UserFilter(req.user, req.usertopic).Some? &&
                     IsOn(UserFilter(req.user, req.usertopic).value, field)
                  then UserFilter(req.user, req.usertopic) else None)
  {
    var a, b, c := ToSeq(RangeFilter(req.range)), ToSeq(IntervalFilter(req.interval)),
                   ToSeq(UserFilter(req.user, req.usertopic));
    FiltersOnAppend(a + b, c, field);
    FiltersOnAppend(a, b, field);
    FiltersOnToSeq(RangeFilter(req.range), field);
    FiltersOnToSeq(IntervalFilter(req.interval), field);
    FiltersOnToSeq(UserFilter(req.user, req.usertopic), field);
  }

  /** Range `All` adds no `is_comment` filter; the other two add exactly one, with their value. */
  lemma RangeFilterExactly(req: SearchRequest)
    ensures FiltersOn(MandatoryFilters(req), "is_comment") ==
            match req.range
            case All => []
            case Topics => [Term("is_comment", "false")]
            case Comments => [Term("is_comment", "true")]
  {
    MandatoryFiltersOn(req, "is_comment");
  }

  /** Interval `All` adds no date filter; each other interval adds exactly one lower bound. */
  lemma IntervalFilterExactly(req: SearchRequest)
    ensures FiltersOn(MandatoryFilters(req), "postdate") ==
            match req.interval
            case Month => [RangeFrom("postdate", "now/h-1M")]
            case ThreeMonth => [RangeFrom("postdate", "now/d-3M")]
            case Year => [RangeFrom("postdate", "now/d-1y")]
            case ThreeYear => [RangeFrom("postdate", "now/w-3y")]
            case All => []
  {
    MandatoryFiltersOn(req, "postdate");
  }

  /** A user adds exactly one term filter on the user's nick: on `topic_author` when the
    * usertopic flag is set, on `author` otherwise. No user, no filter. */
  lemma UserFilterExactly(req: SearchRequest)
    ensures FiltersOn(MandatoryFilters(req), "topic_author") ==
            if req.user.Some? && req.usertopic then [Term("topic_author", req.user.value.nick)]
            else []
    ensures FiltersOn(MandatoryFilters(req), "author") ==
            if req.user.Some? && !req.usertopic then [Term("author", req.user.value.nick)]
            else []
  {
    MandatoryFiltersOn(req, "topic_author");
    MandatoryFiltersOn(req, "author");
  }

  /** There are no other mandatory filters: one per setting that is not `All` or absent. */
  lemma MandatoryFiltersOnly(req: SearchRequest)
    ensures |MandatoryFilters(req)| ==
            (if req.range != SearchRange.All then 1 else 0) +
            (if req.interval != SearchInterval.All then 1 else 0) +
            (if req.user.Some? then 1 else 0)
    ensures forall f :: f in MandatoryFilters(req) ==>
              IsOn(f, "is_comment") || IsOn(f, "postdate") ||
              IsOn(f, "topic_author") || IsOn(f, "author")
  {
  }

  predicate RangeAdmits(range: SearchRange, d: Doc) {
    match range
    case All => true
    case Topics => HasTerm(d, "is_comment", "false")
    case Comments => HasTerm(d, "is_comment", "true")
  }

  predicate IntervalAdmits(interval: SearchInterval, d: Doc) {
    match interval
    case Month => ("postdate", "now/h-1M") in d.reaches
    case ThreeMonth => ("postdate", "now/d-3M") in d.reaches
    case Year => ("postdate", "now/d-1y") in d.reaches
    case ThreeYear => ("postdate", "now/w-3y") in d.reaches
    case All => true
  }

  predicate UserAdmits(user: Option<User>, usertopic: bool, d: Doc) {
    user.None? || HasTerm(d, if usertopic then "topic_author" else "author", user.value.nick)
  }

  lemma {:induction false} AllMatchAppend(a: seq<Filter>, b: seq<Filter>, d: Doc)
    ensures (forall f :: f in a + b ==> Matches(f, d)) <==>
            (forall f :: f in a ==> Matches(f, d)) && (forall f :: f in b ==> Matches(f, d))
  {
    assert forall f :: f in a + b <==> f in a || f in b;
  }

  lemma AllMatchToSeq(o: Option<Filter>, d: Doc)
    ensures (forall f :: f in ToSeq(o) ==> Matches(f, d)) <==> o.None? || Matches(o.value, d)
  {
    if o.Some? {
      assert forall f :: f in ToSeq(o) <==> f == o.value;
    }
  }

  /** A document passes the mandatory filters exactly when it passes the range, the interval
    * and the user condition of the request. */
  lemma MandatoryFiltersAdmit(req: SearchRequest, d: Doc)
    ensures (forall f :: f in MandatoryFilters(req) ==> Matches(f, d)) <==>
            RangeAdmits(req.range, d) && IntervalAdmits(req.interval, d) &&
            UserAdmits(req.user, req.usertopic, d)
  {
    var a, b, c := ToSeq(RangeFilter(req.range)), ToSeq(IntervalFilter(req.interval)),
                   ToSeq(UserFilter(req.user, req.usertopic));
    AllMatchAppend(a + b, c, d);
    AllMatchAppend(a, b, d);
    AllMatchToSeq(RangeFilter(req.range), d);
    AllMatchToSeq(IntervalFilter(req.interval), d);
    AllMatchToSeq(UserFilter(req.user, req.usertopic), d);
  }

  /**
   * The root query admits a document exactly when the primary clause matches it and it passes
   * every mandatory condition; with no mandatory filter, the primary clause decides alone.
   * Boosting never changes which documents are admitted.
   */
  lemma RootQueryAdmits(req: SearchRequest, validator: Query -> bool, d: Doc,
                        textMatch: (Query, Doc) -> bool)
    ensures Admits(RootQuery(req, validator), d, textMatch) <==>
            textMatch(ProcessQueryString(validator, req.q), d) &&
            RangeAdmits(req.range, d) && IntervalAdmits(req.interval, d) &&
            UserAdmits(req.user, req.usertopic, d)
  {
    var primary := ProcessQueryString(validator, req.q);
    var mandatory := MandatoryFilters(req);
    MandatoryFiltersAdmit(req, d);
    assert Admits(primary, d, textMatch) == textMatch(primary, d);
    if mandatory != [] {
      assert Matches(BoolMust(mandatory), d) <==> forall f :: f in mandatory ==> Matches(f, d);
    }
  }

  /**
   * The booster is the outermost wrapper of the root query and occurs exactly once; it wraps
   * the primary clause, filtered by the mandatory filters when there are any; it carries exactly
   * two factor functions, topics ×3 and the last three years ×2.
   */
  lemma BoostOutermost(req: SearchRequest, validator: Query -> bool)
    ensures var root := RootQuery(req, validator);
            var primary := ProcessQueryString(validator, req.q);
            root.FunctionScore? && BoostCount(root) == 1 &&
            root.functions == [Factor(Term("is_comment", "false"), 3),
                               Factor(RangeFrom("postdate", "now/d-3y"), 2)] &&
            (MandatoryFilters(req) == [] ==> root.query == primary) &&
            (MandatoryFilters(req) != [] ==>
               root.query == Filtered(primary, BoolMust(MandatoryFilters(req))))
  {
    var primary := ProcessQueryString(validator, req.q);
    assert BoostCount(primary) == 0;
    assert BoostCount(Filtered(primary, BoolMust(MandatoryFilters(req)))) == 0;
  }

  /** The booster multiplies the score of a topic by 3 and of a recent document by 2: a recent
    * topic gets 6. */
  lemma BoostFactors(d: Doc)
    ensures Multiplier(BoostFunctions(), d) ==
            (if HasTerm(d, "is_comment", "false") then 3 else 1) *
            (if ("postdate", "now/d-3y") in d.reaches then 2 else 1)
  {
    var fs := BoostFunctions();
    assert fs[1..][1..] == [];
    assert Multiplier(fs[1..], d) == if ("postdate", "now/d-3y") in d.reaches then 2 else 1;
  }

  /**
   * The section post filter is there exactly when the section is neither null nor empty, the
   * group post filter exactly when the group is not null (an empty group still counts); section
   * comes first and there is nothing else.
   */
  lemma PostFiltersExactly(req: SearchRequest)
    ensures FiltersOn(PostFilters(req), "section") ==
            if !IsNullOrEmpty(req.section) then [Term("section", req.section.value)] else []
    ensures FiltersOn(PostFilters(req), "group") ==
            if req.group.Some? then [Term("group", req.group.value)] else []
    ensures PostFilters(req) ==
            FiltersOn(PostFilters(req), "section") + FiltersOn(PostFilters(req), "group")
  {
    var a := if !IsNullOrEmpty(req.section) then [Term("section", req.section.value)] else [];
    var b := if req.group.Some? then [Term("group", req.group.value)] else [];
    FiltersOnAppend(a, b, "section");
    FiltersOnAppend(a, b, "group");
  }

  /** A single filter is used directly, several are wrapped in one bool filter; either way the
    * result admits exactly what every filter admits. */
  lemma ConjunctionAdmits(filters: seq<Filter>, d: Doc)
    ensures |filters| == 1 ==> Conjunction(filters) == filters[0]
    ensures |filters| != 1 ==> Conjunction(filters) == BoolMust(filters)
    ensures Matches(Conjunction(filters), d) <==> forall f :: f in filters ==> Matches(f, d)
  {
    if |filters| == 1 {
      assert forall f :: f in filters <==> f == filters[0];
    }
  }

  /** No post filter is set when there is neither a section nor a group; otherwise the post
    * filter admits exactly the documents in the requested section and group. */
  lemma PostFilterAdmits(req: SearchRequest, d: Doc)
    ensures PostFilter(req).None? <==> IsNullOrEmpty(req.section) && req.group.None?
    ensures PostFilter(req).Some? ==>
            (Matches(PostFilter(req).value, d) <==>
               (IsNullOrEmpty(req.section) || HasTerm(d, "section", req.section.value)) &&
               (req.group.None? || HasTerm(d, "group", req.group.value)))
  {
    var filters := PostFilters(req);
    ConjunctionAdmits(filters, d);
    var sectionFilter :=
      if !IsNullOrEmpty(req.section) then Some(Term("section", req.section.value)) else None;
    var groupFilter := if req.group.Some? then Some(Term("group", req.group.value)) else None;
    assert filters == ToSeq(sectionFilter) + ToSeq(groupFilter);
    AllMatchAppend(ToSeq(sectionFilter), ToSeq(groupFilter), d);
    AllMatchToSeq(sectionFilter, d);
    AllMatchToSeq(groupFilter, d);
  }

  /**
   * The sections facet on `section` never has a facet filter; the groups facet on `group` has a
   * `section` term filter exactly when a non-empty section is requested. Neither is scoped by
   * the group post filter.
   */
  lemma FacetScoping(req: SearchRequest, validator: Query -> bool)
    ensures var facets := Plan(req, validator).facets;
            |facets| == 2 &&
            facets[0] == TermsFacet("sections", "section", None) &&
            facets[1].name == "groups" && facets[1].field == "group" &&
            (facets[1].facetFilter.Some? <==> !IsNullOrEmpty(req.section)) &&
            (facets[1].facetFilter.Some? ==>
               facets[1].facetFilter.value == Term("section", req.section.value) &&
               facets[1].facetFilter.value in PostFilters(req))
  {
  }

  /** Exactly one sort: by score descending, by date newest first, or by date oldest first. */
  lemma SortBy(req: SearchRequest, validator: Query -> bool)
    ensures Plan(req, validator).sorts ==
            match req.sort
            case Relevance => [Sort("_score", Desc)]
            case Date => [Sort("postdate", Desc)]
            case DateOldToNew => [Sort("postdate", Asc)]
  {
  }

  /** A page is 50 rows, starting at the request's offset. */
  lemma Paging(req: SearchRequest, validator: Query -> bool)
    ensures Plan(req, validator).size == Some(50)
    ensures Plan(req, validator).from == Some(req.offset)
  {
  }

  /**
   * Titles are highlighted whole (0 fragments, sizes left at the client's default); the message as one 250-character fragment, with
   * 250 characters returned when nothing matched; markup is HTML-encoded `<em class=search-hl>`.
   */
  lemma HighlightSettings(req: SearchRequest, validator: Query -> bool)
    ensures var p := Plan(req, validator);
            |p.highlightedFields| == 3 &&
            p.highlightedFields[0] == HighlightField("title", Some(0), None, None) &&
            p.highlightedFields[1] == HighlightField("topic_title", Some(0), None, None) &&
            p.highlightedFields[2] == HighlightField("message", Some(1), Some(250), Some(250)) &&
            p.encoder == Some("html") &&
            p.preTags == ["<em class=search-hl>"] && p.postTags == ["</em>"]
  {
  }

  /** When the index rejects the escaped candidate for `a[b` (whose bracket it escaped to
    * `a\[b`), the primary clause falls back to a phrase match over the literal `a[b`. */
  lemma UnbalancedBracketFallsBack(validator: Query -> bool)
    requires !validator(Candidate("a[b"))
    ensures Candidate("a[b").text == "a\\[b"
    ensures ProcessQueryString(validator, "a[b") == MatchPhrase("_all", "a[b", true)
  {
    EscapeSplit("a[b", 1);
    assert "a[b"[..1] == "a" && "a[b"[2..] == "b";
    EscapeIdentity("a");
    EscapeIdentity("b");
  }
}
