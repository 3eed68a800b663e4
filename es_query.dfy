/**
 * The part of the Elasticsearch client's query language that the search core builds: filters,
 * queries, score functions, facets, sorts and highlighted fields, as values; what a filter and a
 * query admit, for a document; and the two mutable builders the core fills in step by step
 * (the bool filter and the search request).
 */
module EsQuery {
  import opened Optional

  datatype SortOrder = Asc | Desc

  datatype Filter =
    | Term(field: string, value: string)
      /** A range on `field` with an inclusive lower bound `lower` (date math) and no upper bound. */
    | RangeFrom(field: string, lower: string)
      /** A bool filter whose clauses must all match. */
    | BoolMust(clauses: seq<Filter>)

  /** A factor score function: multiplies the score by `factor` on the documents `filter` admits. */
  datatype ScoreFunction = Factor(filter: Filter, factor: nat)

  datatype Query =
    | QueryString(text: string, lenient: bool, minimumShouldMatch: string)
    | MatchPhrase(field: string, text: string, lenient: bool)
    | Filtered(query: Query, filter: Filter)
    | FunctionScore(query: Query, functions: seq<ScoreFunction>)

  /** A terms facet counting the values of `field`, optionally restricted by its own filter. */
  datatype Facet = TermsFacet(name: string, field: string, facetFilter: Option<Filter>)

  datatype Sort = Sort(field: string, order: SortOrder)

  /** A highlighted field; `None` stands for a setting left at the client's default. */
  datatype HighlightField = HighlightField(
    name: string,
    numOfFragments: Option<nat>,
    fragmentSize: Option<nat>,
    noMatchSize: Option<nat>)

  /** Everything a search request carries once it is built (and before it is executed). */
  datatype SearchPlan = SearchPlan(
    query: Option<Query>,
    size: Option<nat>,
    from: Option<nat>,
    postFilter: Option<Filter>,
    facets: seq<Facet>,
    sorts: seq<Sort>,
    highlightedFields: seq<HighlightField>,
    encoder: Option<string>,
    preTags: seq<string>,
    postTags: seq<string>)

  /**
   * An indexed document as far as filters can see it: the value of each term field, and the pairs
   * (date field, date-math bound) whose bound the document's date reaches. Date math itself is
   * not evaluated.
   */
  datatype Doc = Doc(terms: map<string, string>, reaches: set<(string, string)>)

  predicate HasTerm(d: Doc, field: string, value: string) {
    field in d.terms && d.terms[field] == value
  }

  /** Whether a filter admits a document. */
  predicate Matches(f: Filter, d: Doc) {
    match f
    case Term(field, value) => HasTerm(d, field, value)
    case RangeFrom(field, lower) => (field, lower) in d.reaches
    case BoolMust(clauses) => forall c :: c in clauses ==> Matches(c, d)
  }

  /** The product of the factors of the score functions whose filters admit the document. */
  function Multiplier(functions: seq<ScoreFunction>, d: Doc): nat {
    if functions == [] then 1
    else (if Matches(functions[0].filter, d) then functions[0].factor else 1)
         * Multiplier(functions[1..], d)
  }

  /**
   * Whether a query admits a document, given which free-text clauses match it; filtering
   * narrows, score functions only rescore.
   */
  predicate Admits(q: Query, d: Doc, textMatch: (Query, Doc) -> bool) {
    match q
    case QueryString(_, _, _) => textMatch(q, d)
    case MatchPhrase(_, _, _) => textMatch(q, d)
    case Filtered(inner, filter) => Admits(inner, d, textMatch) && Matches(filter, d)
    case FunctionScore(inner, _) => Admits(inner, d, textMatch)
  }

  /** How many function-score wrappers a query has, at any depth. */
  function BoostCount(q: Query): nat {
    match q
    case QueryString(_, _, _) => 0
    case MatchPhrase(_, _, _) => 0
    case Filtered(inner, _) => BoostCount(inner)
    case FunctionScore(inner, _) => 1 + BoostCount(inner)
  }

  /** The bool filter builder: `must` appends a clause. */
  class BoolFilterBuilder {
    var clauses: seq<Filter>

    constructor ()
      ensures clauses == []
    {
      clauses := [];
    }

    method Must(f: Filter)
      modifies this
      ensures clauses == old(clauses) + [f]
    {
      clauses := clauses + [f];
    }

    function HasClauses(): (b: bool)
      reads this
      ensures b <==> |clauses| > 0
    {
      clauses != []
    }

    /** The filter built so far: it admits a document exactly when every clause does. */
    function Build(): (f: Filter)
      reads this
      ensures f.BoolMust? && f.clauses == clauses
      ensures forall d :: Matches(f, d) <==> forall c :: c in clauses ==> Matches(c, d)
    {
      BoolMust(clauses)
    }
  }

  /**
   * The search request builder. It wraps the request source being built; setters replace a
   * setting, adders append to a list.
   */
  class SearchRequestBuilder {
    var source: SearchPlan

    constructor ()
      ensures source == SearchPlan(None, None, None, None, [], [], [], None, [], [])
    {
      source := SearchPlan(None, None, None, None, [], [], [], None, [], []);
    }

    method SetQuery(q: Query)
      modifies this
      ensures source == old(source).(query := Some(q))
    {
      source := source.(query := Some(q));
    }

    method SetSize(n: nat)
      modifies this
      ensures source == old(source).(size := Some(n))
    {
      source := source.(size := Some(n));
    }

    method SetFrom(n: nat)
      modifies this
      ensures source == old(source).(from := Some(n))
    {
      source := source.(from := Some(n));
    }

    method SetPostFilter(f: Filter)
      modifies this
      ensures source == old(source).(postFilter := Some(f))
    {
      source := source.(postFilter := Some(f));
    }

    method AddFacet(f: Facet)
      modifies this
      ensures source == old(source).(facets := old(source.facets) + [f])
    {
      source := source.(facets := source.facets + [f]);
    }

    method AddSort(field: string, order: SortOrder)
      modifies this
      ensures source == old(source).(sorts := old(source.sorts) + [Sort(field, order)])
    {
      source := source.(sorts := source.sorts + [Sort(field, order)]);
    }

    method AddHighlightedField(h: HighlightField)
      modifies this
      ensures source == old(source).(highlightedFields := old(source.highlightedFields) + [h])
    {
      source := source.(highlightedFields := source.highlightedFields + [h]);
    }

    method SetHighlighterEncoder(e: string)
      modifies this
      ensures source == old(source).(encoder := Some(e))
    {
      source := source.(encoder := Some(e));
    }

    method SetHighlighterPreTags(tags: seq<string>)
      modifies this
      ensures source == old(source).(preTags := tags)
    {
      source := source.(preTags := tags);
    }

    method SetHighlighterPostTags(tags: seq<string>)
      modifies this
      ensures source == old(source).(postTags := tags)
    {
      source := source.(postTags := tags);
    }
  }
}
