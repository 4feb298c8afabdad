/**
 * The two task tools that shape their requests and responses: `count_tasks`, which
 * asks for one record and estimates the total from the `links.last` URL, and
 * `list_tasks`, which clamps the page size and summarises the fetched page.
 *
 * The HTTP GET between building the query parameters and reading the response is
 * not modelled: each tool takes the fetched document as an input and returns the
 * query parameters it would send beside its result.
 */
module TaskTools {
  import opened Wrappers
  import opened Json
  import opened PageLink
  import opened TaskSummaries
  import opened NumberText

  /** Page size assumed when turning a page count into a record count. */
  const AssumedPageSize: nat := 30
  /** Largest page size `list_tasks` will request. */
  const MaxPageSize: int := 20
  /** The fixed advice: at most this many pages ... */
  const RecommendedPages: nat := 3
  /** ... of this size. */
  const RecommendedPageSize: nat := 10

  const PageNumberKey: string := "page[number]"
  const PageSizeKey: string := "page[size]"
  const ProjectFilterKey: string := "filter[project_id]"
  const AssigneeFilterKey: string := "filter[assignee_id]"
  const ClosedFilterKey: string := "filter[closed]"

  const FilterKeys: set<string> := {ProjectFilterKey, AssigneeFilterKey, ClosedFilterKey}

  /** A query-parameter value: the page numbers are ints, the filters strings. */
  datatype ParamValue = IntParam(n: int) | StrParam(s: string)

  type Params = map<string, ParamValue>

  /** The optional filter arguments shared by both tools. */
  datatype Filters = Filters(projectId: Option<string>, assigneeId: Option<string>, closed: Option<bool>)

  /** Every filter argument left at its default, None. */
  const NoFilters: Filters := Filters(None, None, None)

  /** The defaults of `list_tasks`' paging arguments. */
  const DefaultPage: int := 1
  const DefaultPageSize: int := 10

  /** An optional string argument is used only when it is truthy: given and non-empty. */
  predicate IsGiven(id: Option<string>)
  {
    id.Some? && id.value != ""
  }

  /** `str(b).lower()` */
  function BoolText(b: bool): string
  {
    if b then "true" else "false"
  }

  /** The filter keys a request carries for the given arguments. */
  function ActiveFilterKeys(filters: Filters): (keys: set<string>)
    ensures keys <= FilterKeys
    ensures ProjectFilterKey in keys <==> IsGiven(filters.projectId)
    ensures AssigneeFilterKey in keys <==> IsGiven(filters.assigneeId)
    ensures ClosedFilterKey in keys <==> filters.closed.Some?
  {
    (if IsGiven(filters.projectId) then {ProjectFilterKey} else {})
    + (if IsGiven(filters.assigneeId) then {AssigneeFilterKey} else {})
    + (if filters.closed.Some? then {ClosedFilterKey} else {})
  }

  /** The filter entries of `params` are exactly those the arguments ask for. */
  predicate CarriesFilters(params: Params, filters: Filters)
  {
    && (ProjectFilterKey in params <==> IsGiven(filters.projectId))
    && (IsGiven(filters.projectId) ==> params[ProjectFilterKey] == StrParam(filters.projectId.value))
    && (AssigneeFilterKey in params <==> IsGiven(filters.assigneeId))
    && (IsGiven(filters.assigneeId) ==> params[AssigneeFilterKey] == StrParam(filters.assigneeId.value))
    && (ClosedFilterKey in params <==> filters.closed.Some?)
    && (filters.closed.Some? ==> params[ClosedFilterKey] == StrParam(BoolText(filters.closed.value)))
  }

  /**
   * The three conditional inserts both tools make into their `params` dict,
   * starting from a dict that holds only the paging entries.
   */
  method AddFilters(params: Params, filters: Filters) returns (out: Params)
    requires params.Keys !! FilterKeys
    ensures out.Keys == params.Keys + ActiveFilterKeys(filters)
    ensures forall k :: k in params ==> out[k] == params[k]
    ensures CarriesFilters(out, filters)
  {
    out := params;
    if IsGiven(filters.projectId) {
      out := out[ProjectFilterKey := StrParam(filters.projectId.value)];
    }
    if IsGiven(filters.assigneeId) {
      out := out[AssigneeFilterKey := StrParam(filters.assigneeId.value)];
    }
    if filters.closed.Some? {
      out := out[ClosedFilterKey := StrParam(BoolText(filters.closed.value))];
    }
  }

  /** The advice `count_tasks` gives: request pages `firstPage`-`lastPage` of `pageSize`. */
  datatype Recommendation = Recommendation(approximateTotal: nat, firstPage: nat, lastPage: nat, pageSize: nat)
  {
    /** The sentence's pieces: fixed text with the four numbers, written by `str`, between. */
    function Pieces(): seq<string>
    {
      [TextOpening, DecimalString(approximateTotal), TextMiddle, DecimalString(firstPage), "-",
       DecimalString(lastPage), TextSizeLabel, DecimalString(pageSize), TextClosing]
    }

    /** The sentence the tool returns. */
    function Text(): string
    {
      Join(Pieces())
    }
  }

  const TextOpening: string := "Approximately "
  const TextMiddle: string := " tasks found. Recommend requesting pages "
  const TextSizeLabel: string := " with page_size="
  const TextClosing: string := " to stay under token limits."

  /**
   * Each of the four numbers in the advice can be read back from the sentence:
   * the digit run at its place is the decimal form of that number and nothing more.
   */
  lemma RecommendationTextNumbers(rec: Recommendation)
    ensures Offset(rec.Pieces(), 1) <= |rec.Text()| &&
            DecimalValue(DigitRun(rec.Text(), Offset(rec.Pieces(), 1))) == rec.approximateTotal
    ensures Offset(rec.Pieces(), 3) <= |rec.Text()| &&
            DecimalValue(DigitRun(rec.Text(), Offset(rec.Pieces(), 3))) == rec.firstPage
    ensures Offset(rec.Pieces(), 5) <= |rec.Text()| &&
            DecimalValue(DigitRun(rec.Text(), Offset(rec.Pieces(), 5))) == rec.lastPage
    ensures Offset(rec.Pieces(), 7) <= |rec.Text()| &&
            DecimalValue(DigitRun(rec.Text(), Offset(rec.Pieces(), 7))) == rec.pageSize
  {
    var pieces := rec.Pieces();
    assert Separates(pieces[2]) && Separates(pieces[4]) && Separates(pieces[6]) && Separates(pieces[8]);
    PieceDelimited(pieces, 1);
    DecimalReadsBack(rec.Text(), Offset(pieces, 1), rec.approximateTotal);
    PieceDelimited(pieces, 3);
    DecimalReadsBack(rec.Text(), Offset(pieces, 3), rec.firstPage);
    PieceDelimited(pieces, 5);
    DecimalReadsBack(rec.Text(), Offset(pieces, 5), rec.lastPage);
    PieceDelimited(pieces, 7);
    DecimalReadsBack(rec.Text(), Offset(pieces, 7), rec.pageSize);
  }

  /** Advice for `total` records over `pages` pages: the first min(3, pages) pages of 10. */
  function Recommend(total: nat, pages: nat): (rec: Recommendation)
    ensures rec.approximateTotal == total
    ensures rec.firstPage == 1 && rec.pageSize == RecommendedPageSize
    ensures rec.lastPage <= RecommendedPages && rec.lastPage <= pages
    ensures rec.lastPage == RecommendedPages || rec.lastPage == pages
  {
    Recommendation(total, 1, if pages < RecommendedPages then pages else RecommendedPages, RecommendedPageSize)
  }

  /** The `count_tasks` result. */
  datatype CountInfo = CountInfo(estimatedTotal: nat, estimatedPages: nat, recommendation: Recommendation)

  /** `result.get("links", {}).get("last", "")`, raising where the source raises. */
  function LastLink(document: Json): Result<Json, ShapeError>
  {
    if !document.JObj? then Err(DocumentNotObject)
    else match LinksOf(document.fields)
      case Err(e) => Err(e)
      case Ok(links) => Ok(Get(links, "last", JStr("")))
  }

  /** The `links.last` value holds a URL in which the page-number pattern matches. */
  predicate HasPageNumber(last: Json)
  {
    last.JStr? && PageNumberIn(last.s).Some?
  }

  /**
   * `count_tasks`: request page 1 of size 1 with the filters, then estimate the
   * number of pages from the fetched `links.last` (1 when there is no usable
   * link) and the number of tasks as 30 per page. `fetched` is the document the
   * request returns; the filter arguments default to None, as in the source.
   */
  method CountTasks(fetched: Json, filters: Filters := NoFilters) returns (params: Params, r: Result<CountInfo, ShapeError>)
    ensures params.Keys == {PageNumberKey, PageSizeKey} + ActiveFilterKeys(filters)
    ensures params[PageNumberKey] == IntParam(1) && params[PageSizeKey] == IntParam(1)
    ensures CarriesFilters(params, filters)
    ensures LastLink(fetched).Err? ==> r == Err(LastLink(fetched).error)
    ensures LastLink(fetched).Ok? ==>
              (r.Err? <==> Truthy(LastLink(fetched).value) && !LastLink(fetched).value.JStr?)
    ensures r.Err? ==> r.error in {DocumentNotObject, LinksNotObject, LastLinkNotString}
    ensures r.Ok? && LastLink(fetched).Ok? && HasPageNumber(LastLink(fetched).value) ==>
              r.value.estimatedPages == PageNumberIn(LastLink(fetched).value.s).value
    ensures r.Ok? && LastLink(fetched).Ok? && !HasPageNumber(LastLink(fetched).value) ==>
              r.value.estimatedPages == 1
    ensures r.Ok? ==> r.value.estimatedTotal == AssumedPageSize * r.value.estimatedPages
    ensures r.Ok? ==> r.value.recommendation == Recommend(r.value.estimatedTotal, r.value.estimatedPages)
  {
    params := map[PageNumberKey := IntParam(1), PageSizeKey := IntParam(1)];
    params := AddFilters(params, filters);

    if !fetched.JObj? {
      return params, Err(DocumentNotObject);
    }
    var links := Get(fetched.fields, "links", EmptyObject);
    if !links.JObj? {
      return params, Err(LinksNotObject);
    }
    var lastLink := Get(links.fields, "last", JStr(""));
    var totalPages: nat := 1;
    if Truthy(lastLink) {
      if !lastLink.JStr? {
        return params, Err(LastLinkNotString);
      }
      var found := PageNumberIn(lastLink.s);
      if found.Some? {
        totalPages := found.value;
      }
    } else {
      assert !HasPageNumber(lastLink);
    }
    var estimatedTotal := totalPages * AssumedPageSize;
    r := Ok(CountInfo(estimatedTotal, totalPages, Recommend(estimatedTotal, totalPages)));
  }

  /**
   * `list_tasks`: clamp the page size to at most 20, request that page with the
   * filters, and summarise what comes back. `fetched` is the document the request
   * returns; unspecified arguments take the source's defaults (no filters, page 1,
   * page size 10).
   */
  method ListTasks(fetched: Json, filters: Filters := NoFilters, page: int := DefaultPage, pageSize: int := DefaultPageSize)
    returns (params: Params, r: Result<TaskList, ShapeError>)
    ensures params.Keys == {PageNumberKey, PageSizeKey} + ActiveFilterKeys(filters)
    ensures params[PageNumberKey] == IntParam(page)
    ensures params[PageSizeKey].IntParam?
    ensures params[PageSizeKey].n <= MaxPageSize && params[PageSizeKey].n <= pageSize
    ensures params[PageSizeKey].n == pageSize || params[PageSizeKey].n == MaxPageSize
    ensures CarriesFilters(params, filters)
    ensures r == Summarize(fetched)
  {
    var size := if pageSize < MaxPageSize then pageSize else MaxPageSize;
    params := map[PageNumberKey := IntParam(page), PageSizeKey := IntParam(size)];
    params := AddFilters(params, filters);
    r := SummarizeTasks(fetched);
  }

  /** A string shorter than the pattern's shortest match holds no page number. */
  lemma NoPageNumberInShort(s: string)
    requires |s| <= |Marker|
    ensures PageNumberIn(s) == None
  {
  }

  /** A short query prefix followed by `page[number]=` and `str(n)` yields `n`. */
  lemma PageNumberAfterShortPrefix(prefix: string, n: nat, link: string)
    requires |prefix| <= |Marker| && link == prefix + Marker + DecimalString(n)
    ensures PageNumberIn(link) == Some(n)
  {
    NoPageNumberInShort(prefix);
    PageNumberOfEncodedLink(prefix, n, "");
    assert link == prefix + Marker + DecimalString(n) + "";
  }

  /** A last-page link to page 5 is read as 5 pages. */
  lemma LastLinkToPageFive()
    ensures PageNumberIn(".../tasks?page[number]=5") == Some(5)
  {
    assert DecimalString(5) == "5";
    PageNumberAfterShortPrefix(".../tasks?", 5, ".../tasks?page[number]=5");
  }

  /** Five pages give an estimate of 150 tasks and the advice to request pages 1-3 of 10. */
  lemma AdviceForFivePages()
    ensures Recommend(AssumedPageSize * 5, 5) == Recommendation(150, 1, 3, 10)
    ensures Recommend(AssumedPageSize * 5, 5).Text() ==
      Join([TextOpening, "150", TextMiddle, "1", "-", "3", TextSizeLabel, "10", TextClosing])
  {
    assert DecimalString(15) == "15";
    assert DecimalString(150) == "150";
    assert DecimalString(3) == "3" && DecimalString(10) == "10";
  }

  /**
   * `count_tasks` on a response whose last-page link points at page 5: 5 pages,
   * 150 tasks, and the advice to request pages 1-3 of 10.
   */
  method CountTasksForFivePages() returns (info: CountInfo)
    ensures info == CountInfo(150, 5, Recommendation(150, 1, 3, 10))
  {
    var link := ".../tasks?page[number]=5";
    var fetched := JObj(map["links" := JObj(map["last" := JStr(link)])]);
    assert LastLink(fetched) == Ok(JStr(link));
    LastLinkToPageFive();
    var _, r := CountTasks(fetched);
    info := r.value;
  }

  /** A last-page link to page 0 is taken at its word: 0 pages, not the fallback 1. */
  lemma LastLinkToPageZero()
    ensures PageNumberIn("?page[number]=0") == Some(0)
  {
    assert DecimalString(0) == "0";
    PageNumberAfterShortPrefix("?", 0, "?page[number]=0");
  }

  /** `count_tasks` on a last-page link to page 0: 0 pages and 0 tasks, with no fallback to 1. */
  method CountTasksForZeroPages() returns (info: CountInfo)
    ensures info == CountInfo(0, 0, Recommendation(0, 1, 0, 10))
  {
    var link := "?page[number]=0";
    var fetched := JObj(map["links" := JObj(map["last" := JStr(link)])]);
    assert LastLink(fetched) == Ok(JStr(link));
    LastLinkToPageZero();
    var _, r := CountTasks(fetched);
    info := r.value;
  }

  /** Zero pages give an estimate of 0 tasks and advice naming the empty range 1-0. */
  lemma AdviceForZeroPages()
    ensures Recommend(AssumedPageSize * 0, 0) == Recommendation(0, 1, 0, 10)
    ensures Recommend(AssumedPageSize * 0, 0).Text() ==
      Join([TextOpening, "0", TextMiddle, "1", "-", "0", TextSizeLabel, "10", TextClosing])
  {
    assert DecimalString(0) == "0" && DecimalString(1) == "1" && DecimalString(10) == "10";
  }
}
