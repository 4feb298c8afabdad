/**
 * `summarize_tasks`: the projection of a fetched JSON:API task collection onto a
 * fixed seven-field record per task, plus the pagination flags read from `links`.
 *
 * The Python code calls `.get` on values it assumes to be dicts; where such a value
 * is not a dict the call raises and the whole tool call fails. Those shapes are the
 * ShapeError results below, so the model is total.
 */
module TaskSummaries {
  import opened Wrappers
  import opened Json

  /**
   * Where a tool call raises because a value has the wrong shape. `count_tasks` shares
   * this type: `LinksNotObject` and `LastLinkNotString` are its failures too, and
   * `LastLinkNotString` arises only there.
   */
  datatype ShapeError =
    | DocumentNotObject
    | ItemNotObject
    | AttributesNotObject
    | RelationshipsNotObject
    | RelationNotObject(relation: string)
    | RelationDataNotObject(relation: string)
    | LinksNotObject
    | LastLinkNotString

  /** The keys of one summarised task, always all present. */
  const TaskSummaryKeys: set<string> :=
    {"id", "title", "number", "closed", "due_date", "assignee_id", "project_id"}

  const Note: string := "Use get_task(task_id) for full task details"

  datatype TaskSummary = TaskSummary(
    id: Json,
    title: Json,
    number: Json,
    closed: Json,
    dueDate: Json,
    assigneeId: Json,
    projectId: Json)
  {
    /** The dict the tool serialises for this task. */
    function ToJson(): (r: Json)
      ensures r.JObj? && r.fields.Keys == TaskSummaryKeys
      ensures r.fields["id"] == id && r.fields["title"] == title && r.fields["number"] == number
      ensures r.fields["closed"] == closed && r.fields["due_date"] == dueDate
      ensures r.fields["assignee_id"] == assigneeId && r.fields["project_id"] == projectId
    {
      JObj(map[
        "id" := id, "title" := title, "number" := number, "closed" := closed,
        "due_date" := dueDate, "assignee_id" := assigneeId, "project_id" := projectId])
    }
  }

  datatype Pagination = Pagination(hasNext: bool, hasPrev: bool, nextPage: Json)

  datatype TaskList = TaskList(count: nat, tasks: seq<TaskSummary>, pagination: Pagination, note: string)

  /** The relationship `name` can be looked up without raising. */
  predicate RelationWellShaped(relationships: map<string, Json>, name: string)
  {
    name !in relationships
    || (relationships[name].JObj?
        && var data := Get(relationships[name].fields, "data", JNull);
        !Truthy(data) || data.JObj?)
  }

  /**
   * The id of the entity a relationship points at: `rel.get("data", {}).get("id")`
   * when `rel.get("data")` is truthy, otherwise None.
   */
  function RelationId(relationships: map<string, Json>, name: string): (r: Result<Json, ShapeError>)
    ensures r.Ok? <==> RelationWellShaped(relationships, name)
    ensures name !in relationships ==> r == Ok(JNull)
    ensures (name in relationships && relationships[name].JObj?
             && !Truthy(Get(relationships[name].fields, "data", JNull))) ==> r == Ok(JNull)
    ensures (name in relationships && relationships[name].JObj?
             && "data" in relationships[name].fields
             && relationships[name].fields["data"].JObj?
             && "id" in relationships[name].fields["data"].fields)
            ==> r == Ok(relationships[name].fields["data"].fields["id"])
    ensures r.Ok? && r.value != JNull ==>
              name in relationships && relationships[name].JObj?
              && "data" in relationships[name].fields
              && relationships[name].fields["data"].JObj?
              && "id" in relationships[name].fields["data"].fields
    ensures name in relationships && !relationships[name].JObj? ==> r == Err(RelationNotObject(name))
    ensures (name in relationships && relationships[name].JObj?
             && !RelationWellShaped(relationships, name)) ==> r == Err(RelationDataNotObject(name))
  {
    var rel := Get(relationships, name, EmptyObject);
    if !rel.JObj? then Err(RelationNotObject(name))
    else
      var data := Get(rel.fields, "data", JNull);
      if !Truthy(data) then Ok(JNull)
      else if !data.JObj? then Err(RelationDataNotObject(name))
      else Ok(Get(data.fields, "id", JNull))
  }

  /** One raw item can be summarised without raising. */
  predicate WellShapedItem(item: Json)
  {
    item.JObj?
    && Get(item.fields, "attributes", EmptyObject).JObj?
    && var relationships := Get(item.fields, "relationships", EmptyObject);
    relationships.JObj?
    && RelationWellShaped(relationships.fields, "assignee")
    && RelationWellShaped(relationships.fields, "project")
  }

  /** The seven-field projection of one raw item. */
  function SummarizeItem(item: Json): (r: Result<TaskSummary, ShapeError>)
    ensures r.Ok? <==> WellShapedItem(item)
    ensures !item.JObj? ==> r == Err(ItemNotObject)
    ensures r.Ok? ==>
      var attributes := Get(item.fields, "attributes", EmptyObject).fields;
      var relationships := Get(item.fields, "relationships", EmptyObject).fields;
      && r.value.id == Get(item.fields, "id", JNull)
      && r.value.title == Get(attributes, "title", JNull)
      && r.value.number == Get(attributes, "task_number", JNull)
      && r.value.closed == Get(attributes, "closed", JBool(false))
      && r.value.dueDate == Get(attributes, "due_date", JNull)
      && RelationId(relationships, "assignee") == Ok(r.value.assigneeId)
      && RelationId(relationships, "project") == Ok(r.value.projectId)
  {
    if !item.JObj? then Err(ItemNotObject)
    else
      var attributes := Get(item.fields, "attributes", EmptyObject);
      var relationships := Get(item.fields, "relationships", EmptyObject);
      if !attributes.JObj? then Err(AttributesNotObject)
      else if !relationships.JObj? then Err(RelationshipsNotObject)
      else match RelationId(relationships.fields, "assignee")
        case Err(e) => Err(e)
        case Ok(assigneeId) =>
          match RelationId(relationships.fields, "project")
          case Err(e) => Err(e)
          case Ok(projectId) =>
            Ok(TaskSummary(
              Get(item.fields, "id", JNull),
              Get(attributes.fields, "title", JNull),
              Get(attributes.fields, "task_number", JNull),
              Get(attributes.fields, "closed", JBool(false)),
              Get(attributes.fields, "due_date", JNull),
              assigneeId,
              projectId))
  }

  /** Attributes an item lacks come out as null, except `closed`, which comes out false. */
  lemma MissingAttributeDefaults(item: Json)
    requires WellShapedItem(item)
    ensures var t := SummarizeItem(item).value;
      var attributes := Get(item.fields, "attributes", EmptyObject).fields;
      && ("id" !in item.fields ==> t.id == JNull)
      && ("title" !in attributes ==> t.title == JNull)
      && ("task_number" !in attributes ==> t.number == JNull)
      && ("closed" !in attributes ==> t.closed == JBool(false))
      && ("due_date" !in attributes ==> t.dueDate == JNull)
  {
  }

  /**
   * The dict built for a well-shaped item: each of the seven keys holds the item
   * value it is read from, with the same defaults.
   */
  lemma SummaryJsonOfItem(item: Json)
    requires WellShapedItem(item)
    ensures var j := SummarizeItem(item).value.ToJson().fields;
      var attributes := Get(item.fields, "attributes", EmptyObject).fields;
      var relationships := Get(item.fields, "relationships", EmptyObject).fields;
      && j.Keys == TaskSummaryKeys
      && j["id"] == Get(item.fields, "id", JNull)
      && j["title"] == Get(attributes, "title", JNull)
      && j["number"] == Get(attributes, "task_number", JNull)
      && j["closed"] == Get(attributes, "closed", JBool(false))
      && j["due_date"] == Get(attributes, "due_date", JNull)
      && RelationId(relationships, "assignee") == Ok(j["assignee_id"])
      && RelationId(relationships, "project") == Ok(j["project_id"])
  {
  }

  /** Every item summarised in order; the first item that cannot be summarised aborts. */
  function SummarizeItems(items: seq<Json>): (r: Result<seq<TaskSummary>, ShapeError>)
    ensures r.Ok? <==> forall k :: 0 <= k < |items| ==> WellShapedItem(items[k])
    ensures r.Ok? ==> |r.value| == |items|
    ensures r.Ok? ==> forall k :: 0 <= k < |items| ==> SummarizeItem(items[k]) == Ok(r.value[k])
  {
    if items == [] then Ok([])
    else
      match SummarizeItems(items[..|items| - 1])
      case Err(e) => Err(e)
      case Ok(prefix) =>
        match SummarizeItem(items[|items| - 1])
        case Err(e) => Err(e)
        case Ok(t) => Ok(prefix + [t])
  }

  /** `data.get("data", [])`, with a non-list value wrapped in a one-element list. */
  function NormaliseItems(document: map<string, Json>): seq<Json>
  {
    if "data" !in document then []
    else match document["data"]
      case JArr(items) => items
      case other => [other]
  }

  /** `data.get("links", {})`, which must be a dict for the later `.get` calls. */
  function LinksOf(document: map<string, Json>): Result<map<string, Json>, ShapeError>
  {
    var links := Get(document, "links", EmptyObject);
    if links.JObj? then Ok(links.fields) else Err(LinksNotObject)
  }

  /** The pagination block: whether a next and a previous page link are given. */
  function PaginationOf(links: map<string, Json>): (p: Pagination)
    ensures p.hasNext <==> "next" in links && links["next"] != JNull
    ensures p.hasPrev <==> "prev" in links && links["prev"] != JNull
    ensures p.hasNext <==> p.nextPage != JNull
    ensures p.hasNext ==> p.nextPage == links["next"]
  {
    Pagination(
      Get(links, "next", JNull) != JNull,
      Get(links, "prev", JNull) != JNull,
      Get(links, "next", JNull))
  }

  /** The whole `summarize_tasks` result for a fetched document. */
  function Summarize(document: Json): (r: Result<TaskList, ShapeError>)
    ensures !document.JObj? ==> r == Err(DocumentNotObject)
    ensures r.Ok? <==>
      && document.JObj?
      && (forall k :: 0 <= k < |NormaliseItems(document.fields)| ==>
            WellShapedItem(NormaliseItems(document.fields)[k]))
      && LinksOf(document.fields).Ok?
    ensures r.Ok? ==>
      && r.value.count == |r.value.tasks| == |NormaliseItems(document.fields)|
      && (forall k :: 0 <= k < |r.value.tasks| ==>
            SummarizeItem(NormaliseItems(document.fields)[k]) == Ok(r.value.tasks[k]))
      && r.value.pagination == PaginationOf(LinksOf(document.fields).value)
      && r.value.note == Note
  {
    if !document.JObj? then Err(DocumentNotObject)
    else
      match SummarizeItems(NormaliseItems(document.fields))
      case Err(e) => Err(e)
      case Ok(tasks) =>
        match LinksOf(document.fields)
        case Err(e) => Err(e)
        case Ok(links) => Ok(TaskList(|tasks|, tasks, PaginationOf(links), Note))
  }

  /**
   * `summarize_tasks` as the source writes it: normalise, then append one summary
   * per item in a loop, then read the links.
   */
  method SummarizeTasks(document: Json) returns (r: Result<TaskList, ShapeError>)
    ensures r == Summarize(document)
  {
    if !document.JObj? {
      return Err(DocumentNotObject);
    }
    var items := NormaliseItems(document.fields);
    var summarized: seq<TaskSummary> := [];
    var i := 0;
    while i < |items|
      invariant 0 <= i <= |items|
      invariant SummarizeItems(items[..i]) == Ok(summarized)
    {
      assert items[..i + 1][..i] == items[..i];
      var t := SummarizeItem(items[i]);
      if t.Err? {
        assert SummarizeItems(items[..i + 1]) == Err(t.error);
        FirstErrorPropagates(items, i + 1);
        return Err(t.error);
      }
      summarized := summarized + [t.value];
      i := i + 1;
    }
    assert items[..i] == items;
    var links := LinksOf(document.fields);
    if links.Err? {
      return Err(links.error);
    }
    r := Ok(TaskList(|summarized|, summarized, PaginationOf(links.value), Note));
  }

  /** Once a prefix fails, the whole sequence fails with the same error. */
  lemma {:induction false} FirstErrorPropagates(items: seq<Json>, n: nat)
    requires n <= |items| && SummarizeItems(items[..n]).Err?
    ensures SummarizeItems(items) == SummarizeItems(items[..n])
    decreases |items| - n
  {
    if n < |items| {
      assert items[..n + 1][..n] == items[..n];
      FirstErrorPropagates(items, n + 1);
    } else {
      assert items[..n] == items;
    }
  }

  /** A failing summary reports the error of the first item that cannot be summarised. */
  lemma {:induction false} FirstFailingItem(items: seq<Json>)
    requires SummarizeItems(items).Err?
    ensures exists k ::
      && 0 <= k < |items|
      && (forall j :: 0 <= j < k ==> WellShapedItem(items[j]))
      && SummarizeItem(items[k]) == Err(SummarizeItems(items).error)
  {
    var init := items[..|items| - 1];
    var last := |items| - 1;
    if SummarizeItems(init).Err? {
      FirstFailingItem(init);
      var k :| 0 <= k < |init|
        && (forall j :: 0 <= j < k ==> WellShapedItem(init[j]))
        && SummarizeItem(init[k]) == Err(SummarizeItems(init).error);
      assert items[k] == init[k];
      assert forall j :: 0 <= j < k ==> items[j] == init[j];
    } else {
      assert forall j :: 0 <= j < last ==> items[j] == init[j];
      assert SummarizeItem(items[last]) == Err(SummarizeItems(items).error);
    }
  }

  /** A document without `data` summarises to no tasks. */
  lemma MissingDataGivesNoTasks(document: map<string, Json>)
    requires "data" !in document && LinksOf(document).Ok?
    ensures Summarize(JObj(document)) == Ok(TaskList(0, [], PaginationOf(LinksOf(document).value), Note))
  {
  }

  /** A bare entity under `data` is summarised exactly as the one-element list holding it. */
  lemma BareEntityIsWrapped(document: map<string, Json>)
    requires "data" in document && !document["data"].JArr?
    ensures Summarize(JObj(document)) == Summarize(JObj(document["data" := JArr([document["data"]])]))
  {
    var wrapped := document["data" := JArr([document["data"]])];
    assert NormaliseItems(wrapped) == NormaliseItems(document);
    assert LinksOf(wrapped) == LinksOf(document);
  }

  /** `"data": null` becomes `[None]`, and the first `.get` on it raises. */
  lemma NullDataFails(document: map<string, Json>)
    requires "data" in document && document["data"] == JNull
    ensures Summarize(JObj(document)) == Err(ItemNotObject)
  {
    assert NormaliseItems(document) == [JNull];
    assert SummarizeItems([JNull]) == Err(ItemNotObject) by {
      assert [JNull][..0] == [];
    }
  }

  /**
   * The three relationship shapes: no key, `data: null`, and `data: {"id": ...}`
   * give null, null and that id.
   */
  lemma RelationShapes(name: string, id: Json, other: map<string, Json>)
    ensures RelationId(map[], name) == Ok(JNull)
    ensures RelationId(map[name := JObj(map["data" := JNull])], name) == Ok(JNull)
    ensures RelationId(map[name := JObj(map["data" := JObj(other["id" := id])])], name) == Ok(id)
  {
  }
}
