# Productive.io MCP server: task-listing core in Dafny

This project models the part of the Productive.io MCP server
(`mcp_server_productive/server.py`) that shapes task requests and responses.
It also models the server's small configuration helpers.

- **`count_tasks`** asks the API for one task. It then estimates the number of
  pages from the `page[number]=<digits>` parameter of the `links.last` URL,
  falling back to 1. It reports 30 tasks per page and advises fetching pages
  1 to min(3, pages) with `page_size=10`.
- **`list_tasks`** clamps the page size to at most 20, then summarises the
  fetched page.
- **`summarize_tasks`** normalises the JSON:API `data` member to a list. It
  projects every task onto seven fields: id, title, number, closed, due_date,
  assignee_id and project_id. It resolves the `assignee` and `project`
  relationships to ids, and reads `has_next`, `has_prev` and `next_page` from
  `links`.
- **Both tools** add the `filter[project_id]`, `filter[assignee_id]` and
  `filter[closed]` query parameters only when those arguments are given.
- **The service object** holds seven per-kind tool flags read from the
  configuration's `tools` entry, each defaulting to true. The three task tools
  are registered only when the tasks flag is truthy.
- **`get_var`** takes a setting from the command line when it is truthy, else
  from the environment.

The fetched JSON:API document and the parsed configuration are inputs, as
values of a small JSON datatype (`Json.Json`). Python's `None` and JSON `null`
are the same value, `JNull`. Truthiness and `dict.get` follow Python
(`Json.Truthy`, `Json.Get`). Outputs are structured values, not JSON text.

The Python code raises in some cases: `.get` on a value that is not a dict, or
`re.search` on a `links.last` that is truthy but not a string. The model
returns these as explicit errors (`TaskSummaries.ShapeError`,
`Service.ServiceError`) instead of requiring them away.

Modules and files:

- `wrappers.dfy` holds `Option` and `Result`.
- `json.dfy` holds the JSON value type, truthiness and `dict.get`.
- `page_link.dfy` holds the page-number pattern, with `int()` and `str()` on
  decimal numbers.
- `number_text.dfy` holds how numbers written into a sentence read back out of
  it.
- `task_summaries.dfy` holds `summarize_tasks`.
- `task_tools.dfy` holds `count_tasks`, `list_tasks` and the filter parameters.
- `service.dfy` holds the service object, its flags, tool registration and
  `get_var`.

Behaviour of the code worth knowing:

- A `links.last` with `page[number]=0` gives 0 estimated pages, 0 tasks and the
  advice "pages 1-0". There is no fallback to 1 for page 0.
  `TaskTools.LastLinkToPageZero` and `TaskTools.AdviceForZeroPages` state this.
- `list_tasks` puts no lower bound on `page_size` and does not check `page`.
- The seven flags hold whatever value the configuration gives, not a boolean.
  Only the tasks flag decides whether any tool is registered.

## Model

| member | source | states |
|---|---|---|
| `PageLink.DigitRun` | mcp_server_productive/server.py:367 | the `(\d+)` group is the longest run of digits at that position: every character is a digit, and the run ends at the end of the text or at a non-digit |
| `PageLink.FirstMatchFrom` | mcp_server_productive/server.py:367 | `re.search` finds the leftmost position where `page[number]=` is followed by a digit; it finds none exactly when no such position exists |
| `PageLink.DecimalString` | mcp_server_productive/server.py:377-378 | the number in the advice is written as a non-empty run of decimal digits with no leading zero |
| `PageLink.DecimalRoundTrip` | mcp_server_productive/server.py:369 | `int(str(n)) == n` for every non-negative `n` |
| `PageLink.PageNumberIn` | mcp_server_productive/server.py:366-369 | no page number is found exactly when the pattern matches nowhere in the URL |
| `PageLink.PageNumberIsLeftmost` | mcp_server_productive/server.py:367-369 | when a number is found, it is the decimal value of the greedy digit run after the leftmost match, and no match starts earlier |
| `PageLink.PageNumberOfEncodedLink` | mcp_server_productive/server.py:366-369 | a URL carrying `page[number]=` + `str(n)`, with no earlier match and no digit right after, yields exactly `n` |
| `TaskSummaries.TaskSummary.ToJson` | mcp_server_productive/server.py:301-317 | every summarised task has exactly the seven keys id, title, number, closed, due_date, assignee_id and project_id, each holding its own field |
| `TaskSummaries.SummaryJsonOfItem` | mcp_server_productive/server.py:298-317 | for every well-shaped item the dict holds its `id`, the attributes `title`, `task_number` (as `number`), `closed` (default false) and `due_date`, and the `assignee` and `project` relation ids |
| `TaskSummaries.RelationId` | mcp_server_productive/server.py:307-316 | an absent relation, or one whose `data` is null or otherwise falsy, gives null; a `data` dict gives its `id`; a non-null result always comes from `data.id`; a relation that is not a dict, or a truthy non-dict `data`, is an error |
| `TaskSummaries.SummarizeItem` | mcp_server_productive/server.py:298-317 | an item is summarised exactly when it, its attributes and its relationships are dicts, and each of `assignee` and `project` is absent or a dict whose `data` is falsy or a dict (`WellShapedItem`); missing attributes give null, except `closed`, which defaults to false; both relation ids resolve as `RelationId` says |
| `TaskSummaries.MissingAttributeDefaults` | mcp_server_productive/server.py:302-306 | a missing id, title, task_number or due_date gives null, and a missing `closed` gives false |
| `TaskSummaries.SummarizeItems` | mcp_server_productive/server.py:296-317 | the loop succeeds exactly when every item can be summarised; it then yields one summary per item, in input order |
| `TaskSummaries.FirstFailingItem` | mcp_server_productive/server.py:297-317 | a failing summary reports the error of the first item that cannot be summarised, after all items before it succeed |
| `TaskSummaries.PaginationOf` | mcp_server_productive/server.py:319-327 | `has_next` holds exactly when `links.next` is present and non-null, and `has_prev` likewise for `links.prev`; `next_page` is `links.next`, or null when there is no next page |
| `TaskSummaries.Summarize` | mcp_server_productive/server.py:290-329 | the summary succeeds exactly when the document, every normalised item and `links` have the expected shape; `count` is the number of summaries, which equals the number of normalised items; summaries keep item order; pagination comes from `links`; the note is fixed |
| `TaskSummaries.SummarizeTasks` | mcp_server_productive/server.py:290-329 | the appending loop returns exactly the `Summarize` result |
| `TaskSummaries.MissingDataGivesNoTasks` | mcp_server_productive/server.py:292 | a document without `data`, whose `links` is absent or a dict, gives zero tasks |
| `TaskSummaries.BareEntityIsWrapped` | mcp_server_productive/server.py:292-294 | a non-list `data` gives the same result as the one-element list holding it |
| `TaskSummaries.NullDataFails` | mcp_server_productive/server.py:292-298 | a top-level `"data": null` becomes `[None]`, and the call fails on that item |
| `TaskSummaries.RelationShapes` | mcp_server_productive/server.py:307-316 | no key, `data: null` and `data: {"id": x}` give null, null and `x` |
| `TaskTools.ActiveFilterKeys` | mcp_server_productive/server.py:351-356 | the filter keys sent are exactly those whose argument is truthy (ids) or not None (`closed`) |
| `TaskTools.AddFilters` | mcp_server_productive/server.py:351-356 | the conditional inserts add exactly the active filter keys and keep every existing entry; each id filter equals its argument; `filter[closed]` is "true" or "false" |
| `TaskTools.RecommendationTextNumbers` | mcp_server_productive/server.py:376-380 | the recommendation sentence carries the estimated total, the first page, the last page and the page size, each reading back as its own number from its place in the text |
| `TaskTools.Recommend` | mcp_server_productive/server.py:376-380 | the advice names pages 1 to min(3, pages), with page size 10 and the estimated total |
| `TaskTools.CountTasks` | mcp_server_productive/server.py:335-381 | the filters default to None; sends page 1 of size 1 plus the active filters; the estimated pages are the link's page number, or 1 when `links.last` is missing, falsy or has no match; the estimated total is exactly 30 × pages; the advice is `Recommend` of both; a document, `links` or truthy non-string `last` of the wrong shape is an error |
| `TaskTools.ListTasks` | mcp_server_productive/server.py:386-424 | without arguments it uses no filters, page 1 and page size 10; sends the page number unchanged and a page size of min(page_size, 20): never above 20, never above the request, unchanged when at most 20; sends the active filters; returns the `Summarize` result |
| `TaskTools.LastLinkToPageFive` | mcp_server_productive/server.py:366-369 | `.../tasks?page[number]=5` is read as 5 pages |
| `TaskTools.AdviceForFivePages` | mcp_server_productive/server.py:371-380 | 5 pages give 150 tasks and the advice to request pages 1-3 with page_size=10 |
| `TaskTools.CountTasksForFivePages` | mcp_server_productive/server.py:358-381 | `count_tasks` on a response whose `links.last` is `.../tasks?page[number]=5` gives 5 pages, 150 tasks and the advice for pages 1-3 of size 10 |
| `TaskTools.LastLinkToPageZero` | mcp_server_productive/server.py:366-369 | `page[number]=0` is read as 0 pages, with no fallback to 1 |
| `TaskTools.AdviceForZeroPages` | mcp_server_productive/server.py:371-380 | 0 pages give 0 tasks and the advice "pages 1-0" |
| `TaskTools.CountTasksForZeroPages` | mcp_server_productive/server.py:358-381 | `count_tasks` on a `links.last` with `page[number]=0` gives 0 pages, 0 tasks and the advice for pages 1-0 |
| `Service.ConfiguredFlag` | mcp_server_productive/server.py:100-107 | a kind's flag is true when `tools` or the kind's key is missing, and otherwise the configured value |
| `Service.ProductiveService.constructor` | mcp_server_productive/server.py:43-69 | the endpoint defaults to `/productive-mcp`; the credentials, base URL, transport and endpoint are stored, and all seven flags start true |
| `Service.ProductiveService.UnpackServiceSpecs` | mcp_server_productive/server.py:99-107 | on a well-formed configuration every flag becomes its `ConfiguredFlag`; a configuration or `tools` entry that is not a dict is an error, and no flag changes |
| `Service.ProductiveService.RegisteredTools` | mcp_server_productive/server.py:332-334 | the three task tools are registered exactly when the tasks flag is truthy, and nothing otherwise |
| `Service.NewProductiveService` | mcp_server_productive/server.py:43-78 | the endpoint defaults to `/productive-mcp`; empty credentials are refused; the service stores the credentials, endpoint, transport and the fixed base URL; without a configuration every flag is true; with one every flag is its `ConfiguredFlag`, or creation fails when the configuration is malformed |
| `Service.GetVar` | mcp_server_productive/server.py:175-179 | a truthy command-line value wins; otherwise the environment value if the variable is set, even to ""; otherwise None |

## Left out

- HTTP requests (`get`, `post`, `patch`, `get_headers`, lines 112-154): network I/O. Each tool takes the fetched document as an input and returns the query parameters it would send.
- `get_task` (lines 428-438): passes the fetched document through unchanged, with nothing to model.
- Tool and resource registration with FastMCP, the async lifespan and `initialize_resources` (lines 218-284): library plumbing. Only the decision of which tools are registered is modelled, in `RegisteredTools`.
- Resolving credentials in the lifespan (lines 230-238): this is lifecycle glue. Its building block `get_var` is modelled.
- Reading and parsing the YAML file, `Path` resolution and the `file://` URI (lines 72-78, 86-97): file I/O and foreign libraries. The parsed configuration is an input. A missing file or a YAML syntax error is therefore not represented.
- argparse, `main`, `server.run`, transport selection and `print` logging (lines 90, 93, 96, 109, 182-215, 251, 258, 262, 440-466): process glue and console output, which change no modelled state.
- `json.dumps(..., indent=2)` (lines 383, 426): the model returns the structured payload. The recommendation's text is given by `Recommendation.Text`.
- Query-parameter order: parameters are a map, so the insertion order of the Python dict, which fixes the order in the URL, is not represented.
- JSON numbers with a fraction and YAML-specific scalars such as dates: the JSON datatype has only integers.
- `PageLink.PageNumberIn`: recognises only the ASCII digits 0-9. Python's `\d` also matches other Unicode decimal digits, which `int` accepts.
- `PageLink.PageNumberIn`: does not model the interpreter's limit on `int` conversion of very long digit strings (4300 digits by default), which raises instead of returning a number.
- `Service.ProductiveService.constructor`: requires non-empty credentials. The `ValueError` that `__init__` raises otherwise is modelled in `Service.NewProductiveService`, which checks them before calling it.
