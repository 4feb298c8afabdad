/**
 * The service object's configuration: the seven per-kind tool flags read from the
 * parsed service configuration (YAML), which tools get registered, and how a
 * setting is taken from the command line or the environment.
 *
 * Reading and parsing the YAML file is not modelled: the parsed document is an
 * input. The flags hold whatever value the configuration gives, as the source
 * stores it; registration only asks whether the value is truthy.
 */
module Service {
  import opened Wrappers
  import opened Json

  const BaseUrl: string := "https://api.productive.io/api/v2"

  /** The endpoint used when none is given. */
  const DefaultEndpoint: string := "/productive-mcp"

  /** The tools registered when tasks are enabled. */
  const TaskToolNames: set<string> := {"count_tasks", "list_tasks", "get_task"}

  /** The resource kinds that have a flag under `tools` in the configuration. */
  datatype ToolKind = Projects | Tasks | TimeEntries | Deals | Companies | People | Pages

  /** The key of each kind under `tools`. */
  function ConfigKey(kind: ToolKind): string
  {
    match kind
    case Projects => "projects"
    case Tasks => "tasks"
    case TimeEntries => "time_entries"
    case Deals => "deals"
    case Companies => "companies"
    case People => "people"
    case Pages => "pages"
  }

  datatype ServiceError =
    | MissingCredentials
    | ConfigNotMapping
    | ToolsNotMapping

  /** The flags can be read from `config` without raising: it and its `tools` entry are dicts. */
  predicate WellFormedConfig(config: Json)
  {
    config.JObj? && Get(config.fields, "tools", EmptyObject).JObj?
  }

  /** `service_config.get("tools", {}).get(kind, True)` */
  function ConfiguredFlag(config: Json, kind: ToolKind): (flag: Json)
    requires WellFormedConfig(config)
    ensures "tools" !in config.fields ==> flag == JBool(true)
    ensures "tools" in config.fields && ConfigKey(kind) !in config.fields["tools"].fields ==> flag == JBool(true)
    ensures "tools" in config.fields && ConfigKey(kind) in config.fields["tools"].fields ==>
              flag == config.fields["tools"].fields[ConfigKey(kind)]
  {
    Get(Get(config.fields, "tools", EmptyObject).fields, ConfigKey(kind), JBool(true))
  }

  class ProductiveService {
    const apiToken: string
    const orgId: string
    const baseUrl: string
    const transport: string
    const endpoint: string

    var projectsEnabled: Json
    var tasksEnabled: Json
    var timeEntriesEnabled: Json
    var dealsEnabled: Json
    var companiesEnabled: Json
    var peopleEnabled: Json
    var pagesEnabled: Json

    /** The flag of one kind. */
    function Enabled(kind: ToolKind): Json
      reads this
    {
      match kind
      case Projects => projectsEnabled
      case Tasks => tasksEnabled
      case TimeEntries => timeEntriesEnabled
      case Deals => dealsEnabled
      case Companies => companiesEnabled
      case People => peopleEnabled
      case Pages => pagesEnabled
    }

    /**
     * The field set-up of `__init__` once the credentials are known to be present:
     * every tool kind starts enabled.
     */
    constructor (transport: string, apiToken: string, orgId: string, endpoint: string := DefaultEndpoint)
      requires apiToken != "" && orgId != ""
      ensures this.apiToken == apiToken && this.orgId == orgId
      ensures this.baseUrl == BaseUrl && this.transport == transport && this.endpoint == endpoint
      ensures forall kind :: Enabled(kind) == JBool(true)
    {
      this.apiToken := apiToken;
      this.orgId := orgId;
      this.baseUrl := BaseUrl;
      this.transport := transport;
      this.endpoint := endpoint;
      projectsEnabled := JBool(true);
      tasksEnabled := JBool(true);
      timeEntriesEnabled := JBool(true);
      dealsEnabled := JBool(true);
      companiesEnabled := JBool(true);
      peopleEnabled := JBool(true);
      pagesEnabled := JBool(true);
    }

    /**
     * `unpack_service_specs` on the parsed configuration: each flag becomes the
     * value configured for its kind under `tools`, or True where none is. A
     * configuration or `tools` entry that is not a dict raises before any flag is
     * assigned.
     */
    method UnpackServiceSpecs(serviceConfig: Json) returns (err: Option<ServiceError>)
      modifies this
      ensures err.None? <==> WellFormedConfig(serviceConfig)
      ensures !serviceConfig.JObj? ==> err == Some(ConfigNotMapping)
      ensures serviceConfig.JObj? && !WellFormedConfig(serviceConfig) ==> err == Some(ToolsNotMapping)
      ensures err.None? ==> forall kind :: Enabled(kind) == ConfiguredFlag(serviceConfig, kind)
      ensures err.Some? ==> forall kind :: Enabled(kind) == old(Enabled(kind))
    {
      if !serviceConfig.JObj? {
        return Some(ConfigNotMapping);
      }
      var toolsConfig := Get(serviceConfig.fields, "tools", EmptyObject);
      if !toolsConfig.JObj? {
        return Some(ToolsNotMapping);
      }
      projectsEnabled := Get(toolsConfig.fields, "projects", JBool(true));
      tasksEnabled := Get(toolsConfig.fields, "tasks", JBool(true));
      timeEntriesEnabled := Get(toolsConfig.fields, "time_entries", JBool(true));
      dealsEnabled := Get(toolsConfig.fields, "deals", JBool(true));
      companiesEnabled := Get(toolsConfig.fields, "companies", JBool(true));
      peopleEnabled := Get(toolsConfig.fields, "people", JBool(true));
      pagesEnabled := Get(toolsConfig.fields, "pages", JBool(true));
      err := None;
    }

    /**
     * The tools `initialize_tools` registers: the three task tools when the tasks
     * flag is truthy, none otherwise (no other kind has tools).
     */
    function RegisteredTools(): (tools: set<string>)
      reads this
      ensures tools == {} <==> !Truthy(Enabled(Tasks))
      ensures tools != {} ==> tools == TaskToolNames
    {
      if Truthy(tasksEnabled) then TaskToolNames else {}
    }
  }

  /**
   * `ProductiveService(...)`: refuse empty credentials, start with every kind
   * enabled, then apply the parsed configuration when a configuration file was
   * given (`serviceConfig` is None when none was).
   */
  method NewProductiveService(serviceConfig: Option<Json>, transport: string, apiToken: string, orgId: string,
                              endpoint: string := DefaultEndpoint)
    returns (r: Result<ProductiveService, ServiceError>)
    ensures r.Err? <==>
      apiToken == "" || orgId == "" || (serviceConfig.Some? && !WellFormedConfig(serviceConfig.value))
    ensures apiToken == "" || orgId == "" ==> r == Err(MissingCredentials)
    ensures r.Ok? ==> fresh(r.value)
    ensures r.Ok? ==> r.value.apiToken == apiToken && r.value.orgId == orgId && r.value.endpoint == endpoint
    ensures r.Ok? ==> r.value.baseUrl == BaseUrl && r.value.transport == transport
    ensures r.Ok? && serviceConfig.None? ==> forall kind :: r.value.Enabled(kind) == JBool(true)
    ensures r.Ok? && serviceConfig.Some? ==>
              forall kind :: r.value.Enabled(kind) == ConfiguredFlag(serviceConfig.value, kind)
  {
    if apiToken == "" || orgId == "" {
      return Err(MissingCredentials);
    }
    var service := new ProductiveService(transport, apiToken, orgId, endpoint);
    if serviceConfig.Some? {
      var err := service.UnpackServiceSpecs(serviceConfig.value);
      if err.Some? {
        return Err(err.value);
      }
    }
    r := Ok(service);
  }

  /** A command-line value counts only when it is given and truthy (non-empty). */
  predicate ArgGiven(varName: string, args: map<string, Option<string>>)
  {
    varName in args && args[varName].Some? && args[varName].value != ""
  }

  /**
   * `get_var`: the command-line value when truthy, else the environment variable
   * when it is set (even to the empty string), else None. `args` maps the parsed
   * arguments' attribute names to their values (None for an option not given).
   */
  function GetVar(varName: string, envVarName: string, args: map<string, Option<string>>, env: map<string, string>)
    : (r: Option<string>)
    ensures ArgGiven(varName, args) ==> r == args[varName]
    ensures !ArgGiven(varName, args) && envVarName in env ==> r == Some(env[envVarName])
    ensures r.None? <==> !ArgGiven(varName, args) && envVarName !in env
    ensures r == Some("") ==> envVarName in env && env[envVarName] == ""
  {
    if ArgGiven(varName, args) then args[varName]
    else if envVarName in env then Some(env[envVarName])
    else None
  }
}
