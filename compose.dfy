/** The compose document that createDockerCompose (bin/index.js:326-487)
    builds from the answers, stopped at the document value: the YAML dump
    and the file write are outside the model. */
module Compose {
  import opened Wrappers
  import opened Selection

  const ComposeVersion := "3.7"
  const BackNetwork := "back-network"

  /** The `build` key of a service: a context directory and its Dockerfile. */
  datatype Build = Build(context: string, dockerfile: string)

  /** One entry of `services`. The keys the source sometimes leaves out
      (`volumes`, `environment`, `depends_on`) are options. */
  datatype Service = Service(
    build: Build,
    image: string,
    containerName: string,
    ports: seq<string>,
    volumes: Option<seq<string>>,
    environment: Option<map<string, string>>,
    networks: seq<string>,
    dependsOn: Option<seq<string>>)

  datatype Network = Network(driver: string)

  datatype Document = Document(version: string, services: map<string, Service>, networks: map<string, Network>)

  /** The TypeError that line 434 raises when it reads `depends_on` of the
      `api` service while no `api` service exists. */
  datatype ComposeError = ApiServiceUndefined

  /** Build context of the web service (lines 340, 352, 364, 376). */
  function WebContext(frontBack: FrontBack): (dir: string)
    requires frontBack != NoFrontBack
    ensures |dir| > 0
  {
    match frontBack
    case ReactWeb => "my-react-app"
    case FlaskWeb => "flask-web"
    case VueWeb => "my-vue-app"
    case CocasusWeb => "cocasus-app"
  }

  /** Build context of the api service (lines 395, 407, 419). */
  function ApiContext(api: Api): (dir: string)
    requires api != NoApi
    ensures |dir| > 0
  {
    match api
    case ExpressApi => "express-api"
    case FlaskApi => "flask-api"
    case CocasusApi => "cocasus-api"
  }

  /** The web service for each framework (lines 337-384): every variant is
      named `{name}-{framework}-web`, publishes 8080 and bind-mounts its
      context onto /app/web, except cocasus, which has no `volumes` key. */
  function WebService(name: string, frontBack: FrontBack): (s: Service)
    requires frontBack != NoFrontBack
    ensures s.build == Build(WebContext(frontBack), "Dockerfile")
    ensures s.image == name + "-" + FrontBackValue(frontBack) + "-web"
    ensures s.containerName == s.image
    ensures s.ports == ["8080:8080"]
    ensures s.volumes == if frontBack == CocasusWeb then None else Some(["./" + WebContext(frontBack) + ":/app/web"])
    ensures s.environment == None && s.dependsOn == None
    ensures s.networks == [BackNetwork]
  {
    match frontBack
    case ReactWeb =>
      assert "./" + "my-react-app" + ":/app/web" == "./my-react-app:/app/web";
      assert name + "-" + "react" + "-web" == name + "-react-web";
      Service(Build("my-react-app", "Dockerfile"), name + "-react-web", name + "-react-web",
              ["8080:8080"], Some(["./my-react-app:/app/web"]), None, ["back-network"], None)
    case FlaskWeb =>
      assert "./" + "flask-web" + ":/app/web" == "./flask-web:/app/web";
      assert name + "-" + "flask" + "-web" == name + "-flask-web";
      Service(Build("flask-web", "Dockerfile"), name + "-flask-web", name + "-flask-web",
              ["8080:8080"], Some(["./flask-web:/app/web"]), None, ["back-network"], None)
    case VueWeb =>
      assert "./" + "my-vue-app" + ":/app/web" == "./my-vue-app:/app/web";
      assert name + "-" + "vue" + "-web" == name + "-vue-web";
      Service(Build("my-vue-app", "Dockerfile"), name + "-vue-web", name + "-vue-web",
              ["8080:8080"], Some(["./my-vue-app:/app/web"]), None, ["back-network"], None)
    case CocasusWeb =>
      assert name + "-" + "cocasus" + "-web" == name + "-cocasus-web";
      Service(Build("cocasus-app", "Dockerfile"), name + "-cocasus-web", name + "-cocasus-web",
              ["8080:8080"], None, None, ["back-network"], None)
  }

  /** The api service for each framework (lines 392-427): named
      `{name}-{framework}-api`, publishing 5000, with its context mounted on
      /app/api except for cocasus. */
  function ApiService(name: string, api: Api): (s: Service)
    requires api != NoApi
    ensures s.build == Build(ApiContext(api), "Dockerfile")
    ensures s.image == name + "-" + ApiValue(api) + "-api"
    ensures s.containerName == s.image
    ensures s.ports == ["5000:5000"]
    ensures s.volumes == if api == CocasusApi then None else Some(["./" + ApiContext(api) + ":/app/api"])
    ensures s.environment == None && s.dependsOn == None
    ensures s.networks == [BackNetwork]
  {
    match api
    case ExpressApi =>
      assert "./" + "express-api" + ":/app/api" == "./express-api:/app/api";
      assert name + "-" + "express" + "-api" == name + "-express-api";
      Service(Build("express-api", "Dockerfile"), name + "-express-api", name + "-express-api",
              ["5000:5000"], Some(["./express-api:/app/api"]), None, ["back-network"], None)
    case FlaskApi =>
      assert "./" + "flask-api" + ":/app/api" == "./flask-api:/app/api";
      assert name + "-" + "flask" + "-api" == name + "-flask-api";
      Service(Build("flask-api", "Dockerfile"), name + "-flask-api", name + "-flask-api",
              ["5000:5000"], Some(["./flask-api:/app/api"]), None, ["back-network"], None)
    case CocasusApi =>
      assert name + "-" + "cocasus" + "-api" == name + "-cocasus-api";
      Service(Build("cocasus-api", "Dockerfile"), name + "-cocasus-api", name + "-cocasus-api",
              ["5000:5000"], None, None, ["back-network"], None)
  }

  /** The db service (lines 438-474): named `{name}-db`, built from the `db`
      folder, publishing the engine's own port, keeping its data under
      ./db/data and receiving the four credentials verbatim under the
      engine's variable names. */
  function DbService(name: string, database: Database): (s: Service)
    requires database != NoDatabase
    ensures s.build == Build("db", "Dockerfile")
    ensures s.image == name + "-db" && s.containerName == s.image
    ensures s.networks == [BackNetwork] && s.dependsOn == None
    ensures s.environment.Some?
    ensures database.MySql? ==>
      && s.ports == ["3306:3306"]
      && s.volumes == Some(["./db/data:/var/lib/mysql"])
      && s.environment.value.Keys == {"MYSQL_ROOT_PASSWORD", "MYSQL_DATABASE", "MYSQL_USER", "MYSQL_PASSWORD"}
      && s.environment.value["MYSQL_ROOT_PASSWORD"] == database.credentials.rootPassword
      && s.environment.value["MYSQL_DATABASE"] == database.credentials.name
      && s.environment.value["MYSQL_USER"] == database.credentials.user
      && s.environment.value["MYSQL_PASSWORD"] == database.credentials.password
    ensures database.PostgreSql? ==>
      && s.ports == ["5432:5432"]
      && s.volumes == Some(["./db/data:/var/lib/postgresql/data"])
      && s.environment.value.Keys == {"POSTGRES_PASSWORD", "POSTGRES_USER", "POSTGRES_DB", "POSTGRES_ROOT_PASSWORD"}
      && s.environment.value["POSTGRES_PASSWORD"] == database.credentials.password
      && s.environment.value["POSTGRES_USER"] == database.credentials.user
      && s.environment.value["POSTGRES_DB"] == database.credentials.name
      && s.environment.value["POSTGRES_ROOT_PASSWORD"] == database.credentials.rootPassword
  {
    match database
    case MySql(c) =>
      Service(Build("db", "Dockerfile"), name + "-db", name + "-db",
              ["3306:3306"], Some(["./db/data:/var/lib/mysql"]),
              Some(map["MYSQL_ROOT_PASSWORD" := c.rootPassword, "MYSQL_DATABASE" := c.name,
                       "MYSQL_USER" := c.user, "MYSQL_PASSWORD" := c.password]),
              ["back-network"], None)
    case PostgreSql(c) =>
      Service(Build("db", "Dockerfile"), name + "-db", name + "-db",
              ["5432:5432"], Some(["./db/data:/var/lib/postgresql/data"]),
              Some(map["POSTGRES_PASSWORD" := c.password, "POSTGRES_USER" := c.user,
                       "POSTGRES_DB" := c.name, "POSTGRES_ROOT_PASSWORD" := c.rootPassword]),
              ["back-network"], None)
  }

  /** The assignment `content.services[key].depends_on = deps` of lines 389,
      432 and 435. Assigning through a missing entry throws in JavaScript, so
      the entry must exist; the source only assigns to entries it created. */
  function SetDependsOn(services: map<string, Service>, key: string, deps: seq<string>): (r: map<string, Service>)
    requires key in services
    ensures r.Keys == services.Keys
    ensures r[key] == services[key].(dependsOn := Some(deps))
    ensures forall k :: k in services && k != key ==> r[k] == services[k]
  {
    services[key := services[key].(dependsOn := Some(deps))]
  }

  /** The order in which the services start: db first, then api, then web. */
  function TierRank(key: string): int
  {
    if key == "db" then 0 else if key == "api" then 1 else 2
  }

  /** The selections for which line 434 throws: a database, no API and a
      front/back framework. */
  predicate ReadsMissingApi(sel: Selection)
  {
    sel.database != NoDatabase && sel.api == NoApi && sel.frontBack != NoFrontBack
  }

  /** `depends_on` of the web service as the source leaves it when it does
      not throw: only the edge written at line 389. */
  function WebDependsOn(sel: Selection): Option<seq<string>>
  {
    if sel.api != NoApi then Some(["api"]) else None
  }

  /** `depends_on` of the api service (line 432). */
  function ApiDependsOn(sel: Selection): Option<seq<string>>
  {
    if sel.database != NoDatabase then Some(["db"]) else None
  }

  /** The services of the document, one entry per active tier, with `web`
      given the dependency list `webDeps`. */
  function ServicesWith(sel: Selection, webDeps: Option<seq<string>>): map<string, Service>
  {
    var web: map<string, Service> :=
      if sel.frontBack != NoFrontBack then map["web" := WebService(sel.name, sel.frontBack).(dependsOn := webDeps)] else map[];
    var api := if sel.api != NoApi then web["api" := ApiService(sel.name, sel.api).(dependsOn := ApiDependsOn(sel))] else web;
    if sel.database != NoDatabase then api["db" := DbService(sel.name, sel.database)] else api
  }

  function ServicesOf(sel: Selection): map<string, Service>
  {
    ServicesWith(sel, WebDependsOn(sel))
  }

  /** What createDockerCompose produces, stated tier by tier: the error of
      line 434, or the document. */
  function Composition(sel: Selection): Result<Document, ComposeError>
  {
    if ReadsMissingApi(sel) then Failure(ApiServiceUndefined)
    else Success(Document(ComposeVersion, ServicesOf(sel), map[BackNetwork := Network("bridge")]))
  }

  /** The dependency of web that line 435 evidently means to give: api when
      there is one, otherwise db when there is one. */
  function IntendedWebDependsOn(sel: Selection): Option<seq<string>>
  {
    if sel.api != NoApi then Some(["api"])
    else if sel.database != NoDatabase then Some(["db"])
    else None
  }

  /** The document with the fallback of line 435 in effect: it exists for
      every selection. */
  function IntendedComposition(sel: Selection): Document
  {
    Document(ComposeVersion, ServicesWith(sel, IntendedWebDependsOn(sel)), map[BackNetwork := Network("bridge")])
  }

  /** createDockerCompose as the source runs it: the `services` dictionary is
      filled in source order, `depends_on` of web is written before the api
      entry exists, and line 434 reads `depends_on` of the api entry back. */
  method CreateDockerCompose(sel: Selection) returns (r: Result<Document, ComposeError>)
    ensures r == Composition(sel)
  {
    var services: map<string, Service> := map[];
    var networks := map[BackNetwork := Network("bridge")];
    if sel.frontBack != NoFrontBack {
      services := services["web" := WebService(sel.name, sel.frontBack)];
    }
    if sel.api != NoApi {
      if sel.frontBack != NoFrontBack {
        services := SetDependsOn(services, "web", ["api"]);
      }
      services := services["api" := ApiService(sel.name, sel.api)];
    }
    if sel.database != NoDatabase {
      if sel.api != NoApi {
        services := SetDependsOn(services, "api", ["db"]);
      }
      if sel.frontBack != NoFrontBack {
        if "api" !in services {
          // `content.services.api` is undefined: reading its `depends_on` throws
          return Failure(ApiServiceUndefined);
        }
        if services["api"].dependsOn.None? {
          // line 435 would set `depends_on` of web to ["db"] here, but the
          // branch is never taken: the api entry got `depends_on` at line 432
          assert false;
        }
      }
      services := services["db" := DbService(sel.name, sel.database)];
    }
    assert services == ServicesOf(sel);
    r := Success(Document(ComposeVersion, services, networks));
  }
}
