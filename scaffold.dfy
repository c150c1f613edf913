/** The scaffold planner, createProjectsFolders (bin/index.js:210-299), and
    the command that installDependency (lines 301-323) hands to the shell.
    Every filesystem call and every generator run is an action; whether it
    succeeds is decided by an oracle, since the filesystem and the spawned
    processes are outside the model. A failing action throws (or rejects an
    awaited promise), so nothing after it runs, createDockerCompose
    included. */
module Scaffold {
  import opened Wrappers
  import opened Selection
  import opened Compose

  /** The boilerplate generator a tier runs through installDependency. */
  datatype Generator = ApiGenerator(api: Api) | WebGenerator(frontBack: FrontBack)

  predicate ValidGenerator(g: Generator)
  {
    match g
    case ApiGenerator(api) => api != NoApi
    case WebGenerator(frontBack) => frontBack != NoFrontBack
  }

  /** A file the planner writes, named by what it holds; `Contents` gives
      its exact text. */
  datatype FileText = DbDockerfileText(database: Database) | NodeDockerfileText(frontBack: FrontBack) | EnvExampleText

  predicate ValidFileText(t: FileText)
  {
    match t
    case DbDockerfileText(database) => database != NoDatabase
    case NodeDockerfileText(frontBack) => frontBack == ReactWeb || frontBack == VueWeb
    case EnvExampleText => true
  }

  datatype Action =
    | MakeDir(path: string)
    | WriteFile(path: string, text: FileText)
    | CopyFile(source: string, target: string)
    | RemoveTree(path: string)
    | Exec(generator: Generator)

  datatype Tier = DbTier | ApiTier | WebTier

  /** The compose service that a tier's folder becomes. */
  function ServiceKey(tier: Tier): string
  {
    match tier
    case DbTier => "db"
    case ApiTier => "api"
    case WebTier => "web"
  }

  /** An action together with the tier whose block of the source issues it. */
  datatype Step = Step(tier: Tier, action: Action)

  /** The shell command of line 312 for a package and its prerequisite: the
      prerequisite, when there is one, chained with `&&`
      before `npx -y <package>`, so that the package runs only once the
      prerequisite has succeeded. */
  function InstallCommand(packageName: string, previous: string): string
  {
    (if previous != "" then previous + " && " else "") + "npx -y " + packageName
  }

  /** The command ends with `npx -y <package>`; without a prerequisite that
      is the whole command, otherwise the prerequisite comes first, then
      ` && `. */
  lemma InstallCommandShape(packageName: string, previous: string)
    ensures var cmd, main := InstallCommand(packageName, previous), "npx -y " + packageName;
      && |cmd| >= |main| && cmd[|cmd| - |main|..] == main
      && (previous == "" ==> cmd == main)
      && (previous != "" ==> |cmd| == |previous| + 4 + |main| && cmd[..|previous| + 4] == previous + " && ")
  {
    if previous != "" {
      assert InstallCommand(packageName, previous) == (previous + " && ") + ("npx -y " + packageName);
    }
  }

  /** The package handed to npx for the API tier (lines 233, 236, 239-240). */
  function ApiPackage(api: Api): string
    requires api != NoApi
  {
    match api
    case ExpressApi => "@rharkor/express-api-boilerplate --no-interaction"
    case FlaskApi => "@rharkor/flask-api-boilerplate  --no-interaction"
    case CocasusApi => "cocasus init --type api --name cocasus-app --root ./cocasus-api --deps false"
  }

  /** The package handed to npx for the front/back tier (lines 251, 254, 271, 288-289). */
  function WebPackage(frontBack: FrontBack): string
    requires frontBack != NoFrontBack
  {
    match frontBack
    case FlaskWeb => "@rharkor/flask-web-boilerplate  --no-interaction"
    case ReactWeb => "create-react-app my-react-app"
    case VueWeb => "vue create my-vue-app --default"
    case CocasusWeb => "cocasus init --type web --name cocasus-web --root ./cocasus-app --deps false"
  }

  /** The prerequisite command; only vue has one (line 272). */
  function WebPrerequisite(frontBack: FrontBack): string
  {
    if frontBack == VueWeb then "npm i -g @vue/cli" else ""
  }

  /** The package and prerequisite a generator hands to installDependency. */
  function Package(g: Generator): string
    requires ValidGenerator(g)
  {
    match g
    case ApiGenerator(api) => ApiPackage(api)
    case WebGenerator(frontBack) => WebPackage(frontBack)
  }

  function Prerequisite(g: Generator): string
  {
    match g
    case ApiGenerator(_) => ""
    case WebGenerator(frontBack) => WebPrerequisite(frontBack)
  }

  /** The shell command a generator runs. */
  function Command(g: Generator): string
    requires ValidGenerator(g)
  {
    InstallCommand(Package(g), Prerequisite(g))
  }

  /** The image and the port of each database engine (lines 220, 226). */
  function DbImage(database: Database): string
    requires database != NoDatabase
  {
    if database.MySql? then "mysql:5.7" else "postgres:9.6"
  }

  function DbPort(database: Database): string
    requires database != NoDatabase
  {
    if database.MySql? then "3306" else "5432"
  }

  /** The Dockerfile written into the db folder: `FROM mysql:5.7` exposing
      3306, or `FROM postgres:9.6` exposing 5432. */
  function DbDockerfile(database: Database): string
    requires database != NoDatabase
  {
    "FROM " + DbImage(database) + "\nEXPOSE " + DbPort(database)
  }

  /** What the react and vue Dockerfiles share: everything up to the CMD
      line (lines 259-260, 276-277). */
  const NodeDockerfileHead := "FROM node:14.16\nWORKDIR /app/web\nCOPY package*.json ./\nRUN npm i\nCOPY . .\nEXPOSE 8080\n"

  /** The Dockerfile written into a react or vue app: the shared head, then
      `npm start` for react and `npm run serve` for vue. */
  function NodeDockerfile(frontBack: FrontBack): string
    requires frontBack == ReactWeb || frontBack == VueWeb
  {
    NodeDockerfileHead
    + if frontBack == ReactWeb then "CMD [\"npm\", \"start\"]" else "CMD [\"npm\", \"run\", \"serve\"]"
  }

  const EnvExample := "PORT=8080"

  /** The exact text of a file the planner writes. */
  function Contents(t: FileText): string
    requires ValidFileText(t)
  {
    match t
    case DbDockerfileText(database) => DbDockerfile(database)
    case NodeDockerfileText(frontBack) => NodeDockerfile(frontBack)
    case EnvExampleText => EnvExample
  }

  /** `<root>/<dir>/<file>`: the shape of every path the API and front/back
      blocks touch, `root` being the working directory. */
  function AppPath(root: string, dir: string, file: string): string
  {
    root + "/" + dir + "/" + file
  }

  /** The copy of `<dir>/.env.example` to `<dir>/.env` that the cocasus,
      react and vue branches make. */
  function EnvCopy(root: string, dir: string): Action
  {
    CopyFile(AppPath(root, dir, ".env.example"), AppPath(root, dir, ".env"))
  }

  /** The database block (lines 213-229); its paths are relative to the
      working directory, as in the source. */
  function DbSteps(sel: Selection): seq<Step>
  {
    if sel.database == NoDatabase then []
    else [Step(DbTier, MakeDir("db")), Step(DbTier, MakeDir("db/data")),
          Step(DbTier, WriteFile("db/Dockerfile", DbDockerfileText(sel.database)))]
  }

  /** The API block (lines 231-247); `root` is the working directory. */
  function ApiSteps(sel: Selection, root: string): seq<Step>
  {
    if sel.api == NoApi then []
    else
      [Step(ApiTier, Exec(ApiGenerator(sel.api)))]
      + if sel.api == CocasusApi
        then [Step(ApiTier, EnvCopy(root, "cocasus-api"))]
        else []
  }

  /** The fix-ups after create-react-app and vue create (lines 256-269 and
      273-286): drop the generated .git folder, write the Dockerfile and
      .env.example, then copy .env.example to .env. */
  function NodeAppFixups(root: string, dir: string, frontBack: FrontBack): seq<Step>
  {
    [Step(WebTier, RemoveTree(AppPath(root, dir, ".git"))),
     Step(WebTier, WriteFile(AppPath(root, dir, "Dockerfile"), NodeDockerfileText(frontBack))),
     Step(WebTier, WriteFile(AppPath(root, dir, ".env.example"), EnvExampleText)),
     Step(WebTier, EnvCopy(root, dir))]
  }

  /** What follows the generator in the front/back block. */
  function WebFixups(frontBack: FrontBack, root: string): seq<Step>
  {
    match frontBack
    case NoFrontBack => []
    case FlaskWeb => []
    case ReactWeb => NodeAppFixups(root, "my-react-app", ReactWeb)
    case VueWeb => NodeAppFixups(root, "my-vue-app", VueWeb)
    case CocasusWeb => [Step(WebTier, EnvCopy(root, "cocasus-app"))]
  }

  /** The front/back block (lines 249-296). */
  function WebSteps(sel: Selection, root: string): seq<Step>
  {
    if sel.frontBack == NoFrontBack then []
    else
      [Step(WebTier, Exec(WebGenerator(sel.frontBack)))]
      + WebFixups(sel.frontBack, root)
  }

  /** Every step the planner takes when nothing fails, in source order. */
  function Plan(sel: Selection, root: string): seq<Step>
  {
    DbSteps(sel) + ApiSteps(sel, root) + WebSteps(sel, root)
  }

  /** Every action of the steps succeeds, checked front to back. */
  predicate AllSucceed(steps: seq<Step>, ok: Action -> bool)
  {
    steps == [] || (ok(steps[0].action) && AllSucceed(steps[1..], ok))
  }

  lemma {:induction false} AllSucceedAt(steps: seq<Step>, ok: Action -> bool)
    ensures AllSucceed(steps, ok) <==> forall i :: 0 <= i < |steps| ==> ok(steps[i].action)
  {
    if steps != [] {
      AllSucceedAt(steps[1..], ok);
      assert forall i :: 0 < i < |steps| ==> steps[i] == steps[1..][i - 1];
    }
  }

  /** The steps that are attempted when the plan runs until its first failing
      action: a prefix of the plan; all of it when every action succeeds;
      otherwise steps that succeeded followed by the one that failed. */
  function Run(plan: seq<Step>, ok: Action -> bool): (done: seq<Step>)
    ensures |done| <= |plan| && done == plan[..|done|]
    ensures AllSucceed(plan, ok) ==> done == plan
    ensures !AllSucceed(plan, ok) ==>
      |done| > 0 && AllSucceed(done[..|done| - 1], ok) && !ok(done[|done| - 1].action)
  {
    if plan == [] then []
    else if ok(plan[0].action) then
      var rest := Run(plan[1..], ok);
      assert !AllSucceed(plan, ok) ==> ([plan[0]] + rest)[..|rest|][1..] == rest[..|rest| - 1];
      [plan[0]] + rest
    else [plan[0]]
  }

  /** When every step already done succeeded and the next one fails, the
      steps attempted are those done and that one. */
  lemma {:induction false} FirstFailure(plan: seq<Step>, done: seq<Step>, ok: Action -> bool)
    requires |done| < |plan| && plan[..|done|] == done
    requires forall i :: 0 <= i < |done| ==> ok(done[i].action)
    requires !ok(plan[|done|].action)
    ensures Run(plan, ok) == done + [plan[|done|]]
    ensures !AllSucceed(plan, ok)
  {
    if done != [] {
      assert plan[1..][..|done| - 1] == done[1..];
      FirstFailure(plan[1..], done[1..], ok);
      assert ok(done[0].action);
    }
  }

  /** installDependency for a generator: the shell command of line 312 is
      the prerequisite, when there is one, chained with ` && ` before
      `npx -y <package>`, and the awaited promise resolves exactly when that
      command succeeds (lines 313-322). */
  method InstallDependency(generator: Generator, ok: Action -> bool) returns (command: string, resolved: bool)
    requires ValidGenerator(generator)
    ensures var main, previous := "npx -y " + Package(generator), Prerequisite(generator);
      && |command| >= |main| && command[|command| - |main|..] == main
      && (previous == "" ==> command == main)
      && (previous != "" ==> |command| == |previous| + 4 + |main| && command[..|previous| + 4] == previous + " && ")
    ensures resolved == ok(Exec(generator))
  {
    command := Command(generator);
    InstallCommandShape(Package(generator), Prerequisite(generator));
    resolved := ok(Exec(generator));
  }

  /** Two blocks in turn all succeed exactly when each of them does. */
  lemma {:induction false} AllSucceedAppend(a: seq<Step>, b: seq<Step>, ok: Action -> bool)
    ensures AllSucceed(a + b, ok) <==> AllSucceed(a, ok) && AllSucceed(b, ok)
  {
    if a == [] {
      assert a + b == b;
    } else {
      assert (a + b)[0] == a[0] && (a + b)[1..] == a[1..] + b;
      AllSucceedAppend(a[1..], b, ok);
    }
  }

  /** Running two blocks one after the other: the second is attempted only
      when every step of the first succeeded. */
  lemma {:induction false} RunAppend(a: seq<Step>, b: seq<Step>, ok: Action -> bool)
    ensures Run(a + b, ok) == if AllSucceed(a, ok) then a + Run(b, ok) else Run(a, ok)
    ensures AllSucceed(a + b, ok) <==> AllSucceed(a, ok) && AllSucceed(b, ok)
  {
    AllSucceedAppend(a, b, ok);
    if a == [] {
      assert a + b == b;
    } else {
      var ab := a + b;
      assert ab[0] == a[0];
      assert ab[1..] == a[1..] + b;
      if ok(a[0].action) {
        RunAppend(a[1..], b, ok);
        assert Run(ab, ok) == [a[0]] + Run(a[1..] + b, ok);
        assert Run(a, ok) == [a[0]] + Run(a[1..], ok);
        assert AllSucceed(a, ok) == AllSucceed(a[1..], ok);
        if AllSucceed(a, ok) {
          assert a == [a[0]] + a[1..];
          assert [a[0]] + (a[1..] + Run(b, ok)) == ([a[0]] + a[1..]) + Run(b, ok);
        }
      } else {
        assert Run(ab, ok) == [a[0]];
      }
    }
  }

  /** Running the three blocks of the planner in turn. */
  lemma RunBlocks(db: seq<Step>, api: seq<Step>, web: seq<Step>, ok: Action -> bool)
    ensures Run(db + api + web, ok) ==
      if !AllSucceed(db, ok) then Run(db, ok)
      else if !AllSucceed(api, ok) then db + Run(api, ok)
      else db + api + Run(web, ok)
    ensures AllSucceed(db + api + web, ok) <==> AllSucceed(db, ok) && AllSucceed(api, ok) && AllSucceed(web, ok)
  {
    RunAppend(db + api, web, ok);
    RunAppend(db, api, ok);
  }

  /** The database block of createProjectsFolders (lines 213-229). */
  method CreateDbFolder(sel: Selection, ok: Action -> bool) returns (steps: seq<Step>, succeeded: bool)
    ensures steps == Run(DbSteps(sel), ok)
    ensures succeeded == AllSucceed(DbSteps(sel), ok)
  {
    ghost var plan := DbSteps(sel);
    steps, succeeded := [], true;
    if sel.database != NoDatabase {
      var step := Step(DbTier, MakeDir("db"));
      if !ok(step.action) { FirstFailure(plan, steps, ok); return steps + [step], false; }
      steps := steps + [step];
      step := Step(DbTier, MakeDir("db/data"));
      if !ok(step.action) { FirstFailure(plan, steps, ok); return steps + [step], false; }
      steps := steps + [step];
      step := Step(DbTier, WriteFile("db/Dockerfile", DbDockerfileText(sel.database)));
      if !ok(step.action) { FirstFailure(plan, steps, ok); return steps + [step], false; }
      steps := steps + [step];
      assert steps == plan;
      AllSucceedAt(plan, ok);
    }
  }

  /** The API block of createProjectsFolders (lines 231-247). */
  method CreateApiFolder(sel: Selection, root: string, ok: Action -> bool) returns (steps: seq<Step>, succeeded: bool)
    ensures steps == Run(ApiSteps(sel, root), ok)
    ensures succeeded == AllSucceed(ApiSteps(sel, root), ok)
  {
    steps, succeeded := [], true;
    if sel.api != NoApi {
      var command, resolved := InstallDependency(ApiGenerator(sel.api), ok);
      var run := Exec(ApiGenerator(sel.api));
      ghost var copies := ApiSteps(sel, root)[1..];
      RunAppend([Step(ApiTier, run)], copies, ok);
      steps := [Step(ApiTier, run)];
      if !resolved { return steps, false; }
      if sel.api == CocasusApi {
        var step := Step(ApiTier, EnvCopy(root, "cocasus-api"));
        steps, succeeded := steps + [step], ok(step.action);
      }
    }
  }

  /** The fix-ups of a react or vue app, stopping at the first failing call. */
  method FixUpNodeApp(root: string, dir: string, frontBack: FrontBack, ok: Action -> bool) returns (steps: seq<Step>, succeeded: bool)
    ensures steps == Run(NodeAppFixups(root, dir, frontBack), ok)
    ensures succeeded == AllSucceed(NodeAppFixups(root, dir, frontBack), ok)
  {
    ghost var plan := NodeAppFixups(root, dir, frontBack);
    steps := [];
    var step := Step(WebTier, RemoveTree(AppPath(root, dir, ".git")));
    if !ok(step.action) { FirstFailure(plan, steps, ok); return steps + [step], false; }
    steps := steps + [step];
    step := Step(WebTier, WriteFile(AppPath(root, dir, "Dockerfile"), NodeDockerfileText(frontBack)));
    if !ok(step.action) { FirstFailure(plan, steps, ok); return steps + [step], false; }
    steps := steps + [step];
    step := Step(WebTier, WriteFile(AppPath(root, dir, ".env.example"), EnvExampleText));
    if !ok(step.action) { FirstFailure(plan, steps, ok); return steps + [step], false; }
    steps := steps + [step];
    step := Step(WebTier, EnvCopy(root, dir));
    if !ok(step.action) { FirstFailure(plan, steps, ok); return steps + [step], false; }
    steps := steps + [step];
    assert steps == plan;
    AllSucceedAt(plan, ok);
    succeeded := true;
  }

  /** What the front/back block does after the generator has run. */
  method FixUpWebApp(frontBack: FrontBack, root: string, ok: Action -> bool) returns (steps: seq<Step>, succeeded: bool)
    ensures steps == Run(WebFixups(frontBack, root), ok)
    ensures succeeded == AllSucceed(WebFixups(frontBack, root), ok)
  {
    match frontBack
    case ReactWeb =>
      steps, succeeded := FixUpNodeApp(root, "my-react-app", ReactWeb, ok);
    case VueWeb =>
      steps, succeeded := FixUpNodeApp(root, "my-vue-app", VueWeb, ok);
    case CocasusWeb =>
      var step := Step(WebTier, EnvCopy(root, "cocasus-app"));
      steps, succeeded := [step], ok(step.action);
    case _ =>
      steps, succeeded := [], true;
  }

  /** The front/back block of createProjectsFolders (lines 249-296). */
  method CreateWebFolder(sel: Selection, root: string, ok: Action -> bool) returns (steps: seq<Step>, succeeded: bool)
    ensures steps == Run(WebSteps(sel, root), ok)
    ensures succeeded == AllSucceed(WebSteps(sel, root), ok)
  {
    steps, succeeded := [], true;
    if sel.frontBack != NoFrontBack {
      var command, resolved := InstallDependency(WebGenerator(sel.frontBack), ok);
      var run := Exec(WebGenerator(sel.frontBack));
      RunAppend([Step(WebTier, run)], WebFixups(sel.frontBack, root), ok);
      steps := [Step(WebTier, run)];
      if !resolved { return steps, false; }
      var fixups;
      fixups, succeeded := FixUpWebApp(sel.frontBack, root, ok);
      steps := steps + fixups;
    }
  }

  /** createProjectsFolders: the steps it attempts are the plan up to the
      first failure, and the compose document is built only when every step
      succeeded (line 298 is reached only when no awaited call rejected). */
  method CreateProjectsFolders(sel: Selection, root: string, ok: Action -> bool)
    returns (trace: seq<Step>, compose: Option<Result<Document, ComposeError>>)
    ensures trace == Run(Plan(sel, root), ok)
    ensures compose.Some? <==> AllSucceed(Plan(sel, root), ok)
    ensures compose.Some? ==> compose.value == Composition(sel)
  {
    ghost var db, api, web := DbSteps(sel), ApiSteps(sel, root), WebSteps(sel, root);
    RunBlocks(db, api, web, ok);
    compose := None;
    var steps, succeeded := CreateDbFolder(sel, ok);
    trace := steps;
    if !succeeded { return; }
    steps, succeeded := CreateApiFolder(sel, root, ok);
    trace := trace + steps;
    if !succeeded { return; }
    steps, succeeded := CreateWebFolder(sel, root, ok);
    trace := trace + steps;
    if !succeeded { return; }
    var document := CreateDockerCompose(sel);
    compose := Some(document);
  }
}
