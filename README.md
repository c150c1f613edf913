# docker-tool scaffolder, modelled in Dafny

`bin/index.js` is an interactive generator. It asks for:

- a project name;
- a database (none, MySQL or PostgreSQL, with four credentials);
- an API framework (none, cocasus, Express or Flask);
- a front/back framework (none, cocasus, React, Vue or Flask).

It then does two things:

1. It scaffolds one folder per chosen tier. It writes files and runs boilerplate generators through `npx`.
2. It builds a `docker-compose.yml` document for the chosen tiers.

This project models those two parts and proves what they promise.

- `selection.dfy` (`Selection`): the answers as one immutable record. Database, API and framework are closed enumerations. The credentials live inside the two database constructors, so they exist exactly when a database was chosen.
- `compose.dfy` (`Compose`): the compose document built by `createDockerCompose`.
  - `WebService`, `ApiService` and `DbService` are the service records.
  - `Composition` is the declarative description of the result.
  - `CreateDockerCompose` is the source's step-by-step construction. It fills a `services` map in source order: `depends_on` of web is written before the api entry exists, and line 434 reads `depends_on` of the api entry back. It is proved to compute `Composition`.
  - A selection with a database, no API and a front/back framework makes line 434 dereference a missing `api` service. The source throws a TypeError there. The model returns `Failure(ApiServiceUndefined)`.
- `compose_properties.dfy` (`ComposeProperties`): properties of the document.
  - the fixed frame of version, network, keys and network membership;
  - ports and names, and that container names are distinct;
  - credentials copied verbatim;
  - dependency edges and their resolution, and that the fallback at line 435 is dead;
  - the scenarios.
- `scaffold.dfy` (`Scaffold`): `createProjectsFolders` and the command built by `installDependency`.
  - Every filesystem call and every generator run is an `Action`. A `Step` records the tier that issues it.
  - `Plan` lists the steps taken when nothing fails. `Run` is the prefix of the plan that is attempted: everything up to and including the first failing action.
  - Whether an action succeeds is decided by an oracle `ok`.
  - The block methods (`CreateDbFolder`, `CreateApiFolder`, `CreateWebFolder`) follow the source statement by statement and stop at the first failure. `CreateProjectsFolders` chains them and calls `CreateDockerCompose` only when every step succeeded.
- `scaffold_properties.dfy` (`ScaffoldProperties`): properties of the plan and of its runs.
  - one generator per active tier, API before front/back;
  - only vue chains a prerequisite;
  - tiers in the order database, API, front/back, also in any cut-short run;
  - the db files exist exactly when a database was chosen;
  - Dockerfile texts;
  - `.env` copies and Dockerfiles land in the compose build contexts.
- `wrappers.dfy` (`Wrappers`): `Option` and `Result`.

Line 435 shows the intended fallback: web depends on db when there is no API. The code never reaches it, because line 434 throws first. The model follows the code, and keeps the intended document as a separate, corrected builder (see Findings).

## Model

| member | source | states |
|---|---|---|
| Selection.ApiValue | bin/index.js:109-126 | the value stored for an API choice is "none" exactly for the no-API choice |
| Selection.FrontBackValue | bin/index.js:144-165 | the value stored for a framework choice is "none" exactly for the no-framework choice |
| Compose.WebService | bin/index.js:336-385 | for every framework the web service is built from its own context with `Dockerfile`, is named `{name}-{framework}-web` as image and container, publishes 8080:8080, mounts its context on /app/web except for cocasus (no volumes), joins back-network and has no environment |
| Compose.ApiService | bin/index.js:392-427 | for every API framework the api service is built from its context, is named `{name}-{framework}-api`, publishes 5000:5000, mounts its context on /app/api except for cocasus, joins back-network |
| Compose.DbService | bin/index.js:438-474 | the db service is built from `db`, named `{name}-db`, publishes 3306:3306 (MySQL) or 5432:5432 (PostgreSQL), keeps its data under ./db/data, and its environment has exactly the engine's four variables, each bound to the matching credential |
| Compose.SetDependsOn | bin/index.js:387-433 | the `depends_on` assignments of lines 389 and 432 need an existing entry (assigning through a missing one throws), set that entry's `depends_on` and leave the key set and every other entry unchanged |
| Compose.CreateDockerCompose | bin/index.js:326-475 | the source's sequence of writes and the read at line 434 produce `Composition`: the TypeError exactly when a database and a framework are chosen without an API, the document otherwise |
| ComposeProperties.DocumentShape | bin/index.js:326-475 | version 3.7, one `back-network` bridge network, web/api/db present exactly when their tier is chosen and no other key, every service on back-network, environment only on db |
| ComposeProperties.PortsAndNames | bin/index.js:336-474 | image equals container name for every service; web 8080:8080 and `{name}-{framework}-web`, api 5000:5000 and `{name}-{framework}-api`, db `{name}-db` with 3306:3306 or 5432:5432, whatever the other tiers |
| ComposeProperties.CredentialsCopied | bin/index.js:447-471 | the four credentials reach the db environment unchanged under MYSQL_* or POSTGRES_* names, with the engine's data volume |
| ComposeProperties.DependencyEdges | bin/index.js:387-436 | web depends on api when both exist, api on db when both exist and on nothing otherwise, web never on db, db on nothing, and without an API nothing depends on anything |
| ComposeProperties.DependenciesResolve | bin/index.js:387-436 | every `depends_on` entry names a service of the document that starts earlier (db before api before web) |
| ComposeProperties.ContainerNamesDistinct | bin/index.js:343-463 | no two services share a container name, whatever the project name |
| ComposeProperties.FallbackNeverFires | bin/index.js:430-436 | the builder fails exactly on the selections of line 434's bad read, and no document it returns has web depending on db |
| ComposeProperties.IntendedAgrees | bin/index.js:430-436 | wherever the source does not throw, its document is the corrected one |
| ComposeProperties.IntendedDependencyEdges | bin/index.js:430-436 | in the corrected document web depends on api, else on db, else on nothing; api on db when present; db on nothing |
| ComposeProperties.IntendedDependenciesResolve | bin/index.js:430-436 | in the corrected document too, every edge points to an existing service that starts earlier |
| ComposeProperties.ScenarioFullStack | bin/index.js:326-475 | MySQL + Express + React, under any name and credentials, gives exactly web, api and db and the chain web→api→db |
| ComposeProperties.ScenarioFullStackNames | bin/index.js:326-475 | the same selection names its images `{name}-db`, `{name}-express-api` and `{name}-react-web` (demo-db, demo-express-api, demo-react-web for "demo") |
| ComposeProperties.ScenarioVueOnly | bin/index.js:326-475 | demo + Vue alone gives only web, without depends_on |
| ComposeProperties.ScenarioPostgresCocasus | bin/index.js:430-436 | demo + PostgreSQL + no API + cocasus makes the source throw, while the corrected document has web and db, web→db and no web volume |
| Scaffold.InstallCommandShape | bin/index.js:312 | the command ends with `npx -y <package>`; it is exactly that without a prerequisite, and otherwise starts with the prerequisite followed by ` && ` |
| Scaffold.AllSucceedAt | bin/index.js:210-299 | all actions of a block succeed exactly when each of them does |
| Scaffold.Run | bin/index.js:210-299 | the attempted steps are a prefix of the plan; all of it when every action succeeds, otherwise successful steps followed by the failing one |
| Scaffold.FirstFailure | bin/index.js:210-299 | when the steps done so far succeeded and the next fails, the run is those steps plus the failing one |
| Scaffold.RunAppend | bin/index.js:210-299 | running two blocks in turn attempts the second only when the whole first succeeded |
| Scaffold.RunBlocks | bin/index.js:210-299 | the same for the database, API and front/back blocks |
| Scaffold.InstallDependency | bin/index.js:301-323 | the shell command of line 312 ends with `npx -y <package>`, is exactly that without a prerequisite and otherwise starts with the prerequisite followed by ` && `; the awaited promise resolves exactly when the generator's run succeeds |
| Scaffold.CreateDbFolder | bin/index.js:213-229 | the steps the database block attempts are the run of its plan, and it reports success exactly when all succeeded |
| Scaffold.CreateApiFolder | bin/index.js:231-247 | the same for the API block, stopping after a rejected generator |
| Scaffold.FixUpNodeApp | bin/index.js:256-269 | the same for the react/vue fix-ups (.git removal, Dockerfile, .env.example, .env copy) |
| Scaffold.FixUpWebApp | bin/index.js:253-294 | the same for whatever follows the front/back generator |
| Scaffold.CreateWebFolder | bin/index.js:249-296 | the same for the front/back block |
| Scaffold.CreateProjectsFolders | bin/index.js:210-299 | the steps attempted are the run of the whole plan, and the compose document is built, equal to `Composition`, exactly when every step succeeded |
| ScaffoldProperties.ExecsAppend | bin/index.js:231-296 | the generator runs of two blocks are those of the first, then those of the second |
| ScaffoldProperties.ExecsOfMembers | bin/index.js:231-296 | the generator runs of a block are exactly its steps that run a generator |
| ScaffoldProperties.ExecsMember | bin/index.js:231-296 | every generator run of a block is among its generator runs |
| ScaffoldProperties.NoExecHasNoExecs | bin/index.js:213-229 | a block without generator actions contributes no generator run |
| ScaffoldProperties.DbBlock | bin/index.js:213-229 | the database block belongs to its tier, runs no generator, writes only defined files and is non-empty exactly when a database was chosen |
| ScaffoldProperties.ApiBlock | bin/index.js:231-247 | the API block runs its generator first, then only for cocasus copies .env.example to .env inside the API's build context |
| ScaffoldProperties.NodeBlock | bin/index.js:256-269 | every path the react/vue fix-ups touch (the .git removal, both files written, the copy) lies under `<root>/<app>/`; they run no generator, and their only copy is .env.example to .env |
| ScaffoldProperties.WebFixupsBlock | bin/index.js:253-294 | every copy after the front/back generator is .env.example to .env inside the web build context (none for Flask), and react/vue write their Dockerfile where the compose build reads it |
| ScaffoldProperties.WebBlock | bin/index.js:249-296 | the front/back block runs its generator first, then the fix-ups, and exists exactly when a framework was chosen |
| ScaffoldProperties.ApiExecs | bin/index.js:231-247 | the API block runs exactly one generator when an API was chosen and none otherwise |
| ScaffoldProperties.WebExecs | bin/index.js:249-296 | the front/back block runs exactly one generator when a framework was chosen and none otherwise |
| ScaffoldProperties.OneGeneratorPerTier | bin/index.js:231-296 | the plan runs exactly one generator per chosen API or framework, the API one first, and none for the database |
| ScaffoldProperties.PlanWellFormed | bin/index.js:210-299 | every file the plan writes and every generator it runs is one the source defines |
| ScaffoldProperties.ApiGeneratorPackages | bin/index.js:232-240 | Express runs `@rharkor/express-api-boilerplate --no-interaction`, Flask `@rharkor/flask-api-boilerplate  --no-interaction` (two spaces, as written), cocasus `cocasus init --type api --name cocasus-app --root ./cocasus-api --deps false` |
| ScaffoldProperties.WebGeneratorPackages | bin/index.js:250-289 | Flask runs `@rharkor/flask-web-boilerplate  --no-interaction`, React `create-react-app my-react-app`, Vue `vue create my-vue-app --default`, cocasus `cocasus init --type web --name cocasus-web --root ./cocasus-app --deps false` |
| ScaffoldProperties.GeneratorPrerequisites | bin/index.js:270-272 | a generator has a prerequisite exactly when it is vue's, and that prerequisite is `npm i -g @vue/cli` |
| ScaffoldProperties.ReactScaffoldsBuildContext | bin/index.js:253-254 | create-react-app creates the folder the react web service is built from |
| ScaffoldProperties.VueScaffoldsBuildContext | bin/index.js:270-272 | vue create creates the folder the vue web service is built from |
| ScaffoldProperties.CocasusApiScaffoldsBuildContext | bin/index.js:238-241 | the cocasus API generator's `--root` is the api service's build context |
| ScaffoldProperties.CocasusWebScaffoldsBuildContext | bin/index.js:287-290 | the cocasus web generator's `--root` is the web service's build context |
| ScaffoldProperties.OnlyVueChains | bin/index.js:272 | only the vue generator carries a prerequisite |
| ScaffoldProperties.VueCommand | bin/index.js:271-272 | vue runs `npm i -g @vue/cli`, then ` && `, then `npx -y vue create my-vue-app --default` |
| ScaffoldProperties.BlocksInOrder | bin/index.js:210-299 | a database block, an API block and a front/back block in turn keep the order of the tiers |
| ScaffoldProperties.PlanTiersInOrder | bin/index.js:210-299 | the plan runs the database tier, then the API tier, then the front/back tier, each only when chosen |
| ScaffoldProperties.RunStopsAtFailure | bin/index.js:210-299 | nothing after a failing action is attempted, and the plan then does not succeed |
| ScaffoldProperties.TraceTiersInOrder | bin/index.js:210-299 | under every outcome of the calls the attempted steps keep the tier order, and a failure at any step cuts the run short there and never reaches createDockerCompose |
| ScaffoldProperties.DbStepsInBuildContext | bin/index.js:213-229 | the database block creates the db service's build folder, its data folder and the Dockerfile the build reads |
| ScaffoldProperties.NoDatabaseNoDbFiles | bin/index.js:213-229 | without a database the plan creates no folder, writes neither db/Dockerfile nor any database Dockerfile, and has no database step |
| ScaffoldProperties.DbFilesIffDatabase | bin/index.js:213-229 | db, db/data and db/Dockerfile are created first when a database was chosen, and none of them otherwise; the Dockerfile sits where the db service's build reads it |
| ScaffoldProperties.DbDockerfileExposesServicePort | bin/index.js:220-226 | the db Dockerfile is `FROM mysql:5.7` exposing 3306 or `FROM postgres:9.6` exposing 5432, and it exposes the port the db service publishes |
| ScaffoldProperties.NodeDockerfilesDifferOnlyInCmd | bin/index.js:259-277 | the react and vue Dockerfiles are identical up to CMD, which is `npm start` for react and `npm run serve` for vue |
| ScaffoldProperties.FilesLandInBuildContexts | bin/index.js:238-294 | every copy in the plan turns .env.example into .env inside the compose build context of the copying tier, and react/vue Dockerfiles are written where the web build reads them |

## Left out

- The prompt chain and the global `allData` accumulator (lines 13-172) are replaced by the `Selection` record. The interactive I/O is not modelled.
- `clearFolder` (lines 174-208) is left out: it lists and deletes directories, which is filesystem I/O.
- `child_process.exec` and the filesystem calls are not executed. Each becomes an action whose success is decided by the oracle `ok`. Partial effects of a failing call are not modelled.
- The spinner of `installDependency` (lines 302-309, 314-316) is left out: the timer, the `BottomBar` UI and the loader glyphs are user interface and timing.
- The error message printed on a failed install is left out, as output only.
- The YAML dump, the write of `docker-compose.yml` and the closing message (lines 477-486) are left out as foreign library calls and I/O. The model stops at the document value.
- `process.cwd()` (line 9) is the opaque `root` string in the paths of the API and front/back blocks. The db block's paths stay relative, as in the source.
- Compose.Document: key order is not modelled. Services, networks and environment variables are Dafny maps, so the order in which YAML would print them is absent.
- Scaffold.Action: files written are named by what they hold (`FileText`), and generator runs by their generator. `Contents` and `Command` give the exact text and shell command.
- Scaffold.CreateProjectsFolders: it builds the document with the source's `CreateDockerCompose`, so it inherits the failure at line 434. The corrected builder `Compose.IntendedComposition` is proved separately.
- Compose.CreateDockerCompose: the write of line 435 sits in a branch that can never be taken, so the method asserts that branch unreachable instead of performing the write. `Compose.IntendedComposition` carries that write.
- A `mkdir` that would fail because the folder exists, and similar filesystem states, are not modelled beyond the oracle's answer.

## Findings

| source | as written | input that shows it | evidently intended | confidence | as-written member | corrected member |
|---|---|---|---|---|---|---|
| bin/index.js:434-435 | the guard reads `content.services.api.depends_on` even when no api service was created; the fallback `web.depends_on = ["db"]` can therefore never run, and the read throws a TypeError so no docker-compose.yml is written | name "demo", PostgreSQL, API none, framework cocasus (any database, no API, any framework) | web depends on db when there is a database but no API, and the document is written | high; not executed | ComposeProperties.ScenarioPostgresCocasus | Compose.IntendedComposition |
