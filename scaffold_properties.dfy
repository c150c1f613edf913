/** Properties of the scaffold plan and of its runs: which files the
    planner writes and where, one generator per active tier, the fixed order
    of the tiers, and how a failure cuts the run short. */
module ScaffoldProperties {
  import opened Selection
  import opened Compose
  import opened Scaffold

  /** The generator runs among some steps, in order. */
  function ExecsOf(steps: seq<Step>): (execs: seq<Step>)
    ensures |execs| <= |steps|
  {
    if steps == [] then []
    else (if steps[0].action.Exec? then [steps[0]] else []) + ExecsOf(steps[1..])
  }

  lemma {:induction false} ExecsAppend(a: seq<Step>, b: seq<Step>)
    ensures ExecsOf(a + b) == ExecsOf(a) + ExecsOf(b)
  {
    if a != [] {
      assert (a + b)[0] == a[0] && (a + b)[1..] == a[1..] + b;
      ExecsAppend(a[1..], b);
    } else {
      assert a + b == b;
    }
  }

  /** The generator runs among some steps are exactly their Exec steps. */
  lemma {:induction false} ExecsOfMembers(steps: seq<Step>)
    ensures forall s :: s in ExecsOf(steps) <==> s in steps && s.action.Exec?
  {
    if steps != [] {
      ExecsOfMembers(steps[1..]);
      assert forall s :: s in steps <==> s == steps[0] || s in steps[1..];
    }
  }

  lemma {:induction false} ExecsMember(steps: seq<Step>, s: Step)
    requires s in steps && s.action.Exec?
    ensures s in ExecsOf(steps)
  {
    if steps[0] != s {
      assert s in steps[1..];
      ExecsMember(steps[1..], s);
    }
  }

  /** Every step of `steps` belongs to `tier`. */
  predicate InTier(steps: seq<Step>, tier: Tier)
  {
    forall s :: s in steps ==> s.tier == tier
  }

  /** No step of `steps` runs a generator. */
  predicate NoExec(steps: seq<Step>)
  {
    forall s :: s in steps ==> !s.action.Exec?
  }

  /** Every file written and every generator run is one the source defines. */
  predicate WellFormed(steps: seq<Step>)
  {
    forall s :: s in steps ==>
      && (s.action.WriteFile? ==> ValidFileText(s.action.text))
      && (s.action.Exec? ==> ValidGenerator(s.action.generator))
  }

  lemma {:induction false} NoExecHasNoExecs(steps: seq<Step>)
    requires NoExec(steps)
    ensures ExecsOf(steps) == []
  {
    if steps != [] {
      assert forall s :: s in steps[1..] ==> s in steps;
      NoExecHasNoExecs(steps[1..]);
    }
  }

  /** The database block: three steps of its own tier, none of them a
      generator, exactly when a database was chosen. */
  lemma DbBlock(sel: Selection)
    ensures InTier(DbSteps(sel), DbTier) && NoExec(DbSteps(sel)) && WellFormed(DbSteps(sel))
    ensures DbSteps(sel) != [] <==> sel.database != NoDatabase
  {
  }

  /** The API block: the generator first, then, for cocasus only, the copy of
      .env.example inside the API's build context. */
  lemma ApiBlock(sel: Selection, root: string)
    ensures InTier(ApiSteps(sel, root), ApiTier) && WellFormed(ApiSteps(sel, root))
    ensures ApiSteps(sel, root) != [] <==> sel.api != NoApi
    ensures sel.api != NoApi ==>
      && ApiSteps(sel, root)[0] == Step(ApiTier, Exec(ApiGenerator(sel.api)))
      && NoExec(ApiSteps(sel, root)[1..])
      && ApiSteps(sel, root)[1..] ==
           if sel.api == CocasusApi then [Step(ApiTier, EnvCopy(root, ApiContext(sel.api)))] else []
  {
  }

  /** `path` lies under the folder prefix `dir` (which ends with `/`). */
  predicate Under(path: string, dir: string)
  {
    |dir| <= |path| && path[..|dir|] == dir
  }

  /** Every path the action touches lies under `dir`; a generator run
      touches the working directory itself, so it never does. */
  predicate ActionUnder(action: Action, dir: string)
  {
    match action
    case MakeDir(path) => Under(path, dir)
    case WriteFile(path, _) => Under(path, dir)
    case CopyFile(source, target) => Under(source, dir) && Under(target, dir)
    case RemoveTree(path) => Under(path, dir)
    case Exec(_) => false
  }

  /** The fix-ups of a react or vue app stay in its folder: the .git
      removal, both files written and the copy all lie under
      `<root>/<dir>/`. */
  lemma NodeBlock(root: string, dir: string, frontBack: FrontBack)
    requires frontBack == ReactWeb || frontBack == VueWeb
    ensures InTier(NodeAppFixups(root, dir, frontBack), WebTier) && NoExec(NodeAppFixups(root, dir, frontBack))
    ensures WellFormed(NodeAppFixups(root, dir, frontBack))
    ensures forall s :: s in NodeAppFixups(root, dir, frontBack) ==> ActionUnder(s.action, root + "/" + dir + "/")
    ensures forall s :: s in NodeAppFixups(root, dir, frontBack) && s.action.CopyFile? ==> s.action == EnvCopy(root, dir)
  {
  }

  /** What follows the front/back generator happens inside the web service's
      build context: every copy from .env.example to .env, and the react and
      vue Dockerfile, under the name the compose build uses. */
  lemma WebFixupsBlock(frontBack: FrontBack, root: string)
    ensures InTier(WebFixups(frontBack, root), WebTier) && NoExec(WebFixups(frontBack, root))
    ensures WellFormed(WebFixups(frontBack, root))
    ensures forall s :: s in WebFixups(frontBack, root) && s.action.CopyFile? ==>
      frontBack != NoFrontBack && frontBack != FlaskWeb && s.action == EnvCopy(root, WebContext(frontBack))
    ensures frontBack == ReactWeb || frontBack == VueWeb ==>
      var build := Build(WebContext(frontBack), "Dockerfile");
      |WebFixups(frontBack, root)| > 1 &&
      WebFixups(frontBack, root)[1] ==
        Step(WebTier, WriteFile(AppPath(root, build.context, build.dockerfile), NodeDockerfileText(frontBack)))
  {
    if frontBack == ReactWeb || frontBack == VueWeb {
      NodeBlock(root, WebContext(frontBack), frontBack);
    }
  }

  /** The front/back block: its generator first, then the fix-ups. */
  lemma WebBlock(sel: Selection, root: string)
    ensures InTier(WebSteps(sel, root), WebTier) && WellFormed(WebSteps(sel, root))
    ensures WebSteps(sel, root) != [] <==> sel.frontBack != NoFrontBack
    ensures sel.frontBack != NoFrontBack ==>
      && WebSteps(sel, root)[0] == Step(WebTier, Exec(WebGenerator(sel.frontBack)))
      && WebSteps(sel, root)[1..] == WebFixups(sel.frontBack, root)
  {
    WebFixupsBlock(sel.frontBack, root);
  }

  lemma ApiExecs(sel: Selection, root: string)
    ensures ExecsOf(ApiSteps(sel, root)) == if sel.api != NoApi then [Step(ApiTier, Exec(ApiGenerator(sel.api)))] else []
  {
    var api := ApiSteps(sel, root);
    ApiBlock(sel, root);
    if api != [] {
      ExecsAppend([api[0]], api[1..]);
      assert [api[0]] + api[1..] == api;
      NoExecHasNoExecs(api[1..]);
    }
  }

  lemma WebExecs(sel: Selection, root: string)
    ensures ExecsOf(WebSteps(sel, root)) == if sel.frontBack != NoFrontBack then [Step(WebTier, Exec(WebGenerator(sel.frontBack)))] else []
  {
    var web := WebSteps(sel, root);
    WebBlock(sel, root);
    if web != [] {
      WebFixupsBlock(sel.frontBack, root);
      ExecsAppend([web[0]], web[1..]);
      assert [web[0]] + web[1..] == web;
      NoExecHasNoExecs(web[1..]);
    }
  }

  /** Each active API or front/back tier runs exactly one generator, the API
      one before the front/back one, and the database tier runs none. */
  lemma OneGeneratorPerTier(sel: Selection, root: string)
    ensures ExecsOf(Plan(sel, root)) ==
      (if sel.api != NoApi then [Step(ApiTier, Exec(ApiGenerator(sel.api)))] else [])
      + (if sel.frontBack != NoFrontBack then [Step(WebTier, Exec(WebGenerator(sel.frontBack)))] else [])
    ensures |ExecsOf(Plan(sel, root))| == (if sel.api != NoApi then 1 else 0) + (if sel.frontBack != NoFrontBack then 1 else 0)
  {
    var db, api, web := DbSteps(sel), ApiSteps(sel, root), WebSteps(sel, root);
    DbBlock(sel);
    NoExecHasNoExecs(db);
    ApiExecs(sel, root);
    WebExecs(sel, root);
    ExecsAppend(db + api, web);
    ExecsAppend(db, api);
  }

  /** Every file the plan writes and every generator it runs is one the
      source defines. */
  lemma PlanWellFormed(sel: Selection, root: string)
    ensures WellFormed(Plan(sel, root))
  {
    DbBlock(sel);
    ApiBlock(sel, root);
    WebBlock(sel, root);
  }

  /** The package each API generator hands to npx (lines 232-240). */
  lemma ApiGeneratorPackages()
    ensures Package(ApiGenerator(ExpressApi)) == "@rharkor/express-api-boilerplate --no-interaction"
    ensures Package(ApiGenerator(FlaskApi)) == "@rharkor/flask-api-boilerplate  --no-interaction"
    ensures Package(ApiGenerator(CocasusApi)) == "cocasus init --type api --name cocasus-app --root ./cocasus-api --deps false"
  {
  }

  /** The package each front/back generator hands to npx (lines 250-289). */
  lemma WebGeneratorPackages()
    ensures Package(WebGenerator(FlaskWeb)) == "@rharkor/flask-web-boilerplate  --no-interaction"
    ensures Package(WebGenerator(ReactWeb)) == "create-react-app my-react-app"
    ensures Package(WebGenerator(VueWeb)) == "vue create my-vue-app --default"
    ensures Package(WebGenerator(CocasusWeb)) == "cocasus init --type web --name cocasus-web --root ./cocasus-app --deps false"
  {
  }

  /** Only vue has a prerequisite: the global install of the vue CLI
      (line 272). */
  lemma GeneratorPrerequisites(g: Generator)
    ensures Prerequisite(g) != "" <==> g == WebGenerator(VueWeb)
    ensures g == WebGenerator(VueWeb) ==> Prerequisite(g) == "npm i -g @vue/cli"
  {
  }

  /** create-react-app scaffolds into the react service's build context. */
  lemma ReactScaffoldsBuildContext()
    ensures Package(WebGenerator(ReactWeb)) == "create-react-app " + WebContext(ReactWeb)
  {
    assert "create-react-app " + "my-react-app" == "create-react-app my-react-app";
  }

  /** vue create scaffolds into the vue service's build context. */
  lemma VueScaffoldsBuildContext()
    ensures Package(WebGenerator(VueWeb)) == "vue create " + WebContext(VueWeb) + " --default"
  {
    assert "vue create " + "my-vue-app" + " --default" == "vue create my-vue-app --default";
  }

  /** The cocasus API generator's `--root` is the api service's build
      context. */
  lemma CocasusApiScaffoldsBuildContext()
    ensures Package(ApiGenerator(CocasusApi))
      == "cocasus init --type api --name cocasus-app --root ./" + ApiContext(CocasusApi) + " --deps false"
  {
    assert "cocasus init --type api --name cocasus-app --root ./" + "cocasus-api" + " --deps false"
      == "cocasus init --type api --name cocasus-app --root ./cocasus-api --deps false";
  }

  /** The cocasus web generator's `--root` is the web service's build
      context. */
  lemma CocasusWebScaffoldsBuildContext()
    ensures Package(WebGenerator(CocasusWeb))
      == "cocasus init --type web --name cocasus-web --root ./" + WebContext(CocasusWeb) + " --deps false"
  {
    assert "cocasus init --type web --name cocasus-web --root ./" + "cocasus-app" + " --deps false"
      == "cocasus init --type web --name cocasus-web --root ./cocasus-app --deps false";
  }

  /** Only the vue generator has a prerequisite; by InstallCommandShape every
      other generator runs `npx -y <package>` alone. */
  lemma OnlyVueChains(sel: Selection, root: string)
    ensures forall s :: s in Plan(sel, root) && s.action.Exec? && Prerequisite(s.action.generator) != "" ==>
      s.tier == WebTier && s.action.generator == WebGenerator(VueWeb)
  {
    var plan := Plan(sel, root);
    OneGeneratorPerTier(sel, root);
    forall s | s in plan && s.action.Exec? && Prerequisite(s.action.generator) != ""
      ensures s.tier == WebTier && s.action.generator == WebGenerator(VueWeb)
    {
      ExecsMember(plan, s);
      GeneratorPrerequisites(s.action.generator);
    }
  }

  /** The vue generator is chained after the global install of the vue CLI:
      the shell runs `npm i -g @vue/cli && npx -y vue create my-vue-app
      --default`. */
  lemma VueCommand()
    ensures Command(WebGenerator(VueWeb))
      == "npm i -g @vue/cli" + " && " + "npx -y " + "vue create my-vue-app --default"
  {
  }

  /** Steps of an earlier tier never come after steps of a later one. */
  predicate TiersInOrder(steps: seq<Step>)
  {
    forall i, j :: 0 <= i < j < |steps| ==> TierRank(ServiceKey(steps[i].tier)) <= TierRank(ServiceKey(steps[j].tier))
  }

  /** Three blocks of successive tiers, one after the other, keep the order
      of the tiers. */
  lemma BlocksInOrder(db: seq<Step>, api: seq<Step>, web: seq<Step>)
    requires InTier(db, DbTier) && InTier(api, ApiTier) && InTier(web, WebTier)
    ensures TiersInOrder(db + api + web)
  {
    var plan := db + api + web;
    forall i | 0 <= i < |plan|
      ensures TierRank(ServiceKey(plan[i].tier)) == if i < |db| then 0 else if i < |db| + |api| then 1 else 2
    {
      if i < |db| {
        assert plan[i] == db[i];
      } else if i < |db| + |api| {
        assert plan[i] == api[i - |db|];
      } else {
        assert plan[i] == web[i - |db| - |api|];
      }
    }
  }

  /** The plan runs the database tier, then the API tier, then the
      front/back tier, and a tier contributes steps only when it was chosen. */
  lemma PlanTiersInOrder(sel: Selection, root: string)
    ensures TiersInOrder(Plan(sel, root))
    ensures forall s :: s in Plan(sel, root) ==>
      && (s.tier == DbTier ==> sel.database != NoDatabase)
      && (s.tier == ApiTier ==> sel.api != NoApi)
      && (s.tier == WebTier ==> sel.frontBack != NoFrontBack)
  {
    DbBlock(sel);
    ApiBlock(sel, root);
    WebBlock(sel, root);
    BlocksInOrder(DbSteps(sel), ApiSteps(sel, root), WebSteps(sel, root));
  }

  /** A run stops at the first failing action: nothing after it is
      attempted. */
  lemma {:induction false} RunStopsAtFailure(plan: seq<Step>, ok: Action -> bool, i: nat)
    requires i < |plan| && !ok(plan[i].action)
    ensures |Run(plan, ok)| <= i + 1
    ensures !AllSucceed(plan, ok)
  {
    if i > 0 && ok(plan[0].action) {
      assert plan[1..][i - 1] == plan[i];
      RunStopsAtFailure(plan[1..], ok, i - 1);
    }
  }

  /** Whatever succeeds or fails, the steps attempted keep the order of the
      tiers, and a failure anywhere in the plan cuts the run short there and
      means the compose document is never built. */
  lemma TraceTiersInOrder(sel: Selection, root: string, ok: Action -> bool)
    ensures TiersInOrder(Run(Plan(sel, root), ok))
    ensures forall i :: 0 <= i < |Plan(sel, root)| && !ok(Plan(sel, root)[i].action) ==>
      |Run(Plan(sel, root), ok)| <= i + 1 && !AllSucceed(Plan(sel, root), ok)
  {
    var plan := Plan(sel, root);
    PlanTiersInOrder(sel, root);
    var done := Run(plan, ok);
    assert forall k :: 0 <= k < |done| ==> done[k] == plan[k];
    forall i | 0 <= i < |plan| && !ok(plan[i].action)
      ensures |done| <= i + 1 && !AllSucceed(plan, ok)
    {
      RunStopsAtFailure(plan, ok, i);
    }
  }

  /** The database block names the folder the db service is built from. */
  lemma DbStepsInBuildContext(sel: Selection)
    requires sel.database != NoDatabase
    ensures var build := DbService(sel.name, sel.database).build;
      DbSteps(sel) ==
        [Step(DbTier, MakeDir(build.context)), Step(DbTier, MakeDir(build.context + "/data")),
         Step(DbTier, WriteFile(build.context + "/" + build.dockerfile, DbDockerfileText(sel.database)))]
  {
    assert "db" + "/data" == "db/data";
    assert "db" + "/" + "Dockerfile" == "db/Dockerfile";
  }

  /** A step that neither belongs to the database tier nor creates a folder
      nor writes the database Dockerfile. */
  predicate NoDbFile(s: Step)
  {
    && s.tier != DbTier
    && !s.action.MakeDir?
    && !(s.action.WriteFile? && (s.action.path == "db/Dockerfile" || s.action.text.DbDockerfileText?))
  }

  /** Without a database, the plan creates no folder and writes no database
      Dockerfile. */
  lemma NoDatabaseNoDbFiles(sel: Selection, root: string)
    requires sel.database == NoDatabase
    ensures forall s :: s in Plan(sel, root) ==> NoDbFile(s)
  {
    var api, web := ApiSteps(sel, root), WebSteps(sel, root);
    assert Plan(sel, root) == api + web;
    ApiBlock(sel, root);
    assert forall s :: s in api ==> NoDbFile(s);
    forall s | s in web
      ensures NoDbFile(s)
    {
      if s.action.WriteFile? {
        assert sel.frontBack == ReactWeb || sel.frontBack == VueWeb;
        var dir := WebContext(sel.frontBack);
        assert s in NodeAppFixups(root, dir, sel.frontBack);
        assert |s.action.path| > |"db/Dockerfile"|;
      }
    }
  }

  /** The database folder, its data folder and its Dockerfile are created,
      first, exactly when a database was chosen, and the Dockerfile sits
      where the db service's build looks for it. */
  lemma DbFilesIffDatabase(sel: Selection, root: string)
    ensures sel.database == NoDatabase ==> forall s :: s in Plan(sel, root) ==> NoDbFile(s)
    ensures sel.database != NoDatabase ==>
      var build := DbService(sel.name, sel.database).build;
      && |Plan(sel, root)| >= 3
      && Plan(sel, root)[..3] ==
        [Step(DbTier, MakeDir(build.context)), Step(DbTier, MakeDir(build.context + "/data")),
         Step(DbTier, WriteFile(build.context + "/" + build.dockerfile, DbDockerfileText(sel.database)))]
  {
    if sel.database == NoDatabase {
      NoDatabaseNoDbFiles(sel, root);
    } else {
      var db, rest := DbSteps(sel), ApiSteps(sel, root) + WebSteps(sel, root);
      assert Plan(sel, root) == db + rest;
      assert |db| == 3;
      assert (db + rest)[..3] == db;
      DbStepsInBuildContext(sel);
    }
  }

  /** Each database Dockerfile starts from the engine's image and exposes
      the port its compose service publishes. */
  lemma DbDockerfileExposesServicePort(name: string, database: Database)
    requires database != NoDatabase
    ensures database.MySql? ==> DbDockerfile(database) == "FROM mysql:5.7\nEXPOSE 3306"
    ensures database.PostgreSql? ==> DbDockerfile(database) == "FROM postgres:9.6\nEXPOSE 5432"
    ensures DbService(name, database).ports == [DbPort(database) + ":" + DbPort(database)]
  {
    if database.MySql? {
      assert "FROM " + "mysql:5.7" + "\nEXPOSE " + "3306" == "FROM mysql:5.7\nEXPOSE 3306";
      assert "3306" + ":" + "3306" == "3306:3306";
    } else {
      assert "FROM " + "postgres:9.6" + "\nEXPOSE " + "5432" == "FROM postgres:9.6\nEXPOSE 5432";
      assert "5432" + ":" + "5432" == "5432:5432";
    }
  }

  /** The react and vue Dockerfiles agree up to their CMD line, which runs
      `npm start` and `npm run serve` respectively. */
  lemma NodeDockerfilesDifferOnlyInCmd()
    ensures var react, vue, n := NodeDockerfile(ReactWeb), NodeDockerfile(VueWeb), |NodeDockerfileHead|;
      && |react| > n && |vue| > n
      && react[..n] == vue[..n]
      && react[n..] == "CMD [\"npm\", \"start\"]"
      && vue[n..] == "CMD [\"npm\", \"run\", \"serve\"]"
  {
  }

  /** Every copy of the plan turns `.env.example` into `.env` inside the build
      context that the compose document gives the copying tier, and the
      react and vue Dockerfiles are written where the web service's build
      looks for them. */
  lemma FilesLandInBuildContexts(sel: Selection, root: string)
    ensures forall s :: s in Plan(sel, root) && s.action.CopyFile? ==>
      || (s.tier == ApiTier && sel.api == CocasusApi && s.action == EnvCopy(root, ApiContext(sel.api)))
      || (s.tier == WebTier && sel.frontBack != NoFrontBack && sel.frontBack != FlaskWeb
          && s.action == EnvCopy(root, WebContext(sel.frontBack)))
    ensures sel.frontBack == ReactWeb || sel.frontBack == VueWeb ==>
      var build := WebService(sel.name, sel.frontBack).build;
      Step(WebTier, WriteFile(AppPath(root, build.context, build.dockerfile), NodeDockerfileText(sel.frontBack)))
        in Plan(sel, root)
  {
    var db, api, web := DbSteps(sel), ApiSteps(sel, root), WebSteps(sel, root);
    DbBlock(sel);
    ApiBlock(sel, root);
    WebBlock(sel, root);
    WebFixupsBlock(sel.frontBack, root);
    assert forall s :: s in db ==> !s.action.CopyFile?;
    if api != [] {
      assert api == [api[0]] + api[1..];
    }
    if web != [] {
      assert web == [web[0]] + web[1..];
      if sel.frontBack == ReactWeb || sel.frontBack == VueWeb {
        assert web[1..][1] in web;
      }
    }
  }
}
