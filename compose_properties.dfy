/** What the compose document promises, proved of Composition, which
    CreateDockerCompose is shown to compute. */
module ComposeProperties {
  import opened Wrappers
  import opened Selection
  import opened Compose

  /** The fixed frame of the document: version 3.7, the single bridge
      network, one service per chosen tier and nothing else, every service
      on `back-network`, and an `environment` only on `db`. */
  lemma DocumentShape(sel: Selection)
    requires Composition(sel).Success?
    ensures var doc := Composition(sel).value;
      && doc.version == "3.7"
      && doc.networks == map["back-network" := Network("bridge")]
      && doc.services.Keys <= {"web", "api", "db"}
      && ("web" in doc.services <==> sel.frontBack != NoFrontBack)
      && ("api" in doc.services <==> sel.api != NoApi)
      && ("db" in doc.services <==> sel.database != NoDatabase)
      && (forall k :: k in doc.services ==> doc.services[k].networks == ["back-network"])
      && (forall k :: k in doc.services && doc.services[k].environment.Some? ==> k == "db")
  {
  }

  /** Ports, image and container names do not depend on the other tiers. */
  lemma PortsAndNames(sel: Selection)
    requires Composition(sel).Success?
    ensures var s := Composition(sel).value.services;
      && (forall k :: k in s ==> s[k].image == s[k].containerName)
      && ("web" in s ==> s["web"].ports == ["8080:8080"]
                         && s["web"].image == sel.name + "-" + FrontBackValue(sel.frontBack) + "-web")
      && ("api" in s ==> s["api"].ports == ["5000:5000"]
                         && s["api"].image == sel.name + "-" + ApiValue(sel.api) + "-api")
      && ("db" in s ==> s["db"].image == sel.name + "-db")
      && (sel.database.MySql? ==> s["db"].ports == ["3306:3306"])
      && (sel.database.PostgreSql? ==> s["db"].ports == ["5432:5432"])
  {
  }

  /** The database credentials reach the db service unchanged, under the
      engine's own variable names. */
  lemma CredentialsCopied(sel: Selection)
    requires Composition(sel).Success? && sel.database != NoDatabase
    ensures var s := Composition(sel).value.services;
      var c := sel.database.credentials;
      var env := s["db"].environment.value;
      && "db" in s && s["db"].environment.Some?
      && (sel.database.MySql? ==>
            && env.Keys == {"MYSQL_ROOT_PASSWORD", "MYSQL_DATABASE", "MYSQL_USER", "MYSQL_PASSWORD"}
            && env["MYSQL_ROOT_PASSWORD"] == c.rootPassword && env["MYSQL_DATABASE"] == c.name
            && env["MYSQL_USER"] == c.user && env["MYSQL_PASSWORD"] == c.password
            && s["db"].volumes == Some(["./db/data:/var/lib/mysql"]))
      && (sel.database.PostgreSql? ==>
            && env.Keys == {"POSTGRES_PASSWORD", "POSTGRES_USER", "POSTGRES_DB", "POSTGRES_ROOT_PASSWORD"}
            && env["POSTGRES_PASSWORD"] == c.password && env["POSTGRES_USER"] == c.user
            && env["POSTGRES_DB"] == c.name && env["POSTGRES_ROOT_PASSWORD"] == c.rootPassword
            && s["db"].volumes == Some(["./db/data:/var/lib/postgresql/data"]))
  {
  }

  /** The dependency edges: web depends on api whenever both exist, api on
      db whenever both exist, web never on db, db on nothing, and without an
      api no service depends on anything. */
  lemma DependencyEdges(sel: Selection)
    requires Composition(sel).Success?
    ensures var s := Composition(sel).value.services;
      && ("web" in s && "api" in s ==> s["web"].dependsOn == Some(["api"]))
      && ("api" in s && "db" in s ==> s["api"].dependsOn == Some(["db"]))
      && ("api" in s && "db" !in s ==> s["api"].dependsOn == None)
      && ("web" in s ==> s["web"].dependsOn != Some(["db"]))
      && ("db" in s ==> s["db"].dependsOn == None)
      && (sel.api == NoApi ==> forall k :: k in s ==> s[k].dependsOn == None)
  {
  }

  /** Every `depends_on` names one service of the document that starts
      earlier, so the startup order is well defined. */
  lemma DependenciesResolve(sel: Selection)
    requires Composition(sel).Success?
    ensures var s := Composition(sel).value.services;
      forall k, i :: k in s && s[k].dependsOn.Some? && 0 <= i < |s[k].dependsOn.value| ==>
        s[k].dependsOn.value[i] in s && TierRank(s[k].dependsOn.value[i]) < TierRank(k)
  {
  }

  lemma {:induction false} SuffixDiffers(p: string, a: string, b: string)
    requires |a| > 0 && |b| > 0 && a[|a| - 1] != b[|b| - 1]
    ensures p + a != p + b
  {
    assert (p + a)[|p + a| - 1] == a[|a| - 1];
    assert (p + b)[|p + b| - 1] == b[|b| - 1];
  }

  lemma {:induction false} LongerDiffers(p: string, a: string, b: string)
    requires |a| != |b|
    ensures p + a != p + b
  {
    assert |p + a| != |p + b|;
  }

  /** The container name the document gives the service `key`. */
  function ContainerNameOf(sel: Selection, key: string): string
  {
    if key == "web" then sel.name + "-" + FrontBackValue(sel.frontBack) + "-web"
    else if key == "api" then sel.name + "-" + ApiValue(sel.api) + "-api"
    else sel.name + "-db"
  }

  lemma {:induction false} ContainerNamesOfTiersDistinct(sel: Selection, k1: string, k2: string)
    requires k1 in {"web", "api", "db"} && k2 in {"web", "api", "db"} && k1 != k2
    requires k1 == "web" || k2 == "web" ==> sel.frontBack != NoFrontBack
    ensures ContainerNameOf(sel, k1) != ContainerNameOf(sel, k2)
  {
    var n := sel.name;
    var web := "-" + FrontBackValue(sel.frontBack) + "-web";
    var api := "-" + ApiValue(sel.api) + "-api";
    assert ContainerNameOf(sel, "web") == n + web;
    assert ContainerNameOf(sel, "api") == n + api;
    if {k1, k2} == {"web", "api"} {
      SuffixDiffers(n, web, api);
    } else if {k1, k2} == {"web", "db"} {
      LongerDiffers(n, web, "-db");
    } else {
      SuffixDiffers(n, api, "-db");
    }
  }

  /** No two services share a container name, whatever the project name:
      `-web`, `-api` and `-db` tell them apart. */
  lemma ContainerNamesDistinct(sel: Selection)
    requires Composition(sel).Success?
    ensures var s := Composition(sel).value.services;
      forall k1, k2 :: k1 in s && k2 in s && k1 != k2 ==> s[k1].containerName != s[k2].containerName
  {
    var s := Composition(sel).value.services;
    forall k | k in s
      ensures k in {"web", "api", "db"} && s[k].containerName == ContainerNameOf(sel, k)
      ensures k == "web" ==> sel.frontBack != NoFrontBack
    {
      PortsAndNames(sel);
      DocumentShape(sel);
    }
    forall k1, k2 | k1 in s && k2 in s && k1 != k2
      ensures s[k1].containerName != s[k2].containerName
    {
      ContainerNamesOfTiersDistinct(sel, k1, k2);
    }
  }

  /** The fallback edge web -> db at line 435 never reaches a document: where
      the source would need it, line 434 has already thrown. */
  lemma FallbackNeverFires(sel: Selection)
    ensures Composition(sel).Failure? <==> ReadsMissingApi(sel)
    ensures Composition(sel).Success? && "web" in Composition(sel).value.services ==>
      Composition(sel).value.services["web"].dependsOn != Some(["db"])
  {
  }

  /** Where the source does not throw, the corrected document is the one it
      builds. */
  lemma IntendedAgrees(sel: Selection)
    ensures !ReadsMissingApi(sel) ==> Composition(sel) == Success(IntendedComposition(sel))
    ensures ReadsMissingApi(sel) ==> Composition(sel) == Failure(ApiServiceUndefined)
  {
  }

  /** The corrected document follows the tie-break rule: web depends on the
      nearest tier below it (api, else db), and api on db. */
  lemma IntendedDependencyEdges(sel: Selection)
    ensures var s := IntendedComposition(sel).services;
      && ("web" in s && "api" in s ==> s["web"].dependsOn == Some(["api"]))
      && ("web" in s && "api" !in s && "db" in s ==> s["web"].dependsOn == Some(["db"]))
      && ("web" in s && "api" !in s && "db" !in s ==> s["web"].dependsOn == None)
      && ("api" in s ==> s["api"].dependsOn == if "db" in s then Some(["db"]) else None)
      && ("db" in s ==> s["db"].dependsOn == None)
  {
  }

  /** In the corrected document, too, every edge points to an existing
      service that starts earlier. */
  lemma IntendedDependenciesResolve(sel: Selection)
    ensures var s := IntendedComposition(sel).services;
      forall k, i :: k in s && s[k].dependsOn.Some? && 0 <= i < |s[k].dependsOn.value| ==>
        s[k].dependsOn.value[i] in s && TierRank(s[k].dependsOn.value[i]) < TierRank(k)
  {
  }

  /** MySQL, Express and React under any project name and credentials. */
  function FullStack(name: string, c: Credentials): Selection
  {
    Selection(name, MySql(c), ExpressApi, ReactWeb)
  }

  /** The full stack gives all three services and the chain
      web -> api -> db. */
  lemma ScenarioFullStack(name: string, c: Credentials)
    ensures var sel := FullStack(name, c);
      && Composition(sel).Success?
      && Composition(sel).value.services.Keys == {"web", "api", "db"}
      && Composition(sel).value.services["api"].dependsOn == Some(["db"])
      && Composition(sel).value.services["web"].dependsOn == Some(["api"])
  {
    assert Composition(FullStack(name, c)).value.services == ServicesOf(FullStack(name, c));
  }

  /** The full stack names its images `{name}-db`, `{name}-express-api` and
      `{name}-react-web`: demo-db, demo-express-api and demo-react-web for
      the project "demo". */
  lemma ScenarioFullStackNames(name: string, c: Credentials)
    ensures var sel := FullStack(name, c);
      && Composition(sel).Success?
      && Composition(sel).value.services.Keys == {"web", "api", "db"}
      && Composition(sel).value.services["db"].image == name + "-db"
      && Composition(sel).value.services["api"].image == name + "-express-api"
      && Composition(sel).value.services["web"].image == name + "-react-web"
  {
    ScenarioFullStack(name, c);
    PortsAndNames(FullStack(name, c));
    assert name + "-" + "express" + "-api" == name + "-express-api";
    assert name + "-" + "react" + "-web" == name + "-react-web";
  }

  /** Vue alone: only the web service, and no `depends_on` anywhere. */
  lemma ScenarioVueOnly()
    ensures var sel := Selection("demo", NoDatabase, NoApi, VueWeb);
      && Composition(sel).Success?
      && Composition(sel).value.services.Keys == {"web"}
      && Composition(sel).value.services["web"].dependsOn == None
  {
  }

  /** PostgreSQL with a cocasus front and no API: the source throws at line
      434 and writes no document, where the corrected document has web
      depending on db and no volume on web. */
  lemma ScenarioPostgresCocasus()
    ensures var sel := Selection("demo", PostgreSql(Credentials("my-database", "my-user", "my-password", "my-root-password")),
                                 NoApi, CocasusWeb);
      && Composition(sel) == Failure(ApiServiceUndefined)
      && IntendedComposition(sel).services.Keys == {"web", "db"}
      && IntendedComposition(sel).services["web"].dependsOn == Some(["db"])
      && IntendedComposition(sel).services["web"].volumes == None
  {
  }
}
