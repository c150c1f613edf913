/** The answers the prompt chain of bin/index.js collects (lines 13-172),
    as one immutable record. The three choice lists are closed: the prompts
    only offer the values listed at lines 38-51, 109-126 and 144-165. */
module Selection {

  /** The four database answers (lines 59-82), copied into the db service. */
  datatype Credentials = Credentials(name: string, user: string, password: string, rootPassword: string)

  /** The database choice. The credentials are asked only when a database is
      chosen (line 56), so they live inside the two database constructors:
      they are present exactly when the database is not "none". */
  datatype Database =
    | NoDatabase
    | MySql(credentials: Credentials)
    | PostgreSql(credentials: Credentials)

  datatype Api = NoApi | CocasusApi | ExpressApi | FlaskApi

  datatype FrontBack = NoFrontBack | CocasusWeb | ReactWeb | VueWeb | FlaskWeb

  datatype Selection = Selection(name: string, database: Database, api: Api, frontBack: FrontBack)

  /** The value the API prompt stores for a choice (lines 109-126). */
  function ApiValue(api: Api): (v: string)
    ensures v == "none" <==> api == NoApi
  {
    match api
    case NoApi => "none"
    case CocasusApi => "cocasus"
    case ExpressApi => "express"
    case FlaskApi => "flask"
  }

  /** The value the framework prompt stores for a choice (lines 144-165). */
  function FrontBackValue(frontBack: FrontBack): (v: string)
    ensures v == "none" <==> frontBack == NoFrontBack
  {
    match frontBack
    case NoFrontBack => "none"
    case CocasusWeb => "cocasus"
    case ReactWeb => "react"
    case VueWeb => "vue"
    case FlaskWeb => "flask"
  }
}
