/**
 * The application's configuration: an immutable record of four settings,
 * each with a default, and the loader that produces it.
 */
module AppConfig {
  import opened Wrappers

  /** The three environments the application may run in. */
  datatype Environment = Development | Staging | Production {

    /** The lower-case literal that names this environment. */
    function Name(): string {
      match this
      case Development => "development"
      case Staging => "staging"
      case Production => "production"
    }
  }

  /**
   * The environment a literal names, or None when the literal is not one
   * of the three allowed ones.
   */
  function ParseEnvironment(s: string): (r: Option<Environment>)
    ensures r.Some? ==> r.value.Name() == s
    ensures r.None? ==> forall e: Environment :: e.Name() != s
  {
    if s == "development" then Some(Development)
    else if s == "staging" then Some(Staging)
    else if s == "production" then Some(Production)
    else None
  }

  /** Different environments have different names. */
  lemma NameInjective(e1: Environment, e2: Environment)
    requires e1.Name() == e2.Name()
    ensures e1 == e2
  {
  }

  /** Parsing an environment's name gives that environment back. */
  lemma ParseName(e: Environment)
    ensures ParseEnvironment(e.Name()) == Some(e)
  {
  }

  /**
   * The configuration record. A datatype value is immutable: no operation
   * changes one of its fields, a different setting is a different value.
   * The port and the host are not checked.
   */
  datatype Config = Config(
    debug: bool := false,
    environment: Environment := Development,
    port: int := 8000,
    host: string := "127.0.0.1")
  {

    /** Whether the environment is the one named "production". */
    function IsProduction(): (r: bool)
      ensures r <==> environment.Name() == "production"
    {
      environment == Production
    }
  }

  /** The record built with no arguments holds the four defaults. */
  lemma DefaultValues()
    ensures Config().debug == false
    ensures Config().environment == Development
    ensures Config().port == 8000
    ensures Config().host == "127.0.0.1"
    ensures !Config().IsProduction()
  {
  }

  /** A record built from explicit values holds exactly those values. */
  lemma ConstructorStores(debug: bool, environment: Environment, port: int, host: string)
    ensures Config(debug, environment, port, host).debug == debug
    ensures Config(debug, environment, port, host).environment == environment
    ensures Config(debug, environment, port, host).port == port
    ensures Config(debug, environment, port, host).host == host
  {
  }

  /** Only the production environment is production. */
  lemma IsProductionOnlyProduction(c: Config)
    ensures c.IsProduction() <==> c.environment == Production
    ensures c.environment == Development ==> !c.IsProduction()
    ensures c.environment == Staging ==> !c.IsProduction()
  {
  }

  /** The application's configuration; for now, always the defaults. */
  function LoadConfig(): (c: Config)
    ensures !c.debug && c.environment == Development
    ensures c.port == 8000 && c.host == "127.0.0.1"
    ensures !c.IsProduction()
  {
    Config()
  }
}
