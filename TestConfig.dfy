/** The concrete cases the configuration tests pin down, stated about the model. */
module TestConfig {
  import opened Wrappers
  import opened AppConfig

  lemma ConfigCustomValues()
    ensures Config(true, Production, 9000, "0.0.0.0").debug
    ensures Config(true, Production, 9000, "0.0.0.0").environment == Production
    ensures Config(true, Production, 9000, "0.0.0.0").port == 9000
    ensures Config(true, Production, 9000, "0.0.0.0").host == "0.0.0.0"
  {
  }

  lemma ConfigIsProduction()
    ensures !Config(environment := Development).IsProduction()
    ensures Config(environment := Production).IsProduction()
  {
  }

  lemma LoadConfigHasDefaults()
    ensures !LoadConfig().debug
    ensures LoadConfig().environment == Development
  {
  }

  /** The shared test fixture's "test" environment is not an allowed value. */
  lemma FixtureEnvironmentNotAllowed()
    ensures ParseEnvironment("test") == None
  {
  }
}
