/** The concrete cases the utility tests pin down, stated about the model. */
module TestUtils {
  import opened Utils

  /** The values a configuration dictionary holds in the tests. */
  datatype Value = Bool(b: bool) | Int(i: int) | Str(s: string)

  lemma FormatMessageWithDefaultPrefix()
    ensures FormatMessage("Hello, World!") == "INFO: Hello, World!"
  {
  }

  lemma FormatMessageWithCustomPrefix()
    ensures FormatMessage("Error occurred", prefix := "ERROR") == "ERROR: Error occurred"
  {
  }

  lemma FormatMessageParametrized()
    ensures FormatMessage("Test", prefix := "DEBUG") == "DEBUG: Test"
    ensures FormatMessage("Warning", prefix := "WARN") == "WARN: Warning"
    ensures FormatMessage("", prefix := "INFO") == "INFO: "
  {
  }

  lemma ValidateConfigWithRequiredKeys()
    ensures ValidateConfig(map["debug" := Bool(true), "port" := Int(8000)])
  {
  }

  lemma ValidateConfigWithMissingKeys()
    ensures !ValidateConfig(map["debug" := Bool(true)])
  {
  }

  lemma ValidateConfigWithEmptyDict()
    ensures !ValidateConfig<Value>(map[])
  {
  }

  lemma ValidateConfigWithExtraKeys()
    ensures ValidateConfig(map["debug" := Bool(true), "port" := Int(8000), "extra" := Str("value")])
  {
  }
}
