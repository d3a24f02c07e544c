# Application configuration and message utilities

This project models the small executable core of a Python project template,
and proves properties of the model:

- `format_message` builds a log line. The line is the prefix, a colon and a
  space, then the message. The prefix defaults to `"INFO"`.
- `validate_config` accepts a configuration dictionary exactly when it holds
  both required keys, `"debug"` and `"port"`. It never looks at the values.
- `Config` is an immutable record with four settings, each with a default:
  `debug`, `environment`, `port` and `host`. `is_production` tests the
  environment. `load_config` returns the defaults.

Modules follow the source files:

- `Utils` models `src/utils.py`.
- `AppConfig` models `src/config.py`.
- `TestUtils` and `TestConfig` restate the concrete cases of
  `tests/test_utils.py` and `tests/test_config.py` as lemmas.
- `Wrappers` holds the `Option` datatype.

Strings are `seq<char>`. The dictionary is a `map<string, V>`, with the value
type left generic because the source types the values as `Any`. The
environment is the datatype `Development | Staging | Production`, one
constructor per allowed literal. `Environment.Name` maps each constructor back
to its literal. `ParseEnvironment` is its partial inverse.

`Config` is a datatype. A datatype value cannot be changed after it is built,
so the frozen record's immutability holds by construction.

## Model

| member | source | states |
|---|---|---|
| Utils.FormatMessage | src/utils.py:6-22 | the line starts with the prefix and ": ", ends with the message, and is exactly 2 characters longer than the two together; the prefix defaults to "INFO" |
| Utils.MessageOf | src/utils.py:22 | the inverse of the formatting for a known prefix: succeeds exactly on lines that begin with the prefix and ": ", and returns the rest of the line |
| Utils.FormatThenParse | src/utils.py:22 | taking the message back out of a formatted line gives the original message |
| Utils.ParseThenFormat | src/utils.py:22 | every line accepted by MessageOf is the formatting of the message it returns |
| Utils.FormatMessageInjective | src/utils.py:22 | under one prefix, two different messages never give the same line |
| Utils.FormatMessageAmbiguous | src/utils.py:22 | a prefix containing ": " lets two different (message, prefix) pairs give the same line, so the prefix cannot be recovered in general |
| Utils.FormatEmptyMessage | src/utils.py:22 | an empty message gives the prefix followed by ": " |
| Utils.RequiredKeyListListsRequiredKeys | src/utils.py:40 | the list the check walks holds exactly the required keys |
| Utils.AllPresent | src/utils.py:41 | the `all(...)` over the keys is true exactly when every listed key is in the dictionary, whatever the values |
| Utils.ValidateConfig | src/utils.py:25-41 | true if and only if both "debug" and "port" are keys, which is the same as the required-key set being a subset of the keys |
| Utils.ValidateConfigMonotone | src/utils.py:41 | adding entries to a valid dictionary keeps it valid |
| Utils.ValidateConfigIgnoresValues | src/utils.py:41 | two dictionaries with the same keys, even with values of different types, get the same verdict |
| Utils.RemovingRequiredKeyInvalidates | src/utils.py:40-41 | removing either required key from any dictionary makes it invalid |
| AppConfig.ParseEnvironment | src/config.py:19 | accepts exactly the three allowed literals, returns the environment with that name, and rejects every other string |
| AppConfig.NameInjective | src/config.py:19 | the three environments have three different literals |
| AppConfig.ParseName | src/config.py:19 | parsing an environment's literal gives that environment back |
| AppConfig.Config.IsProduction | src/config.py:23-29 | true if and only if the environment's literal is "production" |
| AppConfig.IsProductionOnlyProduction | src/config.py:23-29 | production becomes true only for the Production environment; development and staging are not production |
| AppConfig.DefaultValues | src/config.py:18-21 | a record built with no arguments has debug false, environment development, port 8000 and host "127.0.0.1", and is not production |
| AppConfig.ConstructorStores | src/config.py:7-21 | a record built from explicit values holds exactly those values |
| AppConfig.LoadConfig | src/config.py:32-40 | the loaded configuration has the four defaults and is not production |
| TestUtils.FormatMessageWithDefaultPrefix | tests/test_utils.py:11-14 | "Hello, World!" with the default prefix formats to "INFO: Hello, World!" |
| TestUtils.FormatMessageWithCustomPrefix | tests/test_utils.py:16-19 | "Error occurred" with prefix "ERROR" formats to "ERROR: Error occurred" |
| TestUtils.FormatMessageParametrized | tests/test_utils.py:21-34 | the three parametrised cases, including the empty message giving "INFO: " |
| TestUtils.ValidateConfigWithRequiredKeys | tests/test_utils.py:40-43 | a dictionary with exactly the two required keys is valid |
| TestUtils.ValidateConfigWithMissingKeys | tests/test_utils.py:45-48 | a dictionary without "port" is invalid |
| TestUtils.ValidateConfigWithEmptyDict | tests/test_utils.py:50-53 | the empty dictionary is invalid |
| TestUtils.ValidateConfigWithExtraKeys | tests/test_utils.py:55-58 | a dictionary with an extra key besides the required ones is valid |
| TestConfig.ConfigCustomValues | tests/test_config.py:17-28 | the explicitly built production record holds the given values |
| TestConfig.ConfigIsProduction | tests/test_config.py:30-36 | a development record is not production; a production record is |
| TestConfig.LoadConfigHasDefaults | tests/test_config.py:54-58 | the loaded configuration has debug false and environment development |
| TestConfig.FixtureEnvironmentNotAllowed | tests/conftest.py:13-18 | the fixture's environment "test" is not one of the allowed literals |

## Left out

- `src/main.py`: its only logic is calls to `load_config` and `format_message`. The rest is printing to standard output, which is console I/O.
- Loading settings from environment variables or files. `load_config` only mentions this in a comment and does not do it.
- The port and the host are never checked: there is no port range and no host format. `port` is an unbounded `int`, as a Python `int` is.
- The `AttributeError` that Python raises when a field of a frozen dataclass is assigned. A Dafny datatype has no assignment to fields, so there is no such error path.
- Python does not enforce the `Literal` annotation on `environment` at run time. The model makes the restriction part of the type. `ParseEnvironment` marks the boundary where any other string is rejected.
- `isinstance(config, Config)` in the tests is guaranteed by the type of `LoadConfig`, so no lemma states it.
- `validate_config` walks a set whose iteration order Python does not fix. The model walks one fixed listing of the set. `AllPresent` proves the verdict depends only on which keys are listed, so the order does not matter.
