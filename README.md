# SonarQube static-code-analysis step, modelled in Dafny

This project models the SonarQube step implementer of the tssc pipeline's
`static-code-analysis` step. The step checks its runtime configuration. It
reads the project version from the result of the earlier `generate-metadata`
step and checks that the configured properties file exists. It then calls
`sonar-scanner` with a list of `-D<key>=<value>` arguments and turns the
scanner's exit into the step's result record.

Files:

- `wrappers.dfy`: module `Wrappers`, with the `Option`, `Result` and `Outcome` datatypes.
- `scanner_properties.dfy`: module `ScannerProperties`, the `-D<key>=<value>`
  argument syntax (`Define`, `Encode`) and its decoder (`ParseDefine`,
  `Values`). The decoder reads an argument list back into property values. It
  lets the lemmas say which properties the scanner receives, and with which
  values.
- `sonarqube.dfy`: module `SonarQube`. It holds the constants
  (`ConfigDefaults`, `AuthenticationConfig`, `RequiredConfigKeys`), the
  credential-pair validation, the credential choice, the version and
  properties checks, the two argument lists, the result record, `RunStep`
  (for `_run_step`) and `Run` (validation, then `_run_step`), with lemmas about
  each.

How the model represents the source:

- The merged configuration is a `map<string, Option<string>>`. A key can be
  absent, or present with the value `None` (a key left empty in YAML), or
  present with a string. The credential-pair rule at sonarqube.py:204-207
  tests key presence, so a `None` value counts there. `get_config_value`
  gives `None` in both of the first two cases. A value is truthy exactly when
  it is a non-empty string.
- Prior step results are a map from step name to a map of string values.
- `os.path.exists` is the parameter `pathExists: string -> bool`.
- The `sh.sonar_scanner` call is the parameter `scanner: seq<string> -> ScannerOutcome`.
  It maps the argument list to `ExitOk`, to `ErrorReturnCode(detail)` (the
  `sh.ErrorReturnCode` the step catches), or to `OtherError(cls, description)`
  (any other exception of the call, such as a missing executable or a
  RuntimeError from `sh`'s own threads, with its class and message). The
  step does not catch the last kind, and the model passes it on unchanged,
  class included, as `Uncaught(cls, description)`. "The scanner is not called" is stated as "the
  result is the same for every scanner".
- Each raised exception is a `StepError`. `Class()` gives its Python
  exception class (`AssertionError`, `ValueError`, `RuntimeError`, or
  `OtherException` for any further class), and `Message()` gives the message
  the source builds. A passed-through exception keeps its own class and
  message.
- Where the source keeps `user = ''` to mean "no credentials", the model
  does the same with `Credentials("", "")`. The argument list branches on
  `user == ""`, as line 243 does.

Where the code and its documentation disagree, the model follows the code:

- The module docstring shows the project key as
  `application-name.service-name` (sonarqube.py:75). The code joins the two
  names with `:` (sonarqube.py:248-251).
- The docstring gives the default properties file as
  `./sonar-project.proerties` (sonarqube.py:12). `DEFAULT_CONFIG` holds
  `./sonar-project.properties` (sonarqube.py:134-136).
- The docstring's sample scanner call (sonarqube.py:71-75) has no
  `-Dsonar.working.directory` argument. The code always passes one
  (sonarqube.py:252, 267).

## Model

| member | source | states |
|---|---|---|
| `SonarQube.ConfigDefaults` | tssc/step_implementers/static_code_analysis/sonarqube.py:134-136 | the only default is `properties`, and it is the truthy path `./sonar-project.properties` |
| `SonarQube.ValidateRuntimeStepConfig` | tssc/step_implementers/static_code_analysis/sonarqube.py:204-207 | validation passes iff `user` and `password` are both keys or both absent, whatever their values (`None` included); with exactly one of them it fails with the partial-credentials error |
| `SonarQube.PartialCredentialsStopRun` | tssc/step_implementers/static_code_analysis/sonarqube.py:202-207 | a configuration with exactly one credential key makes the whole run fail with an AssertionError, whatever the other inputs |
| `SonarQube.ChooseCredentials` | tssc/step_implementers/static_code_analysis/sonarqube.py:218-225 | the chosen user is non-empty iff the configured user and password are both non-empty strings; it is then the configured pair, and otherwise both are empty |
| `SonarQube.NoneCredentialValue` | tssc/step_implementers/static_code_analysis/sonarqube.py:204-225 | a `user` key whose value is `None` passes validation iff `password` is a key too, and then the scanner gets the 5-argument list with no login |
| `SonarQube.GetVersion` | tssc/step_implementers/static_code_analysis/sonarqube.py:227-232 | succeeds iff the `generate-metadata` result exists and holds a non-empty `version`, and returns that version; otherwise it is the version error |
| `SonarQube.CheckProperties` | tssc/step_implementers/static_code_analysis/sonarqube.py:234-237 | succeeds iff `properties` is a non-empty string and the path exists, and returns it; otherwise it is the properties error carrying the configured path |
| `SonarQube.DefaultPropertiesChecked` | tssc/step_implementers/static_code_analysis/sonarqube.py:234-237 | a configuration whose `properties` is the default value is checked against `./sonar-project.properties`: success with that path iff it exists, otherwise the properties error naming it |
| `SonarQube.StepError.Class` | tssc/step_implementers/static_code_analysis/sonarqube.py:199-273 | a passed-through exception keeps the class it was raised with; among the step's own errors, the partial-credentials error is exactly the AssertionError, the version and properties errors exactly the ValueErrors, and the wrapped scanner error exactly the RuntimeError |
| `SonarQube.StepError.Message` | tssc/step_implementers/static_code_analysis/sonarqube.py:207-273 | the properties error's message ends with the configured path, the scanner error's with the scanner's description, and an uncaught exception keeps its own message |
| `SonarQube.MessageIdentifiesError` | tssc/step_implementers/static_code_analysis/sonarqube.py:207-273 | two of the step's own errors, or two passed-through exceptions, with the same class and message are the same error, so the message tells apart the two ValueErrors and recovers the path or the scanner detail |
| `SonarQube.UncaughtMimicsOwnError` | tssc/step_implementers/static_code_analysis/sonarqube.py:239-273 | a passed-through ValueError can carry the version error's class and message and still be a different error, which is why the previous row separates the two kinds |
| `SonarQube.ProjectKey` | tssc/step_implementers/static_code_analysis/sonarqube.py:248-251 | the project key is application-name, one `:`, then service-name, each of them a slice of the key |
| `SonarQube.ProjectKeyDeterminesNames` | tssc/step_implementers/static_code_analysis/sonarqube.py:248-251 | when the application name has no `:`, two configurations with the same project key have the same application name and the same service name |
| `SonarQube.ProjectKeyAmbiguous` | tssc/step_implementers/static_code_analysis/sonarqube.py:248-251 | without that condition the key is ambiguous: application `a:b` with service `c` and application `a` with service `b:c` give the same key |
| `SonarQube.ScannerArgs` | tssc/step_implementers/static_code_analysis/sonarqube.py:243-270 | the argument list the code writes, in both variants, is exactly the `-D` encoding of the property list in `ScannerDefinitions` |
| `SonarQube.ArgumentsDefine` | tssc/step_implementers/static_code_analysis/sonarqube.py:243-270 | read back, the list gives exactly one value each to the settings file, host URL, version, `application-name:service-name` project key and working directory; it gives a login and a password, the chosen ones, only when a user was chosen |
| `SonarQube.NoOtherProperties` | tssc/step_implementers/static_code_analysis/sonarqube.py:243-270 | no property other than those seven is defined by either list |
| `SonarQube.CredentialArguments` | tssc/step_implementers/static_code_analysis/sonarqube.py:219-266 | with the chosen credentials the list has 7 arguments and carries the configured login and password iff both values are non-empty; otherwise it has 5 and no login or password |
| `SonarQube.CredentialedExtendsAnonymous` | tssc/step_implementers/static_code_analysis/sonarqube.py:244-270 | the credentialed list is the 5-argument list with `-Dsonar.login=user` and `-Dsonar.password=password` inserted just before the final working-directory argument |
| `SonarQube.ProjectKeyArgument` | tssc/step_implementers/static_code_analysis/sonarqube.py:248-264 | in both variants the fourth argument is `-Dsonar.projectKey=` + application-name + `:` + service-name |
| `SonarQube.Prepare` | tssc/step_implementers/static_code_analysis/sonarqube.py:218-270 | a missing version fails first; with a version, a missing properties file fails next; the scanner is reached iff both hold, and then with the argument list for that version and the chosen credentials |
| `SonarQube.SuccessResult` | tssc/step_implementers/static_code_analysis/sonarqube.py:275-286 | the success record has `success = true`, the completion message and exactly one artifact, `sonarqube result set`, whose path is the working directory between `file://` and `/report-task.txt` |
| `SonarQube.RunStep` | tssc/step_implementers/static_code_analysis/sonarqube.py:209-287 | the step succeeds iff the preconditions hold and the scanner exits successfully on the prepared list; a success is always the fixed success record for the working directory |
| `SonarQube.Run` | tssc/step_implementers/static_code_analysis/sonarqube.py:187-287 | a partial credential pair fails before anything else; otherwise the run is `_run_step` |
| `SonarQube.MissingVersionStopsRun` | tssc/step_implementers/static_code_analysis/sonarqube.py:227-237 | without a non-empty version the run fails with the version error for every scanner, so the scanner is not called, and this error wins over a missing properties file |
| `SonarQube.MissingPropertiesStopsRun` | tssc/step_implementers/static_code_analysis/sonarqube.py:234-237 | with a version but no existing properties file the run fails with the ValueError for the properties file for every scanner |
| `SonarQube.ScannerDecides` | tssc/step_implementers/static_code_analysis/sonarqube.py:239-287 | once the checks pass, a successful scanner exit gives the success record; an error return code gives a RuntimeError `Error invoking sonarscanner: ...`; any other exception of the call passes through unwrapped, with its own class and message |
| `SonarQube.SuccessRecord` | tssc/step_implementers/static_code_analysis/sonarqube.py:275-286 | a successful run returns `success = true`, the message `sonarqube step completed - see report-artifacts` and exactly one artifact, `sonarqube result set`, at `file://<wd>/report-task.txt` |
| `SonarQube.SuccessDependsOnlyOnWorkingDir` | tssc/step_implementers/static_code_analysis/sonarqube.py:275-286 | two successful runs in the same working directory return the same record, whatever their configurations, credentials, versions and scanners |
| `SonarQube.ExampleWithoutCredentials` | tssc/step_implementers/static_code_analysis/sonarqube.py:243-286 | an example configuration with version `1.2.3` is scanned with 5 arguments, project key `app:svc` and no login, and returns the success record at `file:///work/report-task.txt` |
| `SonarQube.ExampleWithCredentials` | tssc/step_implementers/static_code_analysis/sonarqube.py:257-286 | the same example with user `u` and password `p` is scanned with 7 arguments carrying `u` and `p`, and returns the same record |
| `ScannerProperties.ParseDefineRoundTrip` | tssc/step_implementers/static_code_analysis/sonarqube.py:245-267 | decoding a `-D<key>=<value>` argument whose key has no `=` gives back that key and value |
| `ScannerProperties.ValuesOfEncode` | tssc/step_implementers/static_code_analysis/sonarqube.py:245-267 | reading an encoded property list gives every key exactly the values the list assigns it, in order |

## Left out

- The `sonar-scanner` child process, and the passing of its stdout and stderr to the step's own streams (sonarqube.py:244-270), are external process I/O. The model has only the abstract `scanner` outcome.
- `os.path.exists` (sonarqube.py:236) is a file-system query. It is the parameter `pathExists`.
- The `StepImplementer` base class is not part of this model. This covers `super()._validate_runtime_step_config`, `get_config_value`, `has_config_value`, `get_step_results`, `get_working_dir` and the merging of defaults, file and runtime configuration. Their results are the inputs of the model.
- RunStep: requires `RequiredKeysPresent(config)` (every required key holds a value), which stands for the base-class check of `REQUIRED_CONFIG_KEYS` that runs before `_run_step`. Without that check, a missing required key would make the source fail on concatenating `None` at sonarqube.py:246-251, once the version and properties checks have passed; a missing version still raises its ValueError first.
- Run: has the same requirement as RunStep, because the base-class check is not modelled.
- Prepare: has the same requirement as RunStep.
- ChooseCredentials: does not model `has_config_value(AUTHENTICATION_CONFIG)` at sonarqube.py:221, whose meaning is in the base class. Only the truthiness test at sonarqube.py:222-223 decides. Two configured non-empty values are taken to pass that check.
- CheckProperties: when `properties` is missing or `None`, the source raises a `TypeError` while it builds its message at sonarqube.py:237. The model reports this as the properties error with an empty path.
- `step_implementer_config_defaults` and `required_runtime_step_config_keys` (sonarqube.py:155-185) just return constants. They are modelled as `ConfigDefaults` and `RequiredConfigKeys`. How defaults are merged belongs to the base class; `DefaultPropertiesChecked` covers a configuration that took the default.
- Exceptions raised by `get_working_dir()` (sonarqube.py:242) come from the base class and are not modelled. The working directory is an input.
- The chaining of the scanner's exception (`from error`) and the text of the scanner's error (sonarqube.py:272-273) are not modelled. The detail is an opaque string.
- The source does not check that `report-task.txt` exists before it reports it (sonarqube.py:283). The model does the same.
- Configuration values other than strings and `None` (numbers, lists) are not modelled. The code only tests the values for truthiness and joins them into strings.
- GetVersion: prior results hold string values only, so a truthy version that is not a string, which the source would fail to concatenate with a TypeError at sonarqube.py:247, cannot be expressed.
