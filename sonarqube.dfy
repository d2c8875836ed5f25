/**
  The SonarQube step implementer of the static-code-analysis step: the check
  of its runtime configuration, the preconditions `_run_step` tests before it
  calls sonar-scanner, the argument lists it passes to the scanner and the
  result record it returns.

  The scanner process and the file system are not modelled: the scanner is a
  parameter `scanner` that maps an argument list to the scanner's exit, and
  the existence of a path is a parameter `pathExists`.
 */
module SonarQube {
  import opened Wrappers
  import opened ScannerProperties

  /**
    The step's merged configuration. A key can be absent, or present with a
    value that is None (a key left empty in YAML) or a string.
   */
  type Config = map<string, Option<string>>

  /** The results of earlier steps, by step name; each holds string values by key. */
  type StepResults = map<string, map<string, string>>

  /** The lowest-precedence configuration values of the step (`DEFAULT_CONFIG`). */
  function ConfigDefaults(): (d: Config)
    ensures d.Keys == {"properties"}
    ensures Truthy(d, "properties") && Value(d, "properties") == "./sonar-project.properties"
  {
    map["properties" := Some("./sonar-project.properties")]
  }

  /** The optional credential pair, which must be configured together or not at all. */
  const AuthenticationConfig: seq<string> := ["user", "password"]

  /** The keys the configuration must hold before the step runs. */
  const RequiredConfigKeys: seq<string> := ["url", "application-name", "service-name"]

  const CompletedMessage: string := "sonarqube step completed - see report-artifacts"
  const ResultSetName: string := "sonarqube result set"

  /** The prior step whose version the analysis is tagged with. */
  const MetadataStep: string := "generate-metadata"

  /** `get_config_value`: the configured value, None for a missing key as for a None value. */
  function GetConfigValue(config: Config, key: string): Option<string>
  {
    if key in config then config[key] else None
  }

  /** The key holds a string value. */
  predicate Configured(config: Config, key: string)
  {
    GetConfigValue(config, key).Some?
  }

  function Value(config: Config, key: string): string
    requires Configured(config, key)
  {
    GetConfigValue(config, key).value
  }

  /** Python truthiness of a configuration value: a string that is non-empty. */
  predicate Truthy(config: Config, key: string)
  {
    Configured(config, key) && Value(config, key) != ""
  }

  /** What the framework guarantees before it runs the step: every required key holds a value. */
  predicate RequiredKeysPresent(config: Config): (b: bool)
    ensures b <==> Configured(config, "url") && Configured(config, "application-name")
                   && Configured(config, "service-name")
  {
    forall k :: k in RequiredConfigKeys ==> Configured(config, k)
  }

  /** The Python exception classes the step raises; `OtherException` stands for any further class. */
  datatype ExceptionClass = AssertionError | ValueError | RuntimeError | OtherException

  /** The reasons the step stops without a result. */
  datatype StepError =
    | PartialCredentials
    | MissingVersion
    | PropertiesNotFound(properties: string)
    | ScannerFailed(detail: string)
    | Uncaught(cls: ExceptionClass, description: string)
  {
    /**
      The exception class. Among the step's own errors each class has exactly
      its errors, so a precondition failure is never the scanner's RuntimeError;
      an exception passed through keeps its own class.
     */
    function Class(): (c: ExceptionClass)
      ensures this.Uncaught? ==> c == cls
      ensures !this.Uncaught? ==> (c == AssertionError <==> this.PartialCredentials?)
      ensures !this.Uncaught? ==> (c == ValueError <==> this.MissingVersion? || this.PropertiesNotFound?)
      ensures !this.Uncaught? ==> (c == RuntimeError <==> this.ScannerFailed?)
      ensures !this.Uncaught? ==> c != OtherException
    {
      match this
      case PartialCredentials => AssertionError
      case MissingVersion => ValueError
      case PropertiesNotFound(_) => ValueError
      case ScannerFailed(_) => RuntimeError
      case Uncaught(k, _) => k
    }

    /** The exception's message; it carries the path or the scanner's error where the source adds them. */
    function Message(): (m: string)
      ensures this.PropertiesNotFound? ==> |properties| <= |m| && m[|m| - |properties|..] == properties
      ensures this.ScannerFailed? ==> |detail| <= |m| && m[|m| - |detail|..] == detail
      ensures this.Uncaught? ==> m == description
    {
      match this
      case PartialCredentials => "Either username or password is not set. Neither or both must be set."
      case MissingVersion => "Severe error: " + "Generate-metadata results is missing a version tag"
      case PropertiesNotFound(p) => "Properties file in tssc config not found: " + p
      case ScannerFailed(d) => "Error invoking sonarscanner: " + d
      case Uncaught(_, d) => d
    }
  }

  /**
    How the scanner call ends: a zero exit; an error return code (`sh.ErrorReturnCode`)
    with its description; or any other exception, such as the scanner not being found,
    which the step does not catch.
   */
  datatype ScannerOutcome =
    | ExitOk
    | ErrorReturnCode(detail: string)
    | OtherError(cls: ExceptionClass, description: string)

  datatype ReportArtifact = ReportArtifact(name: string, path: string)

  /** The `result` dictionary (success, message) and the `report-artifacts` list. */
  datatype StepResult = StepResult(success: bool, message: string, reportArtifacts: seq<ReportArtifact>)

  /** The credentials passed to the scanner; an empty user means none. */
  datatype Credentials = Credentials(user: string, password: string)

  /**
    The step's own check of its runtime configuration: the credential keys
    are both present or both absent.
   */
  function ValidateRuntimeStepConfig(config: Config): (r: Outcome<StepError>)
    ensures r.Pass? <==> (("user" in config) <==> ("password" in config))
    ensures r.Fail? ==> r.error == PartialCredentials
  {
    assert AuthenticationConfig[0] == "user" && AuthenticationConfig[1] == "password";
    if (forall i :: 0 <= i < |AuthenticationConfig| ==> AuthenticationConfig[i] in config)
       || !(exists i :: 0 <= i < |AuthenticationConfig| && AuthenticationConfig[i] in config)
    then Pass
    else Fail(PartialCredentials)
  }

  /** The credentials `_run_step` uses: the configured ones only when both values are non-empty. */
  function ChooseCredentials(config: Config): (c: Credentials)
    ensures c.user != "" <==> Truthy(config, "user") && Truthy(config, "password")
    ensures c.user != "" ==> c.user == Value(config, "user") && c.password == Value(config, "password")
    ensures c.user == "" ==> c.password == ""
  {
    if Truthy(config, "user") && Truthy(config, "password") then
      Credentials(Value(config, "user"), Value(config, "password"))
    else
      Credentials("", "")
  }

  /** The metadata step has left a non-empty version. */
  predicate HasVersion(prior: StepResults)
  {
    MetadataStep in prior && "version" in prior[MetadataStep] && prior[MetadataStep]["version"] != ""
  }

  /** The project version from the metadata step's result, which must be present and non-empty. */
  function GetVersion(prior: StepResults): (r: Result<string, StepError>)
    ensures r.Success? <==> HasVersion(prior)
    ensures r.Success? ==> r.value == prior[MetadataStep]["version"] && r.value != ""
    ensures r.Failure? ==> r.error == MissingVersion
  {
    // A result dictionary is truthy when it is non-empty.
    if MetadataStep in prior && |prior[MetadataStep]| > 0
       && "version" in prior[MetadataStep] && prior[MetadataStep]["version"] != ""
    then Success(prior[MetadataStep]["version"])
    else Failure(MissingVersion)
  }

  /** The properties path as the source's message shows it; empty when there is none. */
  function PropertiesPath(config: Config): string
  {
    if Configured(config, "properties") then Value(config, "properties") else ""
  }

  /** The configured properties file exists. */
  predicate PropertiesUsable(config: Config, pathExists: string -> bool)
  {
    Truthy(config, "properties") && pathExists(Value(config, "properties"))
  }

  /** The properties path, which must be non-empty and exist. */
  function CheckProperties(config: Config, pathExists: string -> bool): (r: Result<string, StepError>)
    ensures r.Success? <==> PropertiesUsable(config, pathExists)
    ensures r.Success? ==> r.value == Value(config, "properties") && pathExists(r.value)
    ensures r.Failure? ==> r.error == PropertiesNotFound(PropertiesPath(config))
  {
    var properties := PropertiesPath(config);
    if properties == "" || !pathExists(properties) then Failure(PropertiesNotFound(properties))
    else Success(properties)
  }

  /** The composite project key: the application name, one ':', then the service name. */
  function ProjectKey(config: Config): (k: string)
    requires RequiredKeysPresent(config)
    ensures var app := Value(config, "application-name");
      && |k| == |app| + 1 + |Value(config, "service-name")|
      && k[..|app|] == app && k[|app|] == ':' && k[|app| + 1..] == Value(config, "service-name")
  {
    Value(config, "application-name") + ":" + Value(config, "service-name")
  }

  /**
    The analysis properties the scanner is given, in argument order: the
    login and password come just before the working directory, and only when
    a user was chosen.
   */
  function ScannerDefinitions(config: Config, version: string, creds: Credentials, workingDir: string): seq<(string, string)>
    requires RequiredKeysPresent(config) && Configured(config, "properties")
  {
    var shared := [("project.settings", Value(config, "properties")),
                   ("sonar.host.url", Value(config, "url")),
                   ("sonar.projectVersion", version),
                   ("sonar.projectKey", ProjectKey(config))];
    if creds.user == "" then
      shared + [("sonar.working.directory", workingDir)]
    else
      shared + [("sonar.login", creds.user), ("sonar.password", creds.password),
                ("sonar.working.directory", workingDir)]
  }

  /**
    The command-line arguments of the sonar-scanner call, as `_run_step`
    writes them: five without credentials, seven with them. They are exactly
    the encoding of ScannerDefinitions.
   */
  function ScannerArgs(config: Config, version: string, creds: Credentials, workingDir: string): (args: seq<string>)
    requires RequiredKeysPresent(config) && Configured(config, "properties")
    ensures args == Encode(ScannerDefinitions(config, version, creds, workingDir))
  {
    var defs := ScannerDefinitions(config, version, creds, workingDir);
    var args :=
      if creds.user == "" then
        ["-Dproject.settings=" + Value(config, "properties"),
         "-Dsonar.host.url=" + Value(config, "url"),
         "-Dsonar.projectVersion=" + version,
         "-Dsonar.projectKey=" + Value(config, "application-name") + ":" + Value(config, "service-name"),
         "-Dsonar.working.directory=" + workingDir]
      else
        ["-Dproject.settings=" + Value(config, "properties"),
         "-Dsonar.host.url=" + Value(config, "url"),
         "-Dsonar.projectVersion=" + version,
         "-Dsonar.projectKey=" + Value(config, "application-name") + ":" + Value(config, "service-name"),
         "-Dsonar.login=" + creds.user,
         "-Dsonar.password=" + creds.password,
         "-Dsonar.working.directory=" + workingDir];
    SharedSpellings(Value(config, "properties"), Value(config, "url"), version, ProjectKey(config));
    TrailingSpellings(creds.user, creds.password, workingDir);
    EncodeEach(defs, args);
    args
  }

  /** Each `-D...=` prefix `_run_step` writes for the shared properties is the encoding of its key. */
  lemma SharedSpellings(properties: string, url: string, version: string, projectKey: string)
    ensures Define("project.settings", properties) == "-Dproject.settings=" + properties
    ensures Define("sonar.host.url", url) == "-Dsonar.host.url=" + url
    ensures Define("sonar.projectVersion", version) == "-Dsonar.projectVersion=" + version
    ensures Define("sonar.projectKey", projectKey) == "-Dsonar.projectKey=" + projectKey
  {
    assert "-D" + "project.settings" + "=" == "-Dproject.settings=";
    assert "-D" + "sonar.host.url" + "=" == "-Dsonar.host.url=";
    assert "-D" + "sonar.projectVersion" + "=" == "-Dsonar.projectVersion=";
    assert "-D" + "sonar.projectKey" + "=" == "-Dsonar.projectKey=";
  }

  /** The same for the credential and working-directory properties. */
  lemma TrailingSpellings(user: string, password: string, workingDir: string)
    ensures Define("sonar.login", user) == "-Dsonar.login=" + user
    ensures Define("sonar.password", password) == "-Dsonar.password=" + password
    ensures Define("sonar.working.directory", workingDir) == "-Dsonar.working.directory=" + workingDir
  {
    assert "-D" + "sonar.login" + "=" == "-Dsonar.login=";
    assert "-D" + "sonar.password" + "=" == "-Dsonar.password=";
    assert "-D" + "sonar.working.directory" + "=" == "-Dsonar.working.directory=";
  }

  /** The path of the report sonar-scanner leaves in the step's working directory, as a file URI. */
  function ReportPath(workingDir: string): string
  {
    "file://" + workingDir + "/report-task.txt"
  }

  /**
    The record the step returns once the scanner has succeeded: success, the
    completion message and one artifact, whose path is the working directory
    between `file://` and `/report-task.txt`.
   */
  function SuccessResult(workingDir: string): (r: StepResult)
    ensures r.success && r.message == CompletedMessage && |r.reportArtifacts| == 1
    ensures var path := r.reportArtifacts[0].path;
      && r.reportArtifacts[0].name == ResultSetName
      && |path| == |workingDir| + 23
      && path[..7] == "file://" && path[7..|path| - 16] == workingDir && path[|path| - 16..] == "/report-task.txt"
  {
    StepResult(true, CompletedMessage, [ReportArtifact(ResultSetName, ReportPath(workingDir))])
  }

  /**
    The part of `_run_step` before the scanner call: choose the credentials,
    then check the version, then the properties file, and give the argument
    list the scanner is called with.
   */
  function Prepare(config: Config, prior: StepResults, pathExists: string -> bool, workingDir: string): (r: Result<seq<string>, StepError>)
    requires RequiredKeysPresent(config)
    ensures !HasVersion(prior) ==> r == Failure(MissingVersion)
    ensures HasVersion(prior) && !PropertiesUsable(config, pathExists) ==>
              r == Failure(PropertiesNotFound(PropertiesPath(config)))
    ensures r.Success? <==> HasVersion(prior) && PropertiesUsable(config, pathExists)
    ensures r.Success? ==>
              r.value == ScannerArgs(config, prior[MetadataStep]["version"], ChooseCredentials(config), workingDir)
  {
    var creds := ChooseCredentials(config);
    var version := GetVersion(prior);
    if version.Failure? then Failure(version.error)
    else
      var properties := CheckProperties(config, pathExists);
      if properties.Failure? then Failure(properties.error)
      else Success(ScannerArgs(config, version.value, creds, workingDir))
  }

  /**
    `_run_step`: prepare, call the scanner, and report its outcome. Only an
    error return code is wrapped in a RuntimeError; any other exception of the
    call passes through unchanged.
   */
  function RunStep(config: Config, prior: StepResults, pathExists: string -> bool,
                   scanner: seq<string> -> ScannerOutcome, workingDir: string): (r: Result<StepResult, StepError>)
    requires RequiredKeysPresent(config)
    ensures r.Success? ==> r.value == SuccessResult(workingDir)
    ensures r.Success? <==>
              Prepare(config, prior, pathExists, workingDir).Success?
              && scanner(Prepare(config, prior, pathExists, workingDir).value) == ExitOk
  {
    match Prepare(config, prior, pathExists, workingDir)
    case Failure(e) => Failure(e)
    case Success(args) =>
      match scanner(args)
      case ExitOk => Success(SuccessResult(workingDir))
      case ErrorReturnCode(detail) => Failure(ScannerFailed(detail))
      case OtherError(k, description) => Failure(Uncaught(k, description))
  }

  /** The step as the framework runs it: the configuration check first, then `_run_step`. */
  function Run(config: Config, prior: StepResults, pathExists: string -> bool,
               scanner: seq<string> -> ScannerOutcome, workingDir: string): (r: Result<StepResult, StepError>)
    requires RequiredKeysPresent(config)
    ensures ("user" in config) != ("password" in config) ==> r == Failure(PartialCredentials)
    ensures ("user" in config) == ("password" in config) ==> r == RunStep(config, prior, pathExists, scanner, workingDir)
  {
    match ValidateRuntimeStepConfig(config)
    case Fail(e) => Failure(e)
    case Pass => RunStep(config, prior, pathExists, scanner, workingDir)
  }

  // Properties of the argument lists.

  /**
    The scanner reads from the argument list exactly one value for each of
    the shared properties, and a login and password only in the credentialed
    variant.
   */
  lemma ArgumentsDefine(config: Config, version: string, creds: Credentials, workingDir: string)
    requires RequiredKeysPresent(config) && Configured(config, "properties")
    ensures var args := ScannerArgs(config, version, creds, workingDir);
      && Values(args, "project.settings") == [Value(config, "properties")]
      && Values(args, "sonar.host.url") == [Value(config, "url")]
      && Values(args, "sonar.projectVersion") == [version]
      && Values(args, "sonar.projectKey") == [Value(config, "application-name") + ":" + Value(config, "service-name")]
      && Values(args, "sonar.login") == (if creds.user == "" then [] else [creds.user])
      && Values(args, "sonar.password") == (if creds.user == "" then [] else [creds.password])
      && Values(args, "sonar.working.directory") == [workingDir]
  {
    LeadingValues(config, version, creds, workingDir);
    WorkingDirValue(config, version, creds, workingDir);
    CredentialValues(config, version, creds, workingDir);
  }

  /** The four leading properties, read from the encoding of ScannerDefinitions. */
  lemma LeadingValues(config: Config, version: string, creds: Credentials, workingDir: string)
    requires RequiredKeysPresent(config) && Configured(config, "properties")
    ensures var args := Encode(ScannerDefinitions(config, version, creds, workingDir));
      && Values(args, "project.settings") == [Value(config, "properties")]
      && Values(args, "sonar.host.url") == [Value(config, "url")]
      && Values(args, "sonar.projectVersion") == [version]
      && Values(args, "sonar.projectKey") == [ProjectKey(config)]
  {
    var defs := ScannerDefinitions(config, version, creds, workingDir);
    DefinitionKeys(config, version, creds, workingDir);
    ValueAt(defs, 0);
    ValueAt(defs, 1);
    ValueAt(defs, 2);
    ValueAt(defs, 3);
  }

  /** The working directory, read from the encoding of ScannerDefinitions. */
  lemma WorkingDirValue(config: Config, version: string, creds: Credentials, workingDir: string)
    requires RequiredKeysPresent(config) && Configured(config, "properties")
    ensures Values(Encode(ScannerDefinitions(config, version, creds, workingDir)), "sonar.working.directory")
            == [workingDir]
  {
    var defs := ScannerDefinitions(config, version, creds, workingDir);
    DefinitionKeys(config, version, creds, workingDir);
    ValueAt(defs, |defs| - 1);
  }

  /** The login and password, read from the encoding of ScannerDefinitions. */
  lemma CredentialValues(config: Config, version: string, creds: Credentials, workingDir: string)
    requires RequiredKeysPresent(config) && Configured(config, "properties")
    ensures var args := Encode(ScannerDefinitions(config, version, creds, workingDir));
      && Values(args, "sonar.login") == (if creds.user == "" then [] else [creds.user])
      && Values(args, "sonar.password") == (if creds.user == "" then [] else [creds.password])
  {
    if creds.user != "" {
      ChosenCredentialValues(config, version, creds, workingDir);
    } else {
      var defs := ScannerDefinitions(config, version, creds, workingDir);
      DefinitionKeys(config, version, creds, workingDir);
      CredentialsUnlisted(defs, "sonar.login");
      CredentialsUnlisted(defs, "sonar.password");
    }
  }

  lemma ChosenCredentialValues(config: Config, version: string, creds: Credentials, workingDir: string)
    requires RequiredKeysPresent(config) && Configured(config, "properties") && creds.user != ""
    ensures var args := Encode(ScannerDefinitions(config, version, creds, workingDir));
      Values(args, "sonar.login") == [creds.user] && Values(args, "sonar.password") == [creds.password]
  {
    var defs := ScannerDefinitions(config, version, creds, workingDir);
    DefinitionKeys(config, version, creds, workingDir);
    ValueAt(defs, 4);
    ValueAt(defs, 5);
  }

  lemma CredentialsUnlisted(defs: seq<(string, string)>, key: string)
    requires forall i :: 0 <= i < |defs| ==> WellFormedKey(defs[i].0) && defs[i].0 != key
    ensures Values(Encode(defs), key) == []
  {
    ValuesOfEncode(defs, key);
    LookupUnlisted(defs, key);
  }

  /** The encoded list gives the key of its i-th pair exactly that pair's value. */
  lemma ValueAt(defs: seq<(string, string)>, i: nat)
    requires DistinctKeys(defs) && forall j :: 0 <= j < |defs| ==> WellFormedKey(defs[j].0)
    requires i < |defs|
    ensures Values(Encode(defs), defs[i].0) == [defs[i].1]
  {
    ValuesOfEncode(defs, defs[i].0);
    LookupListed(defs, i);
  }

  /** The scanner property keys are well formed and pairwise distinct. */
  lemma DefinitionKeys(config: Config, version: string, creds: Credentials, workingDir: string)
    requires RequiredKeysPresent(config) && Configured(config, "properties")
    ensures var defs := ScannerDefinitions(config, version, creds, workingDir);
      DistinctKeys(defs) && forall i :: 0 <= i < |defs| ==> WellFormedKey(defs[i].0)
  {
  }

  /** The argument lists define no property beyond the seven the scanner is meant to read. */
  lemma NoOtherProperties(config: Config, version: string, creds: Credentials, workingDir: string, key: string)
    requires RequiredKeysPresent(config) && Configured(config, "properties")
    requires key !in ["project.settings", "sonar.host.url", "sonar.projectVersion", "sonar.projectKey",
                      "sonar.login", "sonar.password", "sonar.working.directory"]
    ensures Values(ScannerArgs(config, version, creds, workingDir), key) == []
  {
    var defs := ScannerDefinitions(config, version, creds, workingDir);
    DefinitionKeys(config, version, creds, workingDir);
    CredentialsUnlisted(defs, key);
  }

  /**
    The scanner is given a login and a password exactly when the configured
    user and password are both non-empty, and then the configured ones; a
    credential pair that passes validation with an empty value yields the
    list without credentials.
   */
  lemma CredentialArguments(config: Config, version: string, workingDir: string)
    requires RequiredKeysPresent(config) && Configured(config, "properties")
    ensures var args := ScannerArgs(config, version, ChooseCredentials(config), workingDir);
      var both := Truthy(config, "user") && Truthy(config, "password");
      && |args| == (if both then 7 else 5)
      && Values(args, "sonar.login") == (if both then [Value(config, "user")] else [])
      && Values(args, "sonar.password") == (if both then [Value(config, "password")] else [])
  {
    ArgumentsDefine(config, version, ChooseCredentials(config), workingDir);
  }

  /**
    The credentialed list is the list without credentials with the login and
    the password inserted just before the working-directory argument.
   */
  lemma CredentialedExtendsAnonymous(config: Config, version: string, creds: Credentials, workingDir: string)
    requires RequiredKeysPresent(config) && Configured(config, "properties")
    requires creds.user != ""
    ensures var anonymous := ScannerArgs(config, version, Credentials("", ""), workingDir);
      && |anonymous| == 5
      && ScannerArgs(config, version, creds, workingDir)
         == anonymous[..4] + ["-Dsonar.login=" + creds.user, "-Dsonar.password=" + creds.password] + [anonymous[4]]
  {
  }

  /** Both lists carry the project key `application-name:service-name` as their fourth argument. */
  lemma ProjectKeyArgument(config: Config, version: string, creds: Credentials, workingDir: string)
    requires RequiredKeysPresent(config) && Configured(config, "properties")
    ensures ScannerArgs(config, version, creds, workingDir)[3]
            == "-Dsonar.projectKey=" + Value(config, "application-name") + ":" + Value(config, "service-name")
  {
  }

  /**
    When the application name has no ':', the project key determines both
    names: the first ':' of the key ends the application name.
   */
  lemma ProjectKeyDeterminesNames(config1: Config, config2: Config)
    requires RequiredKeysPresent(config1) && RequiredKeysPresent(config2)
    requires ':' !in Value(config1, "application-name") && ':' !in Value(config2, "application-name")
    requires ProjectKey(config1) == ProjectKey(config2)
    ensures Value(config1, "application-name") == Value(config2, "application-name")
    ensures Value(config1, "service-name") == Value(config2, "service-name")
  {
  }

  /** With a ':' inside a name the key is ambiguous: `a:b` with `c` and `a` with `b:c` give the same key. */
  lemma ProjectKeyAmbiguous()
    ensures var config1 := map["url" := Some("u"), "application-name" := Some("a:b"), "service-name" := Some("c")];
      var config2 := map["url" := Some("u"), "application-name" := Some("a"), "service-name" := Some("b:c")];
      && RequiredKeysPresent(config1) && RequiredKeysPresent(config2)
      && ProjectKey(config1) == ProjectKey(config2)
      && Value(config1, "application-name") != Value(config2, "application-name")
  {
    assert "a:b" + ":" + "c" == "a" + ":" + "b:c";
  }

  // Properties of a run.

  /**
    Without a version from the metadata step the run fails with the version
    error, whatever the properties file and the scanner: the scanner is not
    called, and this error wins over a missing properties file.
   */
  lemma MissingVersionStopsRun(config: Config, prior: StepResults, pathExists: string -> bool,
                               scanner1: seq<string> -> ScannerOutcome, scanner2: seq<string> -> ScannerOutcome,
                               workingDir: string)
    requires RequiredKeysPresent(config) && !HasVersion(prior)
    ensures RunStep(config, prior, pathExists, scanner1, workingDir) == Failure(MissingVersion)
    ensures RunStep(config, prior, pathExists, scanner1, workingDir)
            == RunStep(config, prior, pathExists, scanner2, workingDir)
  {
  }

  /**
    With a version but without an existing properties file the run fails
    with the properties error, whatever the scanner: the scanner is not called.
   */
  lemma MissingPropertiesStopsRun(config: Config, prior: StepResults, pathExists: string -> bool,
                                  scanner1: seq<string> -> ScannerOutcome, scanner2: seq<string> -> ScannerOutcome,
                                  workingDir: string)
    requires RequiredKeysPresent(config) && HasVersion(prior) && !PropertiesUsable(config, pathExists)
    ensures var e := RunStep(config, prior, pathExists, scanner1, workingDir);
      && e == Failure(PropertiesNotFound(PropertiesPath(config)))
      && e.error.Class() == ValueError
      && e == RunStep(config, prior, pathExists, scanner2, workingDir)
  {
  }

  /**
    When the preconditions hold, the scanner's outcome on the argument list
    for the version and the chosen credentials decides the result: the
    success record, the runtime error wrapping an error return code, or any
    other exception unchanged.
   */
  lemma ScannerDecides(config: Config, prior: StepResults, pathExists: string -> bool,
                       scanner: seq<string> -> ScannerOutcome, workingDir: string)
    requires RequiredKeysPresent(config) && HasVersion(prior) && PropertiesUsable(config, pathExists)
    ensures var args := ScannerArgs(config, prior[MetadataStep]["version"], ChooseCredentials(config), workingDir);
      var r := RunStep(config, prior, pathExists, scanner, workingDir);
      && (scanner(args) == ExitOk ==> r == Success(SuccessResult(workingDir)))
      && (scanner(args).ErrorReturnCode? ==>
            && r == Failure(ScannerFailed(scanner(args).detail))
            && r.error.Class() == RuntimeError
            && r.error.Message() == "Error invoking sonarscanner: " + scanner(args).detail)
      && (scanner(args).OtherError? ==>
            && r == Failure(Uncaught(scanner(args).cls, scanner(args).description))
            && r.error.Class() == scanner(args).cls
            && r.error.Message() == scanner(args).description)
  {
  }

  /**
    A successful run returns success, the completion message and a single
    artifact, the report in the working directory.
   */
  lemma SuccessRecord(config: Config, prior: StepResults, pathExists: string -> bool,
                      scanner: seq<string> -> ScannerOutcome, workingDir: string)
    requires RequiredKeysPresent(config)
    requires RunStep(config, prior, pathExists, scanner, workingDir).Success?
    ensures var s := RunStep(config, prior, pathExists, scanner, workingDir).value;
      && s.success
      && s.message == "sonarqube step completed - see report-artifacts"
      && s.reportArtifacts == [ReportArtifact("sonarqube result set", "file://" + workingDir + "/report-task.txt")]
  {
  }

  /**
    The record of a successful run depends on the working directory alone,
    not on the configuration, the credentials, the version or the scanner.
   */
  lemma SuccessDependsOnlyOnWorkingDir(
    config1: Config, prior1: StepResults, pathExists1: string -> bool, scanner1: seq<string> -> ScannerOutcome,
    config2: Config, prior2: StepResults, pathExists2: string -> bool, scanner2: seq<string> -> ScannerOutcome,
    workingDir: string)
    requires RequiredKeysPresent(config1) && RequiredKeysPresent(config2)
    requires RunStep(config1, prior1, pathExists1, scanner1, workingDir).Success?
    requires RunStep(config2, prior2, pathExists2, scanner2, workingDir).Success?
    ensures RunStep(config1, prior1, pathExists1, scanner1, workingDir)
            == RunStep(config2, prior2, pathExists2, scanner2, workingDir)
  {
  }

  /** A configuration with exactly one of the credential keys fails validation, before anything else. */
  lemma PartialCredentialsStopRun(config: Config, prior: StepResults, pathExists: string -> bool,
                                  scanner: seq<string> -> ScannerOutcome, workingDir: string)
    requires RequiredKeysPresent(config) && ("user" in config) != ("password" in config)
    ensures var r := Run(config, prior, pathExists, scanner, workingDir);
      r == Failure(PartialCredentials) && r.error.Class() == AssertionError
  {
  }

  /**
    A key that is present with a None value counts as configured for the
    credential-pair rule but not as a credential: a user left None beside a
    password passes validation and is scanned without a login, while a user
    left None on its own fails validation.
   */
  lemma NoneCredentialValue(config: Config, version: string, workingDir: string)
    requires RequiredKeysPresent(config) && Configured(config, "properties")
    requires "user" in config && config["user"] == None
    ensures ValidateRuntimeStepConfig(config).Pass? <==> "password" in config
    ensures var args := ScannerArgs(config, version, ChooseCredentials(config), workingDir);
      |args| == 5 && Values(args, "sonar.login") == []
  {
    CredentialArguments(config, version, workingDir);
  }

  /** A configuration left at the default properties value is checked against `./sonar-project.properties`. */
  lemma DefaultPropertiesChecked(config: Config, pathExists: string -> bool)
    requires GetConfigValue(config, "properties") == GetConfigValue(ConfigDefaults(), "properties")
    ensures CheckProperties(config, pathExists)
            == if pathExists("./sonar-project.properties") then Success("./sonar-project.properties")
               else Failure(PropertiesNotFound("./sonar-project.properties"))
  {
  }

  /** Within one exception class, the message tells the errors apart. */
  lemma MessageIdentifiesError(e1: StepError, e2: StepError)
    requires e1.Class() == e2.Class() && e1.Message() == e2.Message()
    ensures e1.Uncaught? == e2.Uncaught? ==> e1 == e2
  {
    if e1.Uncaught? == e2.Uncaught? {
      match e1
      case PropertiesNotFound(p1) =>
        if e2.MissingVersion? {
          ValueErrorMessagesDiffer(p1);
        } else {
          var prefix := "Properties file in tssc config not found: ";
          assert e1.Message()[|prefix|..] == p1;
          assert e2.Message()[|prefix|..] == e2.properties;
        }
      case MissingVersion =>
        if e2.PropertiesNotFound? {
          ValueErrorMessagesDiffer(e2.properties);
        }
      case ScannerFailed(d1) =>
        var prefix := "Error invoking sonarscanner: ";
        assert e1.Message()[|prefix|..] == d1;
        assert e2.Message()[|prefix|..] == e2.detail;
      case _ =>
    }
  }

  /**
    An exception passed through from the scanner call can carry the class
    and the message of one of the step's own errors, so the two cannot be
    told apart from the outside.
   */
  lemma UncaughtMimicsOwnError()
    ensures var u := Uncaught(ValueError, MissingVersion.Message());
      u.Class() == MissingVersion.Class() && u.Message() == MissingVersion.Message() && u != MissingVersion
  {
  }

  lemma ValueErrorMessagesDiffer(p: string)
    ensures MissingVersion.Message() != PropertiesNotFound(p).Message()
  {
    var severe := "Severe error: ";
    var prefix := "Properties file in tssc config not found: ";
    assert MissingVersion.Message()[0] == severe[0] == 'S';
    assert PropertiesNotFound(p).Message()[0] == prefix[0] == 'P';
  }

  // Worked examples.

  /** An example configuration, with or without a credential pair. */
  function ExampleConfig(withCredentials: bool): (c: Config)
    ensures RequiredKeysPresent(c) && Configured(c, "properties")
    ensures Value(c, "application-name") == "app" && Value(c, "service-name") == "svc"
  {
    var base := map["url" := Some("https://sonar.example.com"), "application-name" := Some("app"),
                    "service-name" := Some("svc"), "properties" := Some("./sonar-project.properties")];
    if withCredentials then base["user" := Some("u")]["password" := Some("p")] else base
  }

  /** The metadata result of the example. */
  function ExamplePrior(): StepResults
  {
    map[MetadataStep := map["version" := "1.2.3"]]
  }

  /** The example passes every check and is scanned with its own credentials. */
  lemma ExamplePrepared(withCredentials: bool)
    ensures var config := ExampleConfig(withCredentials);
      var creds := if withCredentials then Credentials("u", "p") else Credentials("", "");
      && ProjectKey(config) == "app:svc"
      && Prepare(config, ExamplePrior(), path => true, "/work")
         == Success(ScannerArgs(config, "1.2.3", creds, "/work"))
  {
    assert "app" + ":" + "svc" == "app:svc";
  }

  /** With a scanner that exits successfully, the example run returns the success record. */
  lemma ExampleRun(withCredentials: bool)
    ensures Run(ExampleConfig(withCredentials), ExamplePrior(), path => true, args => ExitOk, "/work")
            == Success(SuccessResult("/work"))
  {
    ExamplePrepared(withCredentials);
  }

  /**
    A run of the example without credentials calls the scanner with the
    project key `app:svc`, the version `1.2.3` and no login, and returns the
    success record for its working directory.
   */
  lemma ExampleWithoutCredentials()
    ensures var prepared := Prepare(ExampleConfig(false), ExamplePrior(), path => true, "/work");
      && prepared.Success?
      && |prepared.value| == 5
      && Values(prepared.value, "sonar.projectKey") == ["app:svc"]
      && Values(prepared.value, "sonar.projectVersion") == ["1.2.3"]
      && Values(prepared.value, "sonar.login") == []
      && Run(ExampleConfig(false), ExamplePrior(), path => true, args => ExitOk, "/work")
         == Success(StepResult(true, "sonarqube step completed - see report-artifacts",
                               [ReportArtifact("sonarqube result set", "file:///work/report-task.txt")]))
  {
    ExamplePrepared(false);
    ExampleRun(false);
    ArgumentsDefine(ExampleConfig(false), "1.2.3", Credentials("", ""), "/work");
    ExampleReportPath();
  }

  lemma ExampleReportPath()
    ensures SuccessResult("/work")
            == StepResult(true, "sonarqube step completed - see report-artifacts",
                          [ReportArtifact("sonarqube result set", "file:///work/report-task.txt")])
  {
    assert ReportPath("/work") == "file:///work/report-task.txt";
  }

  /** The same run with user `u` and password `p` adds their arguments and returns the same record. */
  lemma ExampleWithCredentials()
    ensures var prepared := Prepare(ExampleConfig(true), ExamplePrior(), path => true, "/work");
      && prepared.Success?
      && |prepared.value| == 7
      && Values(prepared.value, "sonar.projectKey") == ["app:svc"]
      && Values(prepared.value, "sonar.login") == ["u"]
      && Values(prepared.value, "sonar.password") == ["p"]
    ensures Run(ExampleConfig(true), ExamplePrior(), path => true, args => ExitOk, "/work")
            == Run(ExampleConfig(false), ExamplePrior(), path => true, args => ExitOk, "/work")
  {
    var args := ScannerArgs(ExampleConfig(true), "1.2.3", Credentials("u", "p"), "/work");
    ExamplePrepared(true);
    ExampleCredentialedArgs(args);
    ExampleRun(true);
    ExampleRun(false);
  }

  lemma ExampleCredentialedArgs(args: seq<string>)
    requires args == ScannerArgs(ExampleConfig(true), "1.2.3", Credentials("u", "p"), "/work")
    ensures && |args| == 7
            && Values(args, "sonar.projectKey") == ["app:svc"]
            && Values(args, "sonar.login") == ["u"]
            && Values(args, "sonar.password") == ["p"]
  {
    ExamplePrepared(true);
    ArgumentsDefine(ExampleConfig(true), "1.2.3", Credentials("u", "p"), "/work");
  }
}
