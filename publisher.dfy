/** The build step around the handshake: the job-configuration check of the build name,
    the choice of the API key source, and the steps of perform that set the run's
    result. The artifact search and the send itself are inputs. */
module BuildPublisher {
  import opened Wrappers
  import opened JavaStrings
  import opened SendBuild

  /** Jenkins's build results, worst last. */
  datatype Result = Success | Unstable | Failure | NotBuilt | Aborted
  {
    function Ordinal(): nat
    {
      match this
      case Success => 0
      case Unstable => 1
      case Failure => 2
      case NotBuilt => 3
      case Aborted => 4
    }

    predicate IsWorseOrEqualTo(that: Result)
    {
      Ordinal() >= that.Ordinal()
    }

    predicate IsWorseThan(that: Result)
    {
      Ordinal() > that.Ordinal()
    }
  }

  /** FormValidation: ok, or an error with its text. */
  datatype FormValidation = Ok | Error(message: string)

  const EMPTY_NAME: string := "The build name is empty"
  const BAD_SUFFIX: string := "the build name should ends with .apk or .ipa"
  const TOO_SHORT: string := "The build name is too short"

  const API_KEY_VARIABLE: string := "DATA_THEOREM_UPLOAD_API_KEY"

  /** The lower-cased name ends in .apk or .ipa. */
  predicate HasBuildSuffix(value: string)
  {
    EndsWith(ToLowerCase(value), ".apk") || EndsWith(ToLowerCase(value), ".ipa")
  }

  /** DescriptorImpl.doCheckBuildToUpload: empty first, then the suffix, then the length.
      A name is accepted exactly when it is non-empty, at least five characters long, and
      its lower-cased form ends in .apk or .ipa; each error names the first test it fails. */
  function DoCheckBuildToUpload(value: string): (r: FormValidation)
    ensures r == Ok <==> value != "" && |value| >= 5 && HasBuildSuffix(value)
    ensures r == Error(EMPTY_NAME) <==> value == ""
    ensures r == Error(BAD_SUFFIX) <==> value != "" && !HasBuildSuffix(value)
    ensures r == Error(TOO_SHORT) <==> value != "" && HasBuildSuffix(value) && |value| < 5
  {
    if |value| == 0 then Error(EMPTY_NAME)
    else if !HasBuildSuffix(value) then Error(BAD_SUFFIX)
    else if |value| < 5 then Error(TOO_SHORT)
    else Ok
  }

  /** The length test comes after the suffix test, so it can only catch a name that is
      the bare four-character suffix, such as ".apk" or ".IPA". */
  lemma {:induction false} ShortNameIsBareSuffix(value: string)
    requires HasBuildSuffix(value) && |value| < 5
    ensures |value| == 4 && DoCheckBuildToUpload(value) == Error(TOO_SHORT)
    ensures ToLowerCase(value) == ".apk" || ToLowerCase(value) == ".ipa"
  {
    var lowered := ToLowerCase(value);
    assert lowered[|lowered| - |lowered|..] == lowered;
  }

  /** The checks run in order: an empty name is "empty", not a suffix error; a bare
      ".apk" or ".IPA" passes the suffix test and is "too short". */
  lemma CheckOrder()
    ensures DoCheckBuildToUpload("") == Error(EMPTY_NAME)
    ensures DoCheckBuildToUpload(".apk") == Error(TOO_SHORT)
    ensures DoCheckBuildToUpload(".IPA") == Error(TOO_SHORT)
    ensures DoCheckBuildToUpload("app.zip") == Error(BAD_SUFFIX)
  {
    assert ToLowerCase(".apk") == ".apk";
    assert ToLowerCase(".IPA") == ".ipa";
    assert ToLowerCase("app.zip")[6] == 'p';
  }

  /** The check ignores case: a name and its lower-cased form get the same verdict,
      so "APP.APK" is accepted. */
  lemma {:induction false} CheckIgnoresCase(value: string)
    ensures DoCheckBuildToUpload(value) == DoCheckBuildToUpload(ToLowerCase(value))
    ensures DoCheckBuildToUpload("APP.APK") == Ok
  {
    LowerCaseIdempotent(value);
    assert ToLowerCase("APP.APK") == "app.apk";
  }

  datatype Location = Location(path: string, inArtifactFolder: bool)

  /** How the build is sent: directly, or through the configured proxy. */
  datatype Route =
    | Direct
    | ViaProxy(hostname: string, port: int, username: Option<string>, password: string, unsecured: bool)

  /** The opaque send step: the key it is given, the route, and where the build is. */
  datatype SendStep = SendStep(apiKey: Option<string>, route: Route, buildPath: string, inArtifactFolder: bool)

  /** What perform does: the run's final result, whether the artifact was looked for,
      and the send step taken, if any. */
  datatype Decision = Decision(result: Result, searched: bool, send: Option<SendStep>)

  /** The proxy is used exactly when a hostname is configured and is not empty. */
  function ChooseRoute(hostname: Option<string>, port: int, username: Option<string>,
                       password: string, unsecured: bool): (route: Route)
    ensures route.ViaProxy? <==> hostname.Some? && hostname.value != ""
    ensures route.ViaProxy? ==> route == ViaProxy(hostname.value, port, username, password, unsecured)
  {
    if hostname.None? || hostname.value == "" then Direct
    else ViaProxy(hostname.value, port, username, password, unsecured)
  }

  /** The decisions of perform, given the result before the step, the locator's answer,
      the don't-upload flag, the route and key a send would use, and the message the
      send step returns. */
  function Decide(prior: Option<Result>, located: Option<Location>, dontUpload: bool,
                  route: Route, key: Option<string>, sent: SendBuildMessage): Decision
  {
    if prior.Some? && prior.value.IsWorseOrEqualTo(Unstable) then
      Decision(prior.value, false, None)
    else if located.None? then
      Decision(Unstable, true, None)
    else if dontUpload then
      Decision(Success, true, None)
    else
      var step := SendStep(key, route, located.value.path, located.value.inArtifactFolder);
      Decision(if sent.success then Success else Unstable, true, Some(step))
  }

  /** A prior result at UNSTABLE or worse is set again unchanged, before any search or send. */
  lemma GateKeepsPriorResult(prior: Result, located: Option<Location>, dontUpload: bool,
                             route: Route, key: Option<string>, sent: SendBuildMessage)
    requires prior.IsWorseOrEqualTo(Unstable)
    ensures Decide(Some(prior), located, dontUpload, route, key, sent) == Decision(prior, false, None)
  {
  }

  /** No artifact: UNSTABLE, and nothing is sent. */
  lemma NotFoundIsUnstable(prior: Option<Result>, dontUpload: bool,
                           route: Route, key: Option<string>, sent: SendBuildMessage)
    requires prior.None? || !prior.value.IsWorseOrEqualTo(Unstable)
    ensures Decide(prior, None, dontUpload, route, key, sent) == Decision(Unstable, true, None)
  {
  }

  /** Artifact found and don't-upload set: SUCCESS, and nothing is sent. */
  lemma DontUploadIsSuccess(prior: Option<Result>, location: Location,
                            route: Route, key: Option<string>, sent: SendBuildMessage)
    requires prior.None? || !prior.value.IsWorseOrEqualTo(Unstable)
    ensures Decide(prior, Some(location), true, route, key, sent) == Decision(Success, true, None)
  {
  }

  /** After a send, the result is SUCCESS exactly when the send succeeded, else UNSTABLE;
      the send gets the found path and the given route and key. */
  lemma SendDecidesResult(prior: Option<Result>, location: Location,
                          route: Route, key: Option<string>, sent: SendBuildMessage)
    requires prior.None? || !prior.value.IsWorseOrEqualTo(Unstable)
    ensures var d := Decide(prior, Some(location), false, route, key, sent);
      && d.send == Some(SendStep(key, route, location.path, location.inArtifactFolder))
      && (d.result == Success <==> sent.success)
      && (!sent.success ==> d.result == Unstable)
  {
  }

  /** Overall: the step ends in SUCCESS exactly when the prior result was null or SUCCESS,
      the artifact was found, and either no upload was asked for or the send succeeded;
      and something is sent only after a search that found the artifact. */
  lemma SuccessIff(prior: Option<Result>, located: Option<Location>, dontUpload: bool,
                   route: Route, key: Option<string>, sent: SendBuildMessage)
    ensures var d := Decide(prior, located, dontUpload, route, key, sent);
      && (d.result == Success
          <==> (prior.None? || prior == Some(Success)) && located.Some? && (dontUpload || sent.success))
      && (d.send.Some? ==> d.searched && located.Some? && !dontUpload)
  {
  }

  /** The model's setResult assigns. Jenkins only lets a result get worse; under the
      gate both rules give the same final result, because perform sets the result once
      and only when the prior result was null or SUCCESS, or to the prior value itself. */
  function WorsenOnly(current: Option<Result>, r: Result): Result
  {
    if current.None? || r.IsWorseThan(current.value) then r else current.value
  }

  lemma SetResultAgreesWithWorsenOnly(prior: Option<Result>, located: Option<Location>, dontUpload: bool,
                                      route: Route, key: Option<string>, sent: SendBuildMessage)
    ensures var d := Decide(prior, located, dontUpload, route, key, sent);
      WorsenOnly(prior, d.result) == d.result
  {
  }

  /** The run a build step is performed on. */
  class Run {
    var result: Option<Result>
    /** `run instanceof AbstractBuild`: a classic post-build action, not a pipeline step. */
    const isAbstractBuild: bool
    /** run.getEnvironment(listener) */
    const environment: map<string, string>

    constructor (result: Option<Result>, isAbstractBuild: bool, environment: map<string, string>)
      ensures this.result == result && this.isAbstractBuild == isAbstractBuild
      ensures this.environment == environment
    {
      this.result := result;
      this.isAbstractBuild := isAbstractBuild;
      this.environment := environment;
    }

    method SetResult(r: Result)
      modifies this`result
      ensures result == Some(r)
    {
      result := Some(r);
    }
  }

  /** SendBuildToDataTheoremPublisher: the configured build name, flags and proxy
      settings, and the API key a pipeline may set. */
  class Publisher {
    const buildToUpload: string
    const dontUpload: bool
    const proxyHostname: Option<string>
    const proxyPort: int
    const proxyUsername: Option<string>
    /** The plain text of the proxy password secret; Secret.fromString turns null into "". */
    const proxyPassword: string
    const proxyUnsecuredConnection: bool
    var dataTheoremUploadApiKey: Option<string>

    constructor (buildToUpload: string, dontUpload: bool, proxyHostname: Option<string>, proxyPort: int,
                 proxyUsername: Option<string>, proxyPassword: string, proxyUnsecuredConnection: bool)
      ensures this.buildToUpload == buildToUpload && this.dontUpload == dontUpload
      ensures this.proxyHostname == proxyHostname && this.proxyPort == proxyPort
      ensures this.proxyUsername == proxyUsername && this.proxyPassword == proxyPassword
      ensures this.proxyUnsecuredConnection == proxyUnsecuredConnection
      ensures dataTheoremUploadApiKey == None
    {
      this.buildToUpload := buildToUpload;
      this.dontUpload := dontUpload;
      this.proxyHostname := proxyHostname;
      this.proxyPort := proxyPort;
      this.proxyUsername := proxyUsername;
      this.proxyPassword := proxyPassword;
      this.proxyUnsecuredConnection := proxyUnsecuredConnection;
      dataTheoremUploadApiKey := None;
    }

    method SetDataTheoremUploadApiKey(key: Option<string>)
      modifies this`dataTheoremUploadApiKey
      ensures dataTheoremUploadApiKey == key
    {
      dataTheoremUploadApiKey := key;
    }

    /** getSecretKey: a post-build action reads the key from the build environment; a
        pipeline step uses the configured field as it is, null included. */
    function GetSecretKey(run: Run): (key: Option<string>)
      reads this
      ensures run.isAbstractBuild ==> (key.Some? <==> API_KEY_VARIABLE in run.environment)
      ensures run.isAbstractBuild && key.Some? ==> key.value == run.environment[API_KEY_VARIABLE]
      ensures !run.isAbstractBuild ==> key == dataTheoremUploadApiKey
    {
      if run.isAbstractBuild then Get(run.environment, API_KEY_VARIABLE)
      else dataTheoremUploadApiKey
    }

    /** The route perform picks from this publisher's proxy settings. */
    function ConfiguredRoute(): Route
    {
      ChooseRoute(proxyHostname, proxyPort, proxyUsername, proxyPassword, proxyUnsecuredConnection)
    }

    /** perform. `located` is the locator's answer and `sendResult` what the send step
        returns; each is used only if perform gets that far. */
    method Perform(run: Run, located: Option<Location>, sendResult: SendBuildMessage)
      returns (searched: bool, send: Option<SendStep>)
      modifies run`result
      ensures var d := Decide(old(run.result), located, dontUpload, ConfiguredRoute(), GetSecretKey(run), sendResult);
        run.result == Some(d.result) && searched == d.searched && send == d.send
    {
      searched, send := false, None;
      var result := run.result;
      if result.Some? && result.value.IsWorseOrEqualTo(Unstable) {
        run.SetResult(result.value);
        return;
      }

      searched := true;
      if located.None? {
        run.SetResult(Unstable);
        return;
      }
      var location := located.value;

      if dontUpload {
        run.SetResult(Success);
        return;
      }

      // The direct send when no proxy hostname is set, the proxy send otherwise.
      var route := ConfiguredRoute();
      send := Some(SendStep(GetSecretKey(run), route, location.path, location.inArtifactFolder));

      if !sendResult.success {
        run.SetResult(Unstable);
        return;
      }
      run.SetResult(Success);
    }
  }
}
