# Data Theorem build upload: handshake and build step

A Dafny model of the Jenkins plugin that uploads a mobile build (an `.apk` or
`.ipa`) to Data Theorem. Two files of the plugin are modelled:

- `SendBuildAction`: the two-step handshake. `uploadInit` posts the API key to the
  fixed upload_init endpoint and, on a 200 answer whose JSON object carries a non-null
  `upload_url`, stores that URL in the mutable field `uploadUrl`; `uploadBuild`
  posts the build file to that URL; `perform` runs the upload only when init
  succeeded. Every outcome is a `SendBuildMessage(success, message)` with fixed text.
  The class keeps its `uploadUrl` field; the case analysis of each HTTP outcome is a
  pure function (`ClassifyInit`, `ClassifyUpload`) that the methods call.
- `SendBuildToDataTheoremPublisher`: the job-configuration check of the build name,
  the choice of API key source (`getSecretKey`), and `perform`, which sets the run's
  result step by step with early returns. `Decide` states what `perform` does; the
  method is proved against it and the lemmas state its properties.

HTTP calls, the JSON parser and the artifact locator are inputs: an `HttpOutcome`
(a response with a status and an optional body, an unknown host, another I/O failure),
a function `parse: string -> ParseResult` standing for `JSONParser.parse` plus the
cast to `JSONObject`, and the locator's `Option<Location>`.

Files: `wrappers.dfy` (Option, map lookup), `java_strings.dfy` (toLowerCase,
endsWith, startsWith), `send_build_action.dfy` (module SendBuild),
`publisher.dfy` (module BuildPublisher).

## Model

| member | source | states |
|---|---|---|
| SendBuild.ClassifyInit | src/main/java/com/datatheorem/mobileappsecurity/jenkins/plugin/SendBuildAction.java:94-153 | success exactly when a URL is kept, which happens exactly for a 200 with a body that parses to an object whose upload_url is present and not null; the kept URL is that value's string form; a success message is never empty; every message for a response with a body ends with the raw body |
| SendBuild.ClassifyUpload | src/main/java/com/datatheorem/mobileappsecurity/jenkins/plugin/SendBuildAction.java:192-222 | success exactly for a 200 with a body; every message for a response with a body ends with the raw body |
| SendBuild.SendBuildAction.constructor | src/main/java/com/datatheorem/mobileappsecurity/jenkins/plugin/SendBuildAction.java:56-66 | keeps the API key; no upload URL yet |
| SendBuild.SendBuildAction.UploadInitRequest | src/main/java/com/datatheorem/mobileappsecurity/jenkins/plugin/SendBuildAction.java:163-173 | POST to the fixed upload_init URL, no entity, headers exactly Authorization = API key and User-Agent = "Jenkins Upload API Plugin 1.0.0", each once, and no other header or value |
| SendBuild.SendBuildAction.UploadBuildRequest | src/main/java/com/datatheorem/mobileappsecurity/jenkins/plugin/SendBuildAction.java:232-241 | needs a stored upload URL; POST to it with the file as the multipart part "file", and the User-Agent header, once, as its only header (so no Authorization header) |
| SendBuild.SendBuildAction.UploadInit | src/main/java/com/datatheorem/mobileappsecurity/jenkins/plugin/SendBuildAction.java:86-154 | returns the init classification; on success uploadUrl becomes the URL from the payload, otherwise it is unchanged |
| SendBuild.SendBuildAction.UploadBuild | src/main/java/com/datatheorem/mobileappsecurity/jenkins/plugin/SendBuildAction.java:180-223 | the request goes to the stored upload URL; the reply is the upload classification |
| SendBuild.SendBuildAction.Perform | src/main/java/com/datatheorem/mobileappsecurity/jenkins/plugin/SendBuildAction.java:68-84 | if init succeeded: the init and then the upload request go out, the upload goes to the URL init returned, and the reply is the upload's; otherwise only the init request goes out, uploadUrl is unchanged and the init message is returned as it is |
| SendBuild.InitEmptyBody | src/main/java/com/datatheorem/mobileappsecurity/jenkins/plugin/SendBuildAction.java:136-140 | no entity gives the empty-body failure whatever the status, and no URL |
| SendBuild.InitForbidden | src/main/java/com/datatheorem/mobileappsecurity/jenkins/plugin/SendBuildAction.java:102-106 | 401 with a body fails with exactly the forbidden text plus the body |
| SendBuild.InitSession | src/main/java/com/datatheorem/mobileappsecurity/jenkins/plugin/SendBuildAction.java:110-129 | 200 with a non-null upload_url succeeds, keeps that URL, and the message is the success text plus the body |
| SendBuild.InitWrongPayload | src/main/java/com/datatheorem/mobileappsecurity/jenkins/plugin/SendBuildAction.java:112-123 | 200 with unparsable JSON, a non-object, or a missing or null upload_url fails with the wrong-payload text plus the body and keeps no URL |
| SendBuild.InitOtherFailures | src/main/java/com/datatheorem/mobileappsecurity/jenkins/plugin/SendBuildAction.java:130-153 | another status with a body, an unknown host and another I/O failure each give their own failure text and keep no URL |
| SendBuild.ForbiddenIsDistinguishable | src/main/java/com/datatheorem/mobileappsecurity/jenkins/plugin/SendBuildAction.java:101-106 | a message starts with the forbidden text exactly when the outcome was a 401 with a body |
| SendBuild.UploadOutcomes | src/main/java/com/datatheorem/mobileappsecurity/jenkins/plugin/SendBuildAction.java:196-221 | 200 with a body succeeds and another status fails, both quoting the body; a missing entity and an I/O failure fail with fixed texts; an unknown host is treated as any I/O failure |
| JavaStrings.ToLowerCase | src/main/java/com/datatheorem/mobileappsecurity/jenkins/plugin/SendBuildToDataTheoremPublisher.java:260 | same length, each character lowered on its own |
| BuildPublisher.DoCheckBuildToUpload | src/main/java/com/datatheorem/mobileappsecurity/jenkins/plugin/SendBuildToDataTheoremPublisher.java:257-265 | a build name is ok exactly when it is non-empty, at least 5 characters long, and its lower-cased form ends in .apk or .ipa; the empty-name error exactly for "", the suffix error exactly for a non-empty name without the suffix, "too short" exactly for a name with the suffix and fewer than 5 characters |
| BuildPublisher.ShortNameIsBareSuffix | src/main/java/com/datatheorem/mobileappsecurity/jenkins/plugin/SendBuildToDataTheoremPublisher.java:260-263 | a name that passes the suffix test with fewer than 5 characters is exactly four characters, lowers to ".apk" or ".ipa", and gets "too short" |
| BuildPublisher.CheckOrder | src/main/java/com/datatheorem/mobileappsecurity/jenkins/plugin/SendBuildToDataTheoremPublisher.java:258-263 | "" gets the empty-name error, ".apk" and ".IPA" get "too short", "app.zip" gets the suffix error |
| BuildPublisher.CheckIgnoresCase | src/main/java/com/datatheorem/mobileappsecurity/jenkins/plugin/SendBuildToDataTheoremPublisher.java:260 | a name and its lower-cased form get the same verdict; "APP.APK" is ok |
| BuildPublisher.ChooseRoute | src/main/java/com/datatheorem/mobileappsecurity/jenkins/plugin/SendBuildToDataTheoremPublisher.java:145-167 | the proxy route is chosen exactly when the hostname is non-null and non-empty, and then carries the configured host, port, username, password and unsecured-connection flag, unchanged |
| BuildPublisher.GateKeepsPriorResult | src/main/java/com/datatheorem/mobileappsecurity/jenkins/plugin/SendBuildToDataTheoremPublisher.java:111-118 | a prior result at UNSTABLE or worse is set back unchanged, with no search and no send |
| BuildPublisher.NotFoundIsUnstable | src/main/java/com/datatheorem/mobileappsecurity/jenkins/plugin/SendBuildToDataTheoremPublisher.java:124-129 | no artifact found gives UNSTABLE and no send |
| BuildPublisher.DontUploadIsSuccess | src/main/java/com/datatheorem/mobileappsecurity/jenkins/plugin/SendBuildToDataTheoremPublisher.java:138-142 | artifact found with don't-upload set gives SUCCESS and no send |
| BuildPublisher.SendDecidesResult | src/main/java/com/datatheorem/mobileappsecurity/jenkins/plugin/SendBuildToDataTheoremPublisher.java:169-182 | after a send of the found path with the chosen route and key, the result is SUCCESS exactly when the send succeeded, else UNSTABLE |
| BuildPublisher.SuccessIff | src/main/java/com/datatheorem/mobileappsecurity/jenkins/plugin/SendBuildToDataTheoremPublisher.java:111-182 | SUCCESS exactly when the prior result was null or SUCCESS, the artifact was found, and either no upload was asked for or the send succeeded; a send happens only after a successful search without don't-upload |
| BuildPublisher.SetResultAgreesWithWorsenOnly | src/main/java/com/datatheorem/mobileappsecurity/jenkins/plugin/SendBuildToDataTheoremPublisher.java:111-182 | the single result perform sets is never better than the prior one, so a setResult that only lets results get worse would give the same final result |
| BuildPublisher.Run.SetResult | src/main/java/com/datatheorem/mobileappsecurity/jenkins/plugin/SendBuildToDataTheoremPublisher.java:116 | the run's result becomes the given value |
| BuildPublisher.Publisher.constructor | src/main/java/com/datatheorem/mobileappsecurity/jenkins/plugin/SendBuildToDataTheoremPublisher.java:43-63 | keeps every configured setting; the API key field starts null |
| BuildPublisher.Publisher.SetDataTheoremUploadApiKey | src/main/java/com/datatheorem/mobileappsecurity/jenkins/plugin/SendBuildToDataTheoremPublisher.java:69-75 | the API key field becomes the given value |
| BuildPublisher.Publisher.GetSecretKey | src/main/java/com/datatheorem/mobileappsecurity/jenkins/plugin/SendBuildToDataTheoremPublisher.java:77-98 | for a post-build action (AbstractBuild) the key is the DATA_THEOREM_UPLOAD_API_KEY environment value, null when it is absent; otherwise it is the configured field unchanged, null included |
| BuildPublisher.Publisher.Perform | src/main/java/com/datatheorem/mobileappsecurity/jenkins/plugin/SendBuildToDataTheoremPublisher.java:100-183 | the run's final result, whether the artifact was looked for, and the send step taken are those of Decide for the prior result, the locator's answer, the don't-upload flag, the configured route and the secret key |

## Behaviour worth noting

- A build that is not found ends the step with the run set to UNSTABLE; no
  SendBuildMessage is produced, only a console line is logged
  (SendBuildToDataTheoremPublisher.java:125-128).
- The direct route is taken when the proxy hostname is null or empty
  (SendBuildToDataTheoremPublisher.java:145).
- The upload step catches only IOException, so an unknown host there gets the generic
  IOException text (SendBuildAction.java:215-220); only uploadInit gives it its own text
  (SendBuildAction.java:142-147).
- SendBuildAction.perform tests both the success flag and a non-empty message
  (SendBuildAction.java:79); every successful init message starts with fixed text
  (SendBuildAction.java:126-129), so this is "upload exactly when init succeeded".

## Left out

- HTTP execution, reading the response entity and building the multipart body from the
  file: replaced by the `HttpOutcome` inputs. An I/O error while reading the entity is
  the `IoFailure` outcome.
- The JSON parser: replaced by the `parse` function; a JSON value is null or its
  `toString()` rendering.
- Console logging and `printStackTrace`: no effect on results.
- `FindBuildPathAction` (the artifact locator) is not part of this model; its answer is an input.
- Proxy transport and the unverified-TLS toggle: the modelled `SendBuildAction` has
  neither. The publisher calls `SendBuildAction` constructors with three and eight
  arguments and `perform(buildPath, inArtifactFolder)`, none of which the modelled
  class defines; that call is the opaque `SendStep` (key, route, path, folder flag)
  whose outcome, the `sendResult` message, is an input.
- Jenkins plumbing: `Secret` encryption (the proxy password is its plain text, a
  `string`, since `Secret.fromString` turns null into the empty string),
  `getDisplayName`, `isApplicable`, `getRequiredMonitorService`, the getters, the
  data-binding annotations and serialisation.
- `BuildPublisher.Publisher.GetSecretKey`: Jenkins's environment map compares variable
  names without regard to case; the model's lookup is exact, so environment keys are
  taken as already in canonical form.
- `BuildPublisher.Publisher.GetSecretKey`: the `IOException` and `InterruptedException`
  that `run.getEnvironment` may throw out of `perform` are not modelled.
- `BuildPublisher.Run.SetResult`: modelled as an assignment; Jenkins's own rule that a
  result only gets worse is host code, and `SetResultAgreesWithWorsenOnly` shows it
  makes no difference to `perform`.
- `JavaStrings.ToLowerCase`: lowers only 'A'..'Z' and the Kelvin sign, the characters
  that `String.toLowerCase` in a non-Turkish locale turns into one ASCII letter (U+0130
  becomes "i" followed by a combining dot, which cannot end ".ipa"); other letters keep their case, which
  cannot change whether a name ends in .apk or .ipa. Locale-dependent lowering (a
  Turkish locale turns 'I' into a dotless i) is not modelled.
- `SendBuild.SendBuildAction.UploadBuildRequest`: an upload URL the HTTP client
  refuses as malformed (an unchecked exception) is not modelled.
- An exception's `getMessage()` is the `detail` string; a null message, which Java
  prints as "null", is up to the caller to supply as that text.
- Java counts string length in UTF-16 units and Dafny in characters; the length test of
  the build-name check gives the same verdict either way, because a name that passes
  the suffix test with fewer than 5 characters is exactly four characters long.
