/**
 * Deployment synthesizer: `getOAuthServerDeployment` turns the freshly
 * loaded OAuth server deployment template into the finished manifest,
 * changing it in place step by step.
 */
module Deployment {
  import opened Results
  import opened Text
  import opened Unstructured
  import opened ServerArguments

  const RvsHashAnnotation: string := "operator.openshift.io/rvs-hash"
  const BootstrapUserAnnotation: string := "operator.openshift.io/bootstrap-user-exists"
  const ImagePlaceholder: string := "${IMAGE}"
  const LogLevelPlaceholder: string := "${LOG_LEVEL}"
  /** The verbosity written into the arguments: fixed, whatever the operator's log level. */
  const PinnedLogLevel: string := "5"
  const ServerArgumentsPlaceholder: string := "${SERVER_ARGUMENTS}"

  datatype EnvVar = EnvVar(name: string, value: string)

  /** A pod volume; its content is opaque here. */
  datatype Volume = Volume(name: string)

  /** A container volume mount; its content is opaque here. */
  datatype VolumeMount = VolumeMount(name: string, mountPath: string)

  /** `proxy.Status`: the three values the proxy environment is built from. */
  datatype ProxyStatus = ProxyStatus(noProxy: string, httpProxy: string, httpsProxy: string)

  /** What reading the IDP sync data and turning it into volumes and mounts yields. */
  datatype IdpVolumes =
    | SyncDataFailed(reason: string)
    | TransformFailed(reason: string)
    | Transformed(volumes: seq<Volume>, mounts: seq<VolumeMount>)

  datatype SynthesisError =
    | IdpSyncDataError(reason: string)       // "Unable to get IDP sync data"
    | IdpTransformError(reason: string)      // "Unable to transform observed IDP sync data to volumes and mounts"
    | ServerArgumentsError(cause: ExtractError) // "Unable to get audit sync data"

  // ---------------------------------------------------------------------
  // Environment and log level
  // ---------------------------------------------------------------------

  /** `appendEnvVar`: the variable is appended only when its value is non-empty. */
  function AppendEnvVar(envVars: seq<EnvVar>, envName: string, envVal: string): (r: seq<EnvVar>)
    ensures |r| == (if envVal == "" then |envVars| else |envVars| + 1)
    ensures r[..|envVars|] == envVars
    ensures |r| > |envVars| ==> r[|envVars|] == EnvVar(envName, envVal)
  {
    if |envVal| > 0 then envVars + [EnvVar(envName, envVal)] else envVars
  }

  /** The variables of `vars` whose value is non-empty, in order. */
  function NonEmpty(vars: seq<EnvVar>): seq<EnvVar>
    decreases |vars|
  {
    if vars == [] then []
    else (if vars[0].value != "" then [vars[0]] else []) + NonEmpty(vars[1..])
  }

  /**
   * `proxyConfigToEnvVars`: NO_PROXY, HTTP_PROXY and HTTPS_PROXY in that
   * order, the empty ones left out.
   */
  function ProxyConfigToEnvVars(proxy: ProxyStatus): (r: seq<EnvVar>)
    ensures r == NonEmpty([EnvVar("NO_PROXY", proxy.noProxy),
                           EnvVar("HTTP_PROXY", proxy.httpProxy),
                           EnvVar("HTTPS_PROXY", proxy.httpsProxy)])
  {
    var a, b, c := EnvVar("NO_PROXY", proxy.noProxy), EnvVar("HTTP_PROXY", proxy.httpProxy),
                   EnvVar("HTTPS_PROXY", proxy.httpsProxy);
    assert [a, b, c][1..] == [b, c] && [b, c][1..] == [c] && [c][1..] == [];
    assert NonEmpty([c]) == (if c.value != "" then [c] else []);
    var envVars: seq<EnvVar> := [];
    var envVars := AppendEnvVar(envVars, "NO_PROXY", proxy.noProxy);
    var envVars := AppendEnvVar(envVars, "HTTP_PROXY", proxy.httpProxy);
    AppendEnvVar(envVars, "HTTPS_PROXY", proxy.httpsProxy)
  }

  /** Appending keeps every value non-empty. */
  lemma {:induction false} AppendEnvVarNonEmpty(envVars: seq<EnvVar>, envName: string, envVal: string)
    requires forall v :: v in envVars ==> v.value != ""
    ensures forall v :: v in AppendEnvVar(envVars, envName, envVal) ==> v.value != ""
  {
  }

  /** No proxy variable is ever emitted with an empty value. */
  lemma {:induction false} ProxyEnvVarsNeverEmpty(proxy: ProxyStatus)
    ensures forall v :: v in ProxyConfigToEnvVars(proxy) ==> v.value != ""
    ensures |ProxyConfigToEnvVars(proxy)| <= 3
  {
    var e1 := AppendEnvVar([], "NO_PROXY", proxy.noProxy);
    var e2 := AppendEnvVar(e1, "HTTP_PROXY", proxy.httpProxy);
    AppendEnvVarNonEmpty([], "NO_PROXY", proxy.noProxy);
    AppendEnvVarNonEmpty(e1, "HTTP_PROXY", proxy.httpProxy);
    AppendEnvVarNonEmpty(e2, "HTTPS_PROXY", proxy.httpsProxy);
  }

  /** `getLogLevel`: the klog verbosity of an operator log level. */
  function LogLevelVerbosity(logLevel: string): (v: int)
    ensures v == 0 <==> logLevel !in {"", "Normal", "Debug", "Trace", "TraceAll"}
  {
    match logLevel
    case "" => 2
    case "Normal" => 2
    case "Debug" => 4
    case "Trace" => 6
    case "TraceAll" => 100
    case _ => 0
  }

  /** More detailed levels give higher verbosity; the empty level means Normal. */
  lemma {:induction false} LogLevelsIncrease()
    ensures LogLevelVerbosity("") == LogLevelVerbosity("Normal")
    ensures LogLevelVerbosity("Normal") < LogLevelVerbosity("Debug")
            < LogLevelVerbosity("Trace") < LogLevelVerbosity("TraceAll")
  {
  }

  // ---------------------------------------------------------------------
  // The deployment object
  // ---------------------------------------------------------------------

  /** The parts of a manifest the synthesizer touches, as a value. */
  datatype Manifest = Manifest(
    annotations: map<string, string>,
    templateAnnotations: map<string, string>,
    volumes: seq<Volume>,
    image: string,
    env: seq<EnvVar>,
    args: seq<string>,
    volumeMounts: seq<VolumeMount>)

  /**
   * The deployment: its annotations, its pod template's annotations and
   * volumes, and the fields of the template's first container (the OAuth
   * server), which the deployment holds by value.
   */
  class Deployment {
    var annotations: map<string, string>
    var templateAnnotations: map<string, string>
    var volumes: seq<Volume>
    var image: string
    var env: seq<EnvVar>
    var args: seq<string>
    var volumeMounts: seq<VolumeMount>

    constructor (m: Manifest)
      ensures Snapshot() == m
    {
      annotations := m.annotations;
      templateAnnotations := m.templateAnnotations;
      volumes := m.volumes;
      image := m.image;
      env := m.env;
      args := m.args;
      volumeMounts := m.volumeMounts;
    }

    ghost function Snapshot(): Manifest
      reads this
    {
      Manifest(annotations, templateAnnotations, volumes, image, env, args, volumeMounts)
    }

    /**
     * The steps of the synthesis before the first one that can fail: the
     * rollout hash on both levels, the bootstrap marker, the image, the proxy
     * environment and the log level.
     */
    method Prepare(proxy: ProxyStatus, bootstrapUserExists: bool, resourceVersions: seq<string>,
                   serverImage: string, digest: string -> string)
      requires |args| > 0
      modifies this
      ensures Snapshot() == Prepared(old(Snapshot()), proxy, bootstrapUserExists,
                                     digest(RolloutHashInput(resourceVersions)), serverImage)
    {
      Annotate(bootstrapUserExists, resourceVersions, digest);
      ConfigureContainer(proxy, serverImage);
    }

    /** The rollout hash on both levels and the bootstrap marker. */
    method Annotate(bootstrapUserExists: bool, resourceVersions: seq<string>, digest: string -> string)
      modifies this
      ensures Snapshot() == Annotated(old(Snapshot()), bootstrapUserExists, digest(RolloutHashInput(resourceVersions)))
    {
      // force a rollout when any tracked resource changes
      var sorted := SortStrings(resourceVersions);
      var rvs := Join(sorted, ",");
      var rvsHashStr := digest(rvs);
      annotations := annotations[RvsHashAnnotation := rvsHashStr];
      templateAnnotations := templateAnnotations[RvsHashAnnotation := rvsHashStr];

      if bootstrapUserExists {
        templateAnnotations := templateAnnotations[BootstrapUserAnnotation := "true"];
      }
    }

    /** The first container's image, proxy environment and log level. */
    method ConfigureContainer(proxy: ProxyStatus, serverImage: string)
      requires |args| > 0
      modifies this
      ensures Snapshot() == Configured(old(Snapshot()), proxy, serverImage)
    {
      if image == ImagePlaceholder {
        image := serverImage;
      }

      env := env + ProxyConfigToEnvVars(proxy);

      args := args[0 := Replace(args[0], LogLevelPlaceholder, PinnedLogLevel, -1)];
    }
  }

  // ---------------------------------------------------------------------
  // The synthesis, step by step, as functions on manifests
  // ---------------------------------------------------------------------

  /** What the rollout hash is computed over: the sorted versions joined by commas. */
  function RolloutHashInput(resourceVersions: seq<string>): string {
    Join(SortStrings(resourceVersions), ",")
  }

  /** The rollout hash on both levels and, when the bootstrap user exists, its marker. */
  function Annotated(m: Manifest, bootstrapUserExists: bool, hash: string): Manifest {
    var templateAnnotations := m.templateAnnotations[RvsHashAnnotation := hash];
    m.(annotations := m.annotations[RvsHashAnnotation := hash],
       templateAnnotations :=
         if bootstrapUserExists then templateAnnotations[BootstrapUserAnnotation := "true"]
         else templateAnnotations)
  }

  /** The image placeholder resolved, the proxy environment appended, the log level pinned. */
  function Configured(m: Manifest, proxy: ProxyStatus, serverImage: string): Manifest
    requires |m.args| > 0
  {
    m.(image := if m.image == ImagePlaceholder then serverImage else m.image,
       env := m.env + ProxyConfigToEnvVars(proxy),
       args := m.args[0 := Replace(m.args[0], LogLevelPlaceholder, PinnedLogLevel, -1)])
  }

  /** Steps before the first one that can fail. */
  function Prepared(m: Manifest, proxy: ProxyStatus, bootstrapUserExists: bool,
                    hash: string, serverImage: string): Manifest
    requires |m.args| > 0
  {
    Configured(Annotated(m, bootstrapUserExists, hash), proxy, serverImage)
  }

  /** The IDP volumes and mounts appended. */
  function Mounted(m: Manifest, volumes: seq<Volume>, mounts: seq<VolumeMount>): Manifest {
    m.(volumes := m.volumes + volumes, volumeMounts := m.volumeMounts + mounts)
  }

  /** The first `${SERVER_ARGUMENTS}` replaced by the rendered server arguments. */
  function WithServerArguments(m: Manifest, serverArguments: string): Manifest
    requires |m.args| > 0
  {
    m.(args := m.args[0 := Replace(m.args[0], ServerArgumentsPlaceholder, serverArguments, 1)])
  }

  /** The finished manifest. */
  function Synthesized(m: Manifest, proxy: ProxyStatus, bootstrapUserExists: bool,
                             hash: string, serverImage: string,
                             volumes: seq<Volume>, mounts: seq<VolumeMount>, serverArguments: string): Manifest
    requires |m.args| > 0
  {
    WithServerArguments(
      Mounted(Prepared(m, proxy, bootstrapUserExists, hash, serverImage), volumes, mounts),
      serverArguments)
  }

  /**
   * `getOAuthServerDeployment`: the deployment decoded from the bundled
   * `template` is changed step by step and returned, or null together with
   * the error of the first step that fails. The image that the environment
   * supplies is `serverImage`; `digest` is SHA-512 followed by unpadded
   * URL-safe base64; `idp` is what the IDP sync data and its volume
   * transform yield.
   */
  method GetOAuthServerDeployment(
    template: Manifest,
    observedConfig: Config,
    idp: IdpVolumes,
    proxy: ProxyStatus,
    bootstrapUserExists: bool,
    resourceVersions: seq<string>,
    serverImage: string,
    digest: string -> string)
    returns (deployment: Deployment?, err: Option<SynthesisError>)
    requires |template.args| > 0
    ensures deployment != null <==> err.None?
    ensures err.None? <==> idp.Transformed? && Extractable(observedConfig)
    ensures idp.SyncDataFailed? ==> err == Some(IdpSyncDataError(idp.reason))
    ensures idp.TransformFailed? ==> err == Some(IdpTransformError(idp.reason))
    ensures idp.Transformed? && err.Some? ==>
              err.value.ServerArgumentsError? && Reports(observedConfig, err.value.cause)
    ensures deployment != null ==>
              fresh(deployment)
              && deployment.Snapshot() == Synthesized(template, proxy, bootstrapUserExists,
                                                      digest(RolloutHashInput(resourceVersions)), serverImage,
                                                      idp.volumes, idp.mounts,
                                                      Join(Flags(ExpectedArguments(observedConfig)), ContinuationSeparator))
  {
    deployment := new Deployment(template);
    deployment.Prepare(proxy, bootstrapUserExists, resourceVersions, serverImage, digest);
    ghost var prepared := deployment.Snapshot();

    var v, m;
    match idp {
      case SyncDataFailed(reason) =>
        return null, Some(IdpSyncDataError(reason));
      case TransformFailed(reason) =>
        return null, Some(IdpTransformError(reason));
      case Transformed(volumes, mounts) =>
        v, m := volumes, mounts;
    }
    deployment.volumes := deployment.volumes + v;
    deployment.volumeMounts := deployment.volumeMounts + m;
    assert deployment.Snapshot() == Mounted(prepared, v, m);

    var blob := RenderServerArguments(observedConfig);
    if blob.Failure? {
      return null, Some(ServerArgumentsError(blob.error));
    }
    deployment.args := deployment.args[0 := Replace(deployment.args[0], ServerArgumentsPlaceholder, blob.value, 1)];
    return deployment, None;
  }

  /**
   * The server-argument block of the synthesis: the arguments extracted from
   * the observed configuration, rendered as flags and joined into one text
   * of continuation lines.
   */
  method RenderServerArguments(observedConfig: Config) returns (r: Result<string, ExtractError>)
    ensures r.Success? <==> Extractable(observedConfig)
    ensures r.Success? ==> r.value == Join(Flags(ExpectedArguments(observedConfig)), ContinuationSeparator)
    ensures r.Failure? ==> Reports(observedConfig, r.error)
  {
    var args := GetServerArguments(observedConfig);
    if args.Failure? {
      return Failure(args.error);
    }
    var flags := ServerArgsToStringSlice(args.value);
    var blob := StringSliceToNewLinedString(flags);
    return Success(blob);
  }

  // ---------------------------------------------------------------------
  // Properties of the finished manifest
  // ---------------------------------------------------------------------

  /** The same rollout hash is written at both levels; no other annotation is lost. */
  lemma {:induction false} RolloutHashOnBothLevels(m: Manifest, proxy: ProxyStatus, bootstrapUserExists: bool,
                                hash: string, serverImage: string,
                                volumes: seq<Volume>, mounts: seq<VolumeMount>, serverArguments: string)
    requires |m.args| > 0
    ensures var r := Synthesized(m, proxy, bootstrapUserExists, hash, serverImage,
                                 volumes, mounts, serverArguments);
            && RvsHashAnnotation in r.annotations && RvsHashAnnotation in r.templateAnnotations
            && r.annotations[RvsHashAnnotation] == r.templateAnnotations[RvsHashAnnotation]
                 == hash
            && r.annotations.Keys == m.annotations.Keys + {RvsHashAnnotation}
            && (forall k :: k in m.annotations && k != RvsHashAnnotation ==> r.annotations[k] == m.annotations[k])
            && (forall k :: k in m.templateAnnotations && k != RvsHashAnnotation && k != BootstrapUserAnnotation ==>
                  k in r.templateAnnotations && r.templateAnnotations[k] == m.templateAnnotations[k])
  {
    var r := Synthesized(m, proxy, bootstrapUserExists, hash, serverImage,
                         volumes, mounts, serverArguments);
    assert RvsHashAnnotation != BootstrapUserAnnotation by {
      assert RvsHashAnnotation[22] == 'r' && BootstrapUserAnnotation[22] == 'b';
    }
    assert r.annotations == m.annotations[RvsHashAnnotation := hash];
    assert r.templateAnnotations ==
             if bootstrapUserExists then m.templateAnnotations[RvsHashAnnotation := hash][BootstrapUserAnnotation := "true"]
             else m.templateAnnotations[RvsHashAnnotation := hash];
  }

  /** Any permutation of the tracked versions yields the same hash input. */
  lemma {:induction false} RolloutHashIgnoresOrder(versions1: seq<string>, versions2: seq<string>)
    requires multiset(versions1) == multiset(versions2)
    ensures RolloutHashInput(versions1) == RolloutHashInput(versions2)
  {
    SortIgnoresOrder(versions1, versions2);
  }

  /** The bootstrap marker is set to "true" exactly when the bootstrap user exists; otherwise the template's is kept. */
  lemma {:induction false} BootstrapMarker(m: Manifest, proxy: ProxyStatus, bootstrapUserExists: bool,
                        hash: string, serverImage: string,
                        volumes: seq<Volume>, mounts: seq<VolumeMount>, serverArguments: string)
    requires |m.args| > 0
    ensures var r := Synthesized(m, proxy, bootstrapUserExists, hash, serverImage,
                                 volumes, mounts, serverArguments);
            && (bootstrapUserExists ==>
                  BootstrapUserAnnotation in r.templateAnnotations
                  && r.templateAnnotations[BootstrapUserAnnotation] == "true")
            && (!bootstrapUserExists ==>
                  (BootstrapUserAnnotation in r.templateAnnotations <==> BootstrapUserAnnotation in m.templateAnnotations)
                  && (BootstrapUserAnnotation in m.templateAnnotations ==>
                        r.templateAnnotations[BootstrapUserAnnotation] == m.templateAnnotations[BootstrapUserAnnotation]))
  {
  }

  /** The image placeholder is resolved; a literal image is left alone. */
  lemma {:induction false} ImageResolved(m: Manifest, proxy: ProxyStatus, bootstrapUserExists: bool,
                      hash: string, serverImage: string,
                      volumes: seq<Volume>, mounts: seq<VolumeMount>, serverArguments: string)
    requires |m.args| > 0
    ensures var r := Synthesized(m, proxy, bootstrapUserExists, hash, serverImage,
                                 volumes, mounts, serverArguments);
            && (m.image == ImagePlaceholder ==> r.image == serverImage)
            && (m.image != ImagePlaceholder ==> r.image == m.image)
  {
  }

  /** Environment, volumes and mounts of the template are kept as a prefix; the additions follow. */
  lemma {:induction false} AppendedNeverReplaced(m: Manifest, proxy: ProxyStatus, bootstrapUserExists: bool,
                              hash: string, serverImage: string,
                              volumes: seq<Volume>, mounts: seq<VolumeMount>, serverArguments: string)
    requires |m.args| > 0
    ensures var r := Synthesized(m, proxy, bootstrapUserExists, hash, serverImage,
                                 volumes, mounts, serverArguments);
            && r.env == m.env + NonEmpty([EnvVar("NO_PROXY", proxy.noProxy),
                                          EnvVar("HTTP_PROXY", proxy.httpProxy),
                                          EnvVar("HTTPS_PROXY", proxy.httpsProxy)])
            && r.volumes == m.volumes + volumes
            && r.volumeMounts == m.volumeMounts + mounts
  {
  }

  /** `${SERVER_ARGUMENTS}` followed by `$`-free text holds no `${LOG_LEVEL}`. */
  lemma {:induction false} ServerArgumentsPlaceholderKept(c: string)
    requires '$' !in c
    ensures Replace(ServerArgumentsPlaceholder + c, LogLevelPlaceholder, PinnedLogLevel, -1)
            == ServerArgumentsPlaceholder + c
  {
    var L := LogLevelPlaceholder;
    var braced := "{SERVER_ARGUMENTS}";
    assert ServerArgumentsPlaceholder == "$" + braced;
    var x := braced + c;
    assert ServerArgumentsPlaceholder + c == "$" + x;
    assert ("$" + x)[..|L|] != L by { assert ("$" + x)[2] == x[1] == 'S' && L[2] == 'L'; }
    assert ("$" + x)[1..] == x;
    assert '$' !in braced;
    ReplaceAbsent(x, L, PinnedLogLevel, -1);
  }

  /**
   * One occurrence of `pat` between `$`-free-of-`pat[0]` text `a` and a rest
   * `x` that the remaining budget leaves alone: only that occurrence changes.
   */
  lemma {:induction false} ReplaceSingleOccurrence(a: string, x: string, pat: string, rep: string, n: int)
    requires pat != [] && n != 0 && pat[0] !in a
    requires Replace(x, pat, rep, if n < 0 then n else n - 1) == x
    ensures Replace(a + pat + x, pat, rep, n) == a + rep + x
  {
    assert a + pat + x == a + (pat + x);
    ReplaceSkips(a, pat + x, pat, rep, n);
    ReplaceHit(pat, x, rep, n);
    assert a + (rep + x) == a + rep + x;
  }

  /** Two occurrences of different patterns: the pass for the first leaves the second alone. */
  lemma {:induction false} ReplaceFirstOfTwo(a: string, b: string, y: string, pat: string, rep: string)
    requires pat != [] && pat[0] !in a && pat[0] !in b
    requires Replace(y, pat, rep, -1) == y
    ensures Replace(a + pat + b + y, pat, rep, -1) == a + rep + b + y
  {
    var x := b + y;
    assert a + pat + b + y == a + pat + x;
    assert a + rep + b + y == a + rep + x;
    ReplaceSkips(b, y, pat, rep, -1);
    ReplaceSingleOccurrence(a, x, pat, rep, -1);
  }

  /** The log-level pass replaces `${LOG_LEVEL}` and leaves `${SERVER_ARGUMENTS}` in place. */
  lemma {:induction false} LogLevelPass(a: string, b: string, c: string)
    requires '$' !in a && '$' !in b && '$' !in c
    ensures Replace(a + LogLevelPlaceholder + b + ServerArgumentsPlaceholder + c, LogLevelPlaceholder, PinnedLogLevel, -1)
            == a + PinnedLogLevel + b + ServerArgumentsPlaceholder + c
  {
    var L, S, P := LogLevelPlaceholder, ServerArgumentsPlaceholder, PinnedLogLevel;
    ServerArgumentsPlaceholderKept(c);
    assert a + L + b + S + c == a + L + b + (S + c);
    assert a + P + b + S + c == a + P + b + (S + c);
    ReplaceFirstOfTwo(a, b, S + c, L, P);
  }

  /** The server-arguments pass replaces the one `${SERVER_ARGUMENTS}` after a `$`-free front. */
  lemma {:induction false} ServerArgumentsPass(front: string, c: string, blob: string)
    requires '$' !in front
    ensures Replace(front + ServerArgumentsPlaceholder + c, ServerArgumentsPlaceholder, blob, 1) == front + blob + c
  {
    ReplaceSingleOccurrence(front, c, ServerArgumentsPlaceholder, blob, 1);
  }

  /**
   * For a template argument of the shape `a ${LOG_LEVEL} b ${SERVER_ARGUMENTS} c`
   * (no other `$`), the finished argument is `a 5 b <flags> c`, the flags
   * joined with continuation separators; the other arguments are untouched.
   */
  lemma {:induction false} ArgumentsRendered(m: Manifest, proxy: ProxyStatus, bootstrapUserExists: bool,
                          hash: string, serverImage: string,
                          volumes: seq<Volume>, mounts: seq<VolumeMount>, serverArguments: string,
                          a: string, b: string, c: string)
    requires |m.args| > 0
    requires m.args[0] == a + LogLevelPlaceholder + b + ServerArgumentsPlaceholder + c
    requires '$' !in a && '$' !in b && '$' !in c
    ensures var r := Synthesized(m, proxy, bootstrapUserExists, hash, serverImage,
                                 volumes, mounts, serverArguments);
            && |r.args| == |m.args| && r.args[1..] == m.args[1..]
            && r.args[0] == a + PinnedLogLevel + b + serverArguments + c
  {
    LogLevelPass(a, b, c);
    var front := a + PinnedLogLevel + b;
    assert '$' !in front;
    ServerArgumentsPass(front, c, serverArguments);
  }
}
