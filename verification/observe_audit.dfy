/**
 * The audit config observer: maps the cluster's audit profile onto the
 * `serverArguments` subtree of the OAuth server's observed configuration.
 */
module ObserveAudit {
  import opened Results
  import opened Unstructured

  /** `ServerArgumentsPath`, a path of one segment. */
  const ServerArgumentsKey: string := "serverArguments"

  /** The profile that switches auditing off. */
  const NoneProfile: string := "None"

  /** The zero value of a profile, for an API server resource that is not there. */
  const ZeroProfile: string := ""

  /** `auditOptionsArgs`: the five audit flags, each a one-element string list. */
  const AuditOptionsArgs: Value := Object(map[
    "audit-log-path" := List([Str("/var/log/oauth-server/audit.log")]),
    "audit-log-format" := List([Str("json")]),
    "audit-log-maxsize" := List([Str("100")]),
    "audit-log-maxbackup" := List([Str("10")]),
    "audit-policy-file" := List([Str("/var/run/configmaps/audit/audit.yaml")])
  ])

  /** What the lister returns for the API server resource named `cluster`. */
  datatype APIServerLookup =
    | Found(profile: string)
    | NotFound
    | Failed(reason: string)

  datatype ObserveError = GetFailed(reason: string)

  /** The observed configuration for a profile: the audit options unless the profile is `None`. */
  function ObservedConfigFor(profile: string): (c: Config)
    ensures profile == NoneProfile ==> ServerArgumentsKey !in c
    ensures profile != NoneProfile ==> NestedField(c, ServerArgumentsKey) == Some(AuditOptionsArgs)
    ensures c.Keys <= {ServerArgumentsKey}
  {
    var observedConfig: Config := map[];
    if profile != NoneProfile then SetNestedField(observedConfig, ServerArgumentsKey, AuditOptionsArgs)
    else observedConfig
  }

  /** The change-event condition: the current subtree differs from the audit options. */
  predicate ReportsChange(existingConfig: Config) {
    NestedField(existingConfig, ServerArgumentsKey) != Some(AuditOptionsArgs)
  }

  /**
   * `ObserveAudit`, with a missing API server read as the zero-value profile.
   * Every return is pruned to `serverArguments` (the deferred `Pruned`);
   * `changeEvent` stands for the recorded event.
   */
  method ObserveAudit(lookup: APIServerLookup, existingConfig: Config)
    returns (ret: Config, errs: seq<ObserveError>, changeEvent: bool)
    ensures ret.Keys <= {ServerArgumentsKey}
    ensures errs == [] <==> !lookup.Failed?
    ensures lookup.Failed? ==> ret == Pruned(existingConfig, ServerArgumentsKey)
                               && errs == [GetFailed(lookup.reason)] && !changeEvent
    ensures lookup == Found(NoneProfile) ==> ret == map[]
    ensures !lookup.Failed? && lookup != Found(NoneProfile) ==>
              ret == map[ServerArgumentsKey := AuditOptionsArgs]
    ensures !lookup.Failed? ==>
              (changeEvent <==> NestedField(existingConfig, ServerArgumentsKey) != Some(AuditOptionsArgs))
  {
    var profile: string;
    match lookup {
      case Failed(reason) =>
        ret, errs, changeEvent := existingConfig, [GetFailed(reason)], false;
        ret := Pruned(ret, ServerArgumentsKey);
        return;
      case NotFound =>
        profile := ZeroProfile;
      case Found(p) =>
        profile := p;
    }
    var observedConfig := ObservedConfigFor(profile);
    changeEvent := ReportsChange(existingConfig);
    ret, errs := observedConfig, [];
    ret := Pruned(ret, ServerArgumentsKey);
  }

  /** A pass that sees its own earlier result reports no change (any profile but `None`). */
  lemma {:induction false} SecondPassIsQuiet(profile: string)
    requires profile != NoneProfile
    ensures !ReportsChange(Pruned(ObservedConfigFor(profile), ServerArgumentsKey))
  {
  }

  /**
   * The event compares with the audit options, not with the new subtree: with
   * profile `None` the result holds no subtree, so every later pass reports a change.
   */
  lemma {:induction false} NoneProfileAlwaysReports()
    ensures ReportsChange(Pruned(ObservedConfigFor(NoneProfile), ServerArgumentsKey))
  {
  }

  /**
   * Switching to `None` after a pass under another profile: the subtree is
   * dropped, and since the existing subtree still is the audit options, no
   * change is reported on that pass.
   */
  lemma {:induction false} SwitchToNoneIsQuiet(previous: string)
    requires previous != NoneProfile
    ensures Pruned(ObservedConfigFor(NoneProfile), ServerArgumentsKey) == map[]
    ensures !ReportsChange(Pruned(ObservedConfigFor(previous), ServerArgumentsKey))
  {
  }

  // ---------------------------------------------------------------------
  // `ObserveAudit` as written
  // ---------------------------------------------------------------------

  datatype AsWrittenOutcome =
    | Completed(ret: Config, errs: seq<ObserveError>, changeEvent: bool)
    | NilDereference   // `apiServer.Spec` read through the nil `apiServer`

  /** `ObserveAudit` exactly as written: on not-found the profile is read through a nil pointer. */
  function ObserveAuditAsWritten(lookup: APIServerLookup, existingConfig: Config): (o: AsWrittenOutcome)
    ensures o.NilDereference? <==> lookup.NotFound?
  {
    match lookup
    case Failed(reason) => Completed(Pruned(existingConfig, ServerArgumentsKey), [GetFailed(reason)], false)
    case NotFound => NilDereference
    case Found(p) =>
      Completed(Pruned(ObservedConfigFor(p), ServerArgumentsKey), [], ReportsChange(existingConfig))
  }

  /** A missing API server resource crashes the observer as written. */
  lemma {:induction false} NotFoundDereferencesNil(existingConfig: Config)
    ensures ObserveAuditAsWritten(NotFound, existingConfig) == NilDereference
  {
  }
}
