/**
 * The start-up check of src/envVarValidate.js: a fixed chain of tests over
 * the process environment, run in source order. Warnings are collected as
 * they are met; the first test that fails ends the process, so the verdict
 * is either `Exit` with that failure (and the warnings printed before it) or
 * `Continue` with every warning. An environment variable is either absent
 * (`== null` in JavaScript) or a string.
 */
module EnvValidate {

  type Env = map<string, string>

  datatype Warning =
    | NodeEnvUnset          // defaults to "development"
    | TendermintIpUnset     // defaults to "localhost"
    | MqContactIpUnset      // defaults to "localhost"
    | LogDirectoryUnset     // production only; defaults to the source directory

  datatype ExitReason =
    | RoleUnset
    | UnknownRole
    | NodeIdUnset
    | KeyPathsUnset

  datatype Verdict =
    | Exit(reason: ExitReason, warnings: seq<Warning>)
    | Continue(warnings: seq<Warning>)

  const Roles: set<string> := {"idp", "rp", "as", "ndid"}

  predicate Unset(env: Env, name: string)
  {
    name !in env
  }

  predicate UnsetOrEmpty(env: Env, name: string)
  {
    name !in env || env[name] == ""
  }

  predicate Is(env: Env, name: string, value: string)
  {
    name in env && env[name] == value
  }

  /** The condition under which the production key-path check ends the process. */
  predicate KeyPathsMissing(env: Env)
  {
    Is(env, "NODE_ENV", "production") &&
    !Is(env, "USE_EXTERNAL_CRYPTO_SERVICE", "true") &&
    Unset(env, "PRIVATE_KEY_PATH") &&
    Unset(env, "MASTER_PRIVATE_KEY_PATH")
  }

  /** The warnings of the lines after the node-id check, in source order. */
  function LateWarnings(env: Env): seq<Warning>
  {
    (if Unset(env, "TENDERMINT_IP") then [TendermintIpUnset] else []) +
    (if Unset(env, "MQ_CONTACT_IP") then [MqContactIpUnset] else []) +
    (if Is(env, "NODE_ENV", "production") && Unset(env, "LOG_DIRECTORY_PATH") then [LogDirectoryUnset] else [])
  }

  /** The whole file, read as one function of the environment. */
  function Validate(env: Env): (v: Verdict)
    // the process goes on exactly when the role is set and known, the node id
    // is non-empty and the production key rule holds; optional variables
    // never decide it
    ensures v.Continue? <==>
              "ROLE" in env && env["ROLE"] in Roles &&
              !UnsetOrEmpty(env, "NODE_ID") && !KeyPathsMissing(env)
    // first failure wins, in source order
    ensures Unset(env, "ROLE") ==> v.Exit? && v.reason == RoleUnset
    ensures "ROLE" in env && env["ROLE"] !in Roles ==> v.Exit? && v.reason == UnknownRole
    ensures "ROLE" in env && env["ROLE"] in Roles && UnsetOrEmpty(env, "NODE_ID") ==>
              v.Exit? && v.reason == NodeIdUnset
    // in production without the external crypto service, either key path suffices
    ensures v.Exit? && v.reason == KeyPathsUnset <==>
              "ROLE" in env && env["ROLE"] in Roles && !UnsetOrEmpty(env, "NODE_ID") && KeyPathsMissing(env)
    // the NODE_ENV warning comes first, and is printed even before an exit
    ensures (|v.warnings| > 0 && v.warnings[0] == NodeEnvUnset) <==> UnsetOrEmpty(env, "NODE_ENV")
    // a missing TENDERMINT_IP is reported whenever the process gets that far
    ensures v.Continue? ==> (TendermintIpUnset in v.warnings <==> Unset(env, "TENDERMINT_IP"))
    ensures v.Continue? ==> (MqContactIpUnset in v.warnings <==> Unset(env, "MQ_CONTACT_IP"))
    ensures v.Continue? ==>
              (LogDirectoryUnset in v.warnings <==> Is(env, "NODE_ENV", "production") && Unset(env, "LOG_DIRECTORY_PATH"))
  {
    var early := if UnsetOrEmpty(env, "NODE_ENV") then [NodeEnvUnset] else [];
    if Unset(env, "ROLE") then Exit(RoleUnset, early)
    else if env["ROLE"] !in Roles then Exit(UnknownRole, early)
    else if UnsetOrEmpty(env, "NODE_ID") then Exit(NodeIdUnset, early)
    else
      var warnings := early + LateWarnings(env);
      if KeyPathsMissing(env) then Exit(KeyPathsUnset, warnings) else Continue(warnings)
  }
}
