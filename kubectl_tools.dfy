/**
 * The kubectl tool layer of the k8s-tools server: how each tool call is turned
 * into a kubectl argument vector, and how the outcome of running kubectl is
 * turned into the text handed back to the calling agent.
 *
 * Running the process is not modelled: a tool receives an `Executor`, the
 * function from a full command line to what `subprocess.run` came to.
 */
module KubectlTools {

  datatype Option<T> = None | Some(value: T)

  /** Python truthiness of an `Optional[str]`: exactly `None` and `""` are false. */
  predicate IsTruthy(o: Option<string>)
    ensures !IsTruthy(o) <==> o == None || o == Some("")
  {
    o.Some? && o.value != ""
  }

  /** The truthy value itself, or `None`: what `if x:` can tell apart. */
  function Normalize(o: Option<string>): Option<string>
  {
    if IsTruthy(o) then o else None
  }

  /**
   * What `subprocess.run(cmd, capture_output=True, text=True, check=True)`
   * comes to: the process exited with a code and its captured streams, or some
   * exception other than `CalledProcessError` was raised (missing binary,
   * permission denied, undecodable output), carrying `str(e)`.
   */
  datatype ProcessOutcome =
    | Exited(code: int, stdout: string, stderr: string)
    | Raised(message: string)

  type Executor = seq<string> -> ProcessOutcome

  const PROGRAM: string := "kubectl"
  const KUBECTL_ERROR_PREFIX: string := "Error running kubectl: "
  const UNEXPECTED_ERROR_PREFIX: string := "Unexpected error: "
  const ECHO_PREFIX: string := "Echo from Kagent Tools: "

  /** The command line `["kubectl"] + args`: the arguments follow the program name unchanged. */
  function KubectlCommand(args: seq<string>): (cmd: seq<string>)
    ensures |cmd| == |args| + 1
    ensures cmd[0] == PROGRAM && cmd[1..] == args
  {
    [PROGRAM] + args
  }

  /**
   * `run_kubectl`: run kubectl with `args` and classify the outcome. A zero exit
   * gives stdout exactly; `check=True` turns every other exit code into a
   * `CalledProcessError`, reported with its stderr; any other exception is
   * reported with its message. Every outcome that `except Exception` catches
   * becomes text; `BaseException`s such as `KeyboardInterrupt` are not modelled.
   */
  function RunKubectl(args: seq<string>, exec: Executor): (r: string)
    ensures exec(KubectlCommand(args)).Exited? && exec(KubectlCommand(args)).code == 0 ==>
              r == exec(KubectlCommand(args)).stdout
    ensures exec(KubectlCommand(args)).Exited? && exec(KubectlCommand(args)).code != 0 ==>
              r == KUBECTL_ERROR_PREFIX + exec(KubectlCommand(args)).stderr
    ensures exec(KubectlCommand(args)).Raised? ==>
              r == UNEXPECTED_ERROR_PREFIX + exec(KubectlCommand(args)).message
  {
    match exec(KubectlCommand(args))
    case Exited(code, stdout, stderr) =>
      if code == 0 then stdout else KUBECTL_ERROR_PREFIX + stderr
    case Raised(message) => UNEXPECTED_ERROR_PREFIX + message
  }

  /** kubectl is run once, on `["kubectl"] + args`: no other command line can change the result. */
  lemma RunKubectlDependsOnlyOnCommand(args: seq<string>, exec1: Executor, exec2: Executor)
    requires exec1(KubectlCommand(args)) == exec2(KubectlCommand(args))
    ensures RunKubectl(args, exec1) == RunKubectl(args, exec2)
  {
  }

  /**
   * The two failure diagnostics can always be told apart: a non-zero exit and a
   * failure to run kubectl never produce the same text.
   */
  lemma FailureDiagnosticsDistinct(args: seq<string>, exec1: Executor, exec2: Executor)
    requires exec1(KubectlCommand(args)).Exited? && exec1(KubectlCommand(args)).code != 0
    requires exec2(KubectlCommand(args)).Raised?
    ensures RunKubectl(args, exec1) != RunKubectl(args, exec2)
  {
    var r1, r2 := RunKubectl(args, exec1), RunKubectl(args, exec2);
    assert r1[0] == KUBECTL_ERROR_PREFIX[0] == 'E';
    assert r2[0] == UNEXPECTED_ERROR_PREFIX[0] == 'U';
  }

  /**
   * Errors become data: a successful run whose stdout happens to read like a
   * diagnostic is indistinguishable from a failed run. The result text alone
   * does not say whether kubectl succeeded.
   */
  lemma SuccessCanReadAsFailure(args: seq<string>, stderr: string, exec1: Executor, exec2: Executor)
    requires exec1(KubectlCommand(args)) == Exited(0, KUBECTL_ERROR_PREFIX + stderr, "")
    requires exec2(KubectlCommand(args)) == Exited(1, "", stderr)
    ensures RunKubectl(args, exec1) == RunKubectl(args, exec2)
  {
  }

  /** `echo_test`: the fixed greeting followed by the message; kubectl is never involved. */
  function EchoTest(message: string): (r: string)
    ensures |r| == |ECHO_PREFIX| + |message|
    ensures r[..|ECHO_PREFIX|] == ECHO_PREFIX
    ensures r[|ECHO_PREFIX|..] == message
  {
    ECHO_PREFIX + message
  }

  /** The message can be read back from the echo, so distinct messages give distinct echoes. */
  lemma EchoTestInjective(m1: string, m2: string)
    requires EchoTest(m1) == EchoTest(m2)
    ensures m1 == m2
  {
  }

  /**
   * The argument vector of `k8s_get_resources`: `get`, the resource type as
   * given (never validated), `-n namespace` when the namespace is truthy, the
   * name when it is truthy, then `-o` with `yaml` for a named object and
   * `wide` for a listing. Position by position, with the length, this fixes
   * every element.
   */
  function GetArgv(resourceType: string, namespace: Option<string>, name: Option<string>): (argv: seq<string>)
    ensures |argv| == 4 + (if IsTruthy(namespace) then 2 else 0) + (if IsTruthy(name) then 1 else 0)
    ensures argv[0] == "get" && argv[1] == resourceType
    ensures IsTruthy(namespace) ==> argv[2] == "-n" && argv[3] == namespace.value
    ensures IsTruthy(name) ==> argv[|argv| - 3] == name.value
    ensures argv[|argv| - 2] == "-o"
    ensures argv[|argv| - 1] == if IsTruthy(name) then "yaml" else "wide"
  {
    ["get", resourceType]
    + (if IsTruthy(namespace) then ["-n", namespace.value] else [])
    + (if IsTruthy(name) then [name.value] else [])
    + ["-o", if IsTruthy(name) then "yaml" else "wide"]
  }

  /** `k8s_get_resources`' list building, step by step as the source does it. */
  method BuildGetArgs(resourceType: string, namespace: Option<string>, name: Option<string>)
    returns (args: seq<string>)
    ensures args == GetArgv(resourceType, namespace, name)
  {
    args := ["get", resourceType];
    if IsTruthy(namespace) {
      args := args + ["-n", namespace.value];
    }
    if IsTruthy(name) {
      args := args + [name.value];
    }
    args := args + ["-o", if IsTruthy(name) then "yaml" else "wide"];
  }

  /** `k8s_get_resources`: build the argument vector and hand it to kubectl. */
  method GetResources(resourceType: string, namespace: Option<string>, name: Option<string>, exec: Executor)
    returns (output: string)
    ensures output == RunKubectl(GetArgv(resourceType, namespace, name), exec)
  {
    var args := BuildGetArgs(resourceType, namespace, name);
    output := RunKubectl(args, exec);
  }

  /** `k8s_get_available_api_resources`: kubectl runs on exactly `kubectl api-resources`. */
  function GetAvailableApiResources(exec: Executor): (r: string)
    ensures exec([PROGRAM, "api-resources"]).Exited? && exec([PROGRAM, "api-resources"]).code == 0 ==>
              r == exec([PROGRAM, "api-resources"]).stdout
    ensures exec([PROGRAM, "api-resources"]).Exited? && exec([PROGRAM, "api-resources"]).code != 0 ==>
              r == KUBECTL_ERROR_PREFIX + exec([PROGRAM, "api-resources"]).stderr
    ensures exec([PROGRAM, "api-resources"]).Raised? ==>
              r == UNEXPECTED_ERROR_PREFIX + exec([PROGRAM, "api-resources"]).message
  {
    assert KubectlCommand(["api-resources"]) == [PROGRAM, "api-resources"];
    RunKubectl(["api-resources"], exec)
  }

  /**
   * Reads a `get` argument vector back into the call that produced it; the
   * namespace and name come back normalized, since `None` and `""` build the
   * same vector.
   */
  function ParseGetArgv(argv: seq<string>): Option<(string, Option<string>, Option<string>)>
  {
    if |argv| < 4 || argv[0] != "get" || argv[|argv| - 2] != "-o" then None
    else if |argv| == 4 then
      if argv[3] == "wide" then Some((argv[1], None, None)) else None
    else if |argv| == 5 then
      if argv[2] != "" && argv[4] == "yaml" then Some((argv[1], None, Some(argv[2]))) else None
    else if |argv| == 6 then
      if argv[2] == "-n" && argv[3] != "" && argv[5] == "wide"
      then Some((argv[1], Some(argv[3]), None)) else None
    else if |argv| == 7 then
      if argv[2] == "-n" && argv[3] != "" && argv[4] != "" && argv[6] == "yaml"
      then Some((argv[1], Some(argv[3]), Some(argv[4]))) else None
    else None
  }

  /** Every argument vector `k8s_get_resources` builds can be read back into its (normalized) call. */
  lemma ParseGetArgvRoundTrip(resourceType: string, namespace: Option<string>, name: Option<string>)
    ensures ParseGetArgv(GetArgv(resourceType, namespace, name))
            == Some((resourceType, Normalize(namespace), Normalize(name)))
  {
  }

  /** Whatever parses as a `get` call is exactly the vector that call builds. */
  lemma ParseGetArgvSound(argv: seq<string>, resourceType: string, namespace: Option<string>, name: Option<string>)
    requires ParseGetArgv(argv) == Some((resourceType, namespace, name))
    ensures GetArgv(resourceType, namespace, name) == argv
  {
  }

  /**
   * Two calls build the same vector exactly when they agree on the resource
   * type and on the truthy namespace and name: an empty string and an absent
   * value are the same call, and nothing else collides.
   */
  lemma GetArgvInjective(rt1: string, ns1: Option<string>, n1: Option<string>,
                         rt2: string, ns2: Option<string>, n2: Option<string>)
    ensures GetArgv(rt1, ns1, n1) == GetArgv(rt2, ns2, n2)
            <==> rt1 == rt2 && Normalize(ns1) == Normalize(ns2) && Normalize(n1) == Normalize(n2)
  {
  }

  /**
   * The vector sees only the truthiness of the namespace and name: an empty
   * string builds exactly what an absent value builds.
   */
  lemma GetArgvSeesOnlyTruthiness(resourceType: string, namespace: Option<string>, name: Option<string>)
    ensures GetArgv(resourceType, namespace, name)
            == GetArgv(resourceType, Normalize(namespace), Normalize(name))
    ensures GetArgv(resourceType, Some(""), name) == GetArgv(resourceType, None, name)
    ensures GetArgv(resourceType, namespace, Some("")) == GetArgv(resourceType, namespace, None)
  {
  }

  /**
   * The output format follows the name alone: `yaml` whenever a name is given,
   * `wide` otherwise, whatever the namespace.
   */
  lemma OutputFormatFollowsName(resourceType: string, namespace: Option<string>, name: Option<string>)
    ensures var argv := GetArgv(resourceType, namespace, name);
            (argv[|argv| - 1] == "yaml" <==> IsTruthy(name)) && (argv[|argv| - 1] == "wide" <==> !IsTruthy(name))
  {
  }
}
