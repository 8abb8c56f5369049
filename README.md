# k8s-tools server core and Helm rename script, in Dafny

This project models the logic of two Python files of the maduro repository:

- `python/k8s_mcp_server.py`, the MCP tool server that wraps kubectl
  (module `KubectlTools`, file `kubectl_tools.dfy`, and module
  `HostHeaderMiddleware`, file `host_header_middleware.dfy`):
  - how `k8s_get_resources` builds the kubectl argument vector: `get`, the
    resource type, `-n namespace` for a truthy namespace, the name for a truthy
    name, then `-o yaml` for a named object and `-o wide` for a listing;
  - how `run_kubectl` turns what `subprocess.run` came to into text: stdout on
    exit code 0, `Error running kubectl: <stderr>` on any other exit code,
    `Unexpected error: <message>` for any other `Exception`;
  - `echo_test` and `k8s_get_available_api_resources`;
  - the header rewrite of `HostHeaderMiddleware.__call__`: in an `http` scope,
    every header named exactly `b"host"` becomes `(b"host", b"localhost:8084")`;
    every other header keeps its value and position; other scopes pass through.
- `scripts/rename_helm.py`, the Helm chart rename script (module `RenameHelm`,
  file `rename_helm.dfy`): Python's `str.replace` as a left-to-right,
  non-overlapping replace-all, the fixed chain of five `kagent` to `maduro`
  substitutions, the write-only-if-changed guard, and the `.yaml`/`.tpl`/`.txt`
  file-name filter.

Running kubectl is a parameter: a tool receives an `Executor`, a function from
the full command line to a `ProcessOutcome` (`Exited(code, stdout, stderr)` or
`Raised(message)`). Python's `Optional[str]` is `Option<string>`, and its
truthiness is `IsTruthy` (`None` and `""` are both false). Header names and
values are byte sequences.

Two details of the rewrite:

- Each `host` header is rewritten in place, so duplicates stay duplicates
  (`HostCountPreserved`, `DuplicateHostHeadersKept`).
- The trusted value is the literal `localhost:8084`, not derived from `--port`
  (default 8080).

Two facts about the source that the proofs make explicit:

- The result text alone cannot tell a kubectl failure from a successful run
  whose stdout reads like a diagnostic (`SuccessCanReadAsFailure`). The two
  kinds of failure text are always distinct from each other
  (`FailureDiagnosticsDistinct`).
- The rename chain leaves a file unchanged exactly when none of the five
  patterns occurs in it. A later substitution never undoes an earlier one,
  because each one turns the `k` of `kagent` into the `m` of `maduro` and adds
  no `k` (`ApplySubstitutionsUnchangedIff`).

## Model

| member | source | states |
|---|---|---|
| `KubectlTools.IsTruthy` | python/k8s_mcp_server.py:43-50 | `if namespace:`, `if name:` and `"yaml" if name`: exactly `None` and `""` are false |
| `KubectlTools.GetArgvSeesOnlyTruthiness` | python/k8s_mcp_server.py:43-47 | the vector depends on namespace and name only through their truthiness: `""` builds what `None` builds |
| `KubectlTools.KubectlCommand` | python/k8s_mcp_server.py:15 | the command line is `kubectl` followed by the arguments, unchanged |
| `KubectlTools.RunKubectl` | python/k8s_mcp_server.py:12-24 | exit 0 gives stdout exactly; any other exit code gives `Error running kubectl: ` + stderr; any other `Exception` gives `Unexpected error: ` + message |
| `KubectlTools.RunKubectlDependsOnlyOnCommand` | python/k8s_mcp_server.py:15-17 | the result depends only on what running `kubectl` + args came to |
| `KubectlTools.FailureDiagnosticsDistinct` | python/k8s_mcp_server.py:19-24 | a non-zero exit and a failure to run kubectl never produce the same text |
| `KubectlTools.SuccessCanReadAsFailure` | python/k8s_mcp_server.py:17-22 | a success whose stdout is `Error running kubectl: ` + e gives the same text as a failure with stderr e |
| `KubectlTools.EchoTest` | python/k8s_mcp_server.py:27-29 | the result is `Echo from Kagent Tools: ` followed by the message; no executor is involved |
| `KubectlTools.EchoTestInjective` | python/k8s_mcp_server.py:29 | different messages give different echoes |
| `KubectlTools.GetArgv` | python/k8s_mcp_server.py:41-50 | length is 4 + 2·[namespace truthy] + [name truthy]; starts with `get`, resource type unchanged; `-n`, namespace at positions 2-3 when the namespace is truthy; the name just before `-o` when truthy; ends with `-o`, then `yaml` if the name is truthy else `wide` |
| `KubectlTools.BuildGetArgs` | python/k8s_mcp_server.py:41-50 | the step-by-step list building yields exactly `GetArgv` |
| `KubectlTools.GetResources` | python/k8s_mcp_server.py:32-52 | `k8s_get_resources` runs kubectl on `GetArgv` of its arguments and returns the classified outcome |
| `KubectlTools.GetAvailableApiResources` | python/k8s_mcp_server.py:55-60 | kubectl is run on exactly `kubectl api-resources`, and the outcome is classified as in `run_kubectl` |
| `KubectlTools.ParseGetArgvRoundTrip` | python/k8s_mcp_server.py:41-50 | every built vector reads back to its call, with namespace and name normalized |
| `KubectlTools.ParseGetArgvSound` | python/k8s_mcp_server.py:41-50 | every vector that reads back as a call is the vector that call builds |
| `KubectlTools.GetArgvInjective` | python/k8s_mcp_server.py:43-47 | two calls build the same vector iff they agree on resource type and on the normalized namespace and name |
| `KubectlTools.OutputFormatFollowsName` | python/k8s_mcp_server.py:50 | the format is `yaml` iff the name is truthy and `wide` iff it is not, whatever the namespace |
| `HostHeaderMiddleware.RewriteHeaders` | python/k8s_mcp_server.py:69-76 | same length; entry i becomes `(b"host", b"localhost:8084")` iff its name is exactly `b"host"`; every other entry is unchanged at its position |
| `HostHeaderMiddleware.Call` | python/k8s_mcp_server.py:67-78 | an `http` scope's headers are replaced by their rewrite; any other scope's headers are unchanged |
| `HostHeaderMiddleware.RewritesHostUnique` | python/k8s_mcp_server.py:69-77 | the rewrite has exactly one result for each header list |
| `HostHeaderMiddleware.RewritesHostIdempotent` | python/k8s_mcp_server.py:71-74 | rewriting an already rewritten list changes nothing |
| `HostHeaderMiddleware.HostCountPreserved` | python/k8s_mcp_server.py:70-76 | the number of `host` headers is unchanged: duplicates are not merged |
| `HostHeaderMiddleware.OtherHeadersPreserved` | python/k8s_mcp_server.py:75-76 | the headers not named `host` come out unchanged and in their original order |
| `HostHeaderMiddleware.DuplicateHostHeadersKept` | python/k8s_mcp_server.py:70-74 | two `host` headers give two trusted `host` headers |
| `HostHeaderMiddleware.CapitalizedHostUntouched` | python/k8s_mcp_server.py:71 | a header named `b"Host"` is left as it is |
| `RenameHelm.ReplaceAll` | scripts/rename_helm.py:7-11 | `str.replace`: a replacement as long as its pattern keeps the text's length |
| `RenameHelm.ReplaceAllAbsent` | scripts/rename_helm.py:7-11 | text in which the pattern does not occur comes back unchanged |
| `RenameHelm.ReplaceAllCount` | scripts/rename_helm.py:7-11 | a replacement with fewer `c` than its pattern never adds a `c`, and removes one when the pattern occurs |
| `RenameHelm.KagentToMaduro` | scripts/rename_helm.py:7-11 | each substitution swaps `kagent` for `maduro` in a fixed context, so pattern and replacement have equal, non-zero length |
| `RenameHelm.SubstitutionsAsWritten` | scripts/rename_helm.py:7-11 | the five pairs, in order, are the literals of `replace_in_file` |
| `RenameHelm.ApplySubstitutions` | scripts/rename_helm.py:7-11 | each substitution is applied to the previous one's output; with equal-length pairs the length is kept |
| `RenameHelm.ApplySubstitutionsUnchangedIff` | scripts/rename_helm.py:7-11 | a chain of `k`-removing substitutions leaves the text unchanged iff none of its patterns occurs in it |
| `RenameHelm.Rename` | scripts/rename_helm.py:7-11 | the renamed text has the original's length |
| `RenameHelm.ReplaceInFile` | scripts/rename_helm.py:7-19 | a write happens iff the renamed text differs from the content, and what is written is the renamed text, of the same length |
| `RenameHelm.ReplaceInFileWritesIff` | scripts/rename_helm.py:7-19 | a file is written iff one of the five patterns occurs in it |
| `RenameHelm.NoKagentNoWrite` | scripts/rename_helm.py:7-19 | a file without `kagent` is never written |
| `RenameHelm.EndsWith` | scripts/rename_helm.py:26 | `str.endswith`: holds iff the string is some stem followed by the suffix |
| `RenameHelm.IsTemplateFile` | scripts/rename_helm.py:26 | a file is processed iff its name is some stem followed by `.yaml`, `.tpl` or `.txt` |
| `RenameHelm.ExtensionMakesTemplateFile` | scripts/rename_helm.py:26 | any stem followed by one of the three extensions is processed |
| `RenameHelm.IsTemplateFileExamples` | scripts/rename_helm.py:26 | the test is case-sensitive and on the final suffix: `values.yml`, `deploy.YAML`, `chart.yaml.bak` are skipped |

## Left out

- Process spawning by `subprocess.run`: an `Executor` function stands for it, so timeouts, hangs and the real environment are not modelled.
- The log lines of `run_kubectl` (python/k8s_mcp_server.py:16, 21): side effects that do not change any result.
- The FastMCP server object and `@mcp.tool()` registration: a framework whose code is not part of this model.
- The `__main__` block (python/k8s_mcp_server.py:80-114): argument parsing, transport choice and uvicorn startup are library plumbing.
- The asynchronous forwarding of the scope, `receive` and `send` to the wrapped app in `HostHeaderMiddleware.__call__`: concurrency and I/O; only the scope update is modelled. The middleware's `app` field is therefore not modelled either.
- `os.walk` over the two chart directories, the file reads and writes and the `print` in `scripts/rename_helm.py`: filesystem I/O. `ReplaceInFile` returns the write it would do instead of doing it.
- RunKubectl: only exceptions derived from `Exception` are caught (python/k8s_mcp_server.py:23); a `KeyboardInterrupt` or `SystemExit` raised while kubectl runs still escapes, and the model has no outcome for it.
- Decoding kubectl's output (`text=True`): strings are sequences of characters; a decoding error there is one more `Raised` outcome.
- ReplaceInFile: reading a file that is not valid UTF-8 (scripts/rename_helm.py:4-5) raises an uncaught `UnicodeDecodeError` that stops `main`'s walk, so the remaining files are never processed; the model takes the content as already decoded.
- Rename: the length it keeps is that of the decoded text; text-mode `open` turns CRLF into LF on reading and writes LF back (scripts/rename_helm.py:4, 18), so a rewritten file can be shorter on disk.
