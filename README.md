# zizmor-action launcher, modelled in Dafny

The zizmor GitHub Action runs a small Python launcher, `action.py`. The launcher
reads its inputs from `GHA_ZIZMOR_*` environment variables and checks each one
with a typed parser. It refuses scan targets that look like flags. It then builds
the command line `uvx zizmor@<version> …` and runs it once, passing only the
token in the child's environment. Last, it publishes the output and exits with
the child's return code.

This project models the decision-making part of the launcher:

- `wrappers.dfy`: `Option` and `Result`. A `Failure` stands for `_die`, which
  logs the message and exits with code 1.
- `text.dfy`: the string operations the launcher relies on, over ASCII:
  `str.lower`, `str.upper`, one-character `str.replace` and `str.startswith`.
  It also gives a reference definition of case-insensitive equality.
- `inputs.dfy`: how an input's name becomes its variable name (`_input`), what
  happens when the variable is missing or the parser rejects the text, and the
  parsers `_strtobool`, `_persona`, `_min_severity` and `_min_confidence`.
- `launcher.dfy`: the body of `main`. `ResolveConfig` reads the eight inputs in
  the source's order. `CheckTargets` is the loop that refuses flag-like targets.
  `BuildArgs` builds the argument vector by appending, and it is proved equal to
  the declarative `Command`. `Plan` covers everything decided before the child
  starts. `Finish`, `ExitCode` and `Status` cover publishing and the exit. `Run`
  is `main` itself.

The host is passed in as parameters:

- the environment is a `map<string, string>`;
- `shlex.split` is a parameter `split` that returns either the tokens or the
  `ValueError` message;
- `shutil.which("uvx")` is an `Option<string>`;
- the child process is started through a `Host` object. Its `Spawn` method gives
  the return code, which a function `child(argv, env)` determines. Its ghost field
  `log` records every argument vector and environment the child was started
  with through this host.

`Run` calls the child only through `Host.Spawn`. Its contract says how `log` grows:
by nothing when the run fails before the child starts, and otherwise by exactly
one pair of vector and environment.

## Model

| member | source | states |
|---|---|---|
| `Inputs.EnvNameAt` | action.py:29 | `EnvName` models line 29. The variable name is `GHA_ZIZMOR_` followed by the input's name. In that name each `-` becomes `_` and each ASCII letter is upper-cased, character by character, so the lengths match. |
| `Inputs.EnvNameShape` | action.py:29 | After the prefix, a variable name never contains `-` or a lower-case ASCII letter. |
| `Inputs.MinSeverityVariable` | action.py:29 | The input `min-severity` is read from `GHA_ZIZMOR_MIN_SEVERITY`. |
| `Inputs.Input` | action.py:27-37 | A missing variable fails with "Missing required environment variable <name>", whatever the parser is. A present variable succeeds exactly when the parser accepts its text, and then gives the parser's value. A rejection fails with "couldn't parse input <name>: <reason>". |
| `Text.LowerIsIgnoreCase` | action.py:60 | Lower-casing a text gives a lower-case word exactly when the text equals that word up to ASCII case. |
| `Inputs.StrToBoolSpec` | action.py:59-67 | This lemma is about `StrToBool`, the model of `_strtobool`. The result is true exactly when the text is "true", "1" or "yes" ignoring case. It is false exactly for "false", "0" or "no" ignoring case. Every other text is rejected, and the message quotes the lower-cased text. |
| `Inputs.StrToBoolExamples` | action.py:59-67 | "TRUE" and "Yes" give true and "No" gives false. "maybe" and the empty text are rejected. |
| `Inputs.Persona` | action.py:70-73 | Accepted exactly when the text is "regular", "pedantic" or "auditor", and then returned unchanged. Otherwise rejected with "invalid persona: <text>". |
| `Inputs.MinSeverity` | action.py:76-82 | The empty text, and only the empty text, gives "unset". One of the five severities is returned unchanged and is never empty. Anything else is rejected with its message. |
| `Inputs.MinConfidence` | action.py:85-91 | The same as for severities, over the four confidence levels. |
| `Inputs.ConfidenceWithinSeverity` | action.py:76-91 | The confidence parser accepts a subset of what the severity parser accepts, with the same result. "informational" is the only severity that it rejects. |
| `Launcher.ResolveConfig` | action.py:95-102 | A configuration that resolves has a known persona. Its minimum severity and minimum confidence are unset or known, non-empty levels. |
| `Launcher.ResolveConfigSpec` | action.py:95-102 | Resolution succeeds exactly when all eight inputs are present and accepted. Each field then holds its parser's value. The version and the token are taken verbatim. |
| `Launcher.ResolveConfigFirstFailure` | action.py:95-102 | The inputs are read in the source's order. When the first k-1 inputs succeed and input k is missing or rejected, resolution fails with input k's own message: its missing-variable message or its parse error. The later variables play no part. |
| `Launcher.MissingTokenNamed` | action.py:29-32 | With the five inputs before it and the version present and accepted, a missing token variable fails with the message that names `GHA_ZIZMOR_TOKEN`, whatever the advanced-security variable holds. |
| `Launcher.MissingTargetsFirst` | action.py:29-32 | When `GHA_ZIZMOR_INPUTS` is missing, the run stops with the message that names it, whatever the other variables hold. |
| `Launcher.FirstFlagLike` | action.py:106-108 | Gives nothing exactly when no target starts with `-`. Otherwise gives the position of the first target that does. |
| `Launcher.CheckTargets` | action.py:106-108 | Passes exactly when no target starts with `-`. Otherwise it reports "Invalid input: <t> looks like a flag" for the first such target. |
| `Launcher.BuildArgs` | action.py:119-139 | The vector built by successive appends equals `Command`, the declarative layout. |
| `Launcher.CommandLayout` | action.py:119-139 | This lemma is about `Command`, the declarative model of lines 119-139. The vector starts with `uvx`, `zizmor@<version>`, `--color=always` and the format flag. The options follow in order, then `--`, then the targets in their original order. The `--` before the targets is the first `--` past the executable. |
| `Launcher.FormatFlagOnce` | action.py:121-125 | Past the executable there is exactly one `--format=` flag. `--format=sarif` appears exactly when advanced security is on, and `--format=plain` exactly when it is off. |
| `Launcher.NoOnlineAuditsFlagWhenOff` | action.py:127-128 | `--no-online-audits` appears, once, exactly when online audits are off. |
| `Launcher.PersonaFlagOnce` | action.py:130 | Exactly one `--persona=` flag appears, and it carries the configured persona. |
| `Launcher.MinimumFlagsWhenSet` | action.py:132-136 | A `--min-severity=` flag, and likewise a `--min-confidence=` flag, appears once when its value is set and non-empty, and not at all otherwise. |
| `Launcher.ExampleCommand` | action.py:119-139 | With targets `a.yml b.yml`, online audits on, the regular persona, the latest version and plain output, the command line ends with `-- a.yml b.yml`. |
| `Launcher.ChildEnvironment` | action.py:145-147 | The child's environment holds only `GH_TOKEN`, set to the token. |
| `Launcher.PlanSpec` | action.py:94-147 | `Plan` models `main` up to the start of the child. The child is reached exactly when the inputs resolve, no target looks like a flag and `uvx` was found. The child then gets `Command`, an environment that holds only `GH_TOKEN` with the value of `GHA_ZIZMOR_TOKEN`, and the advanced-security output mode. When resolution fails, `Plan` fails with the same message. When the inputs resolve and no target looks like a flag but `uvx` is not found, it fails with "uvx not found in PATH". |
| `Launcher.PlanRejectsFlagLike` | action.py:104-108 | A target that starts with `-` stops the run before the child starts. The message quotes the first such target. |
| `Launcher.PlanTargetsArePositional` | action.py:104-139 | In every vector given to the child, the first `--` past the executable is followed by exactly the targets, and none of them starts with `-`. |
| `Launcher.ExitCode` | action.py:159-160 | The exit code is the child's return code, so it is zero exactly when the child's code is zero. |
| `Launcher.FinishPropagates` | action.py:152-160 | `Finish` models the tail of `main`. Plain mode always exits with the child's code. SARIF mode does too when `RUNNER_TEMP` and `GITHUB_OUTPUT` are both set. Otherwise the run dies, even though the child has already run. |
| `Launcher.Status` | action.py:159-160 | The status the operating system reports is always in 0..255. |
| `Launcher.StatusMatchesChild` | action.py:159-160 | For any return code a child can report, the launcher's status is zero exactly when the child's code is zero. It equals the child's code when the child exited by itself, and 256 - N when signal N ended it. |
| `Launcher.Host.Spawn` | action.py:141-148 | Starting the child adds its argument vector and its environment, as a pair, to the host's log. The return code is what `child` gives for that vector and environment. |
| `Launcher.Run` | action.py:94-160 | `main`. When `Plan` fails, the run dies with its message and the host's log is unchanged, so the child was never started. Otherwise the log grows by exactly one entry: `Plan`'s vector together with `Plan`'s environment, which holds only `GH_TOKEN`. So the child was started exactly once, and with the token alone. The run then ends as `Finish` says for the return code of `Plan`'s vector and environment. |

## Left out

- Printing is not modelled. `_die` and `_debug` write `::error::`, `Error:` and `::debug::` lines to stdout and stderr. `_die` appears only as the `Died` termination or as a `Failure` carrying its message.
- Starting the child with `subprocess.run`, and capturing its stdout, is foreign I/O. The child's return code is a function of the vector and the environment, reached through `Host.Spawn`.
- `Launcher.Run` does not model an exception from `subprocess.run`. For example, when `uvx` is found on PATH but cannot be executed, Python exits 1 with a traceback. In the model, `Host.Spawn` always returns a code. The contract also speaks only of the `host` it is given, so it does not rule out a child started through another `Host` object that `Run` allocates itself.
- `shlex.split` is a library function. It is a parameter, and its `ValueError` is its `Failure`.
- `shutil.which("uvx")` searches PATH on the host. Its result is a parameter.
- Filesystem writes are left out: the temporary SARIF file, writing the child's stdout to it or to the launcher's stdout, and appending `sarif-file=<path>` to `GITHUB_OUTPUT`. Only the checks that `RUNNER_TEMP` and `GITHUB_OUTPUT` are set are modelled. Exceptions raised by these writes are not modelled.
- `Text.Lower` and `Text.Upper` map ASCII letters only, while Python's `str.lower` and `str.upper` follow full Unicode case mapping.
- `Launcher.Status` assumes a POSIX host, where `exit` keeps the low 8 bits of the code. On Windows the exit code keeps more bits.
- The binary-download variant is not part of this model: choosing the platform, downloading the release, checking its attestation and unpacking it. So is the older variant without persona, severity and confidence. Only `action.py` is modelled.
