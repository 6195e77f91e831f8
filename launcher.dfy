/** The launcher's `main`: it resolves the eight inputs, refuses scan targets
    that look like flags, assembles the command line for `zizmor` (run through
    `uvx`), runs it once with an environment holding only the token, and exits
    with the child's return code.

    The host is passed in: `env` is the launcher's environment, `split` is the
    shell-word splitter applied to the targets input, `which` is the result of
    looking `uvx` up on PATH, and `host` starts the child process, whose
    return code is a function of its argument vector and environment. */
module Launcher {
  import opened Wrappers
  import opened Text
  import opened Inputs

  /** The validated inputs of one run. */
  datatype Config = Config(
    inputs: seq<string>,
    onlineAudits: bool,
    persona: string,
    minSeverity: Option<string>,
    minConfidence: Option<string>,
    version: string,
    token: string,
    advancedSecurity: bool)

  /** Every value a `Config` holds went through its parser. */
  predicate ValidConfig(c: Config) {
    && c.persona in Personas
    && (c.minSeverity.Some? ==> c.minSeverity.value in Severities && c.minSeverity.value != "")
    && (c.minConfidence.Some? ==> c.minConfidence.value in Confidences && c.minConfidence.value != "")
  }

  /** Reads the inputs in the launcher's order; the first one that is missing
      or rejected ends the run. */
  function ResolveConfig(env: Environment, split: string -> Result<seq<string>, string>): (r: Result<Config, string>)
    ensures r.Success? ==> ValidConfig(r.value)
  {
    var inputs :- Input(env, "inputs", split);
    var onlineAudits :- Input(env, "online-audits", StrToBool);
    var persona :- Input(env, "persona", Persona);
    var minSeverity :- Input(env, "min-severity", MinSeverity);
    var minConfidence :- Input(env, "min-confidence", MinConfidence);
    var version :- Input(env, "version", AsText);
    var token :- Input(env, "token", AsText);
    var advancedSecurity :- Input(env, "advanced-security", StrToBool);
    Success(Config(inputs, onlineAudits, persona, minSeverity, minConfidence, version, token, advancedSecurity))
  }

  /** Resolution succeeds exactly when every one of the eight inputs is
      present and accepted by its parser, and the configuration then holds
      what the parsers returned. */
  lemma ResolveConfigSpec(env: Environment, split: string -> Result<seq<string>, string>)
    ensures ResolveConfig(env, split).Success? <==>
      && Input(env, "inputs", split).Success?
      && Input(env, "online-audits", StrToBool).Success?
      && Input(env, "persona", Persona).Success?
      && Input(env, "min-severity", MinSeverity).Success?
      && Input(env, "min-confidence", MinConfidence).Success?
      && EnvName("version") in env
      && EnvName("token") in env
      && Input(env, "advanced-security", StrToBool).Success?
    ensures ResolveConfig(env, split).Success? ==>
      var c := ResolveConfig(env, split).value;
      && split(env[EnvName("inputs")]) == Success(c.inputs)
      && StrToBool(env[EnvName("online-audits")]) == Success(c.onlineAudits)
      && c.persona == env[EnvName("persona")]
      && MinSeverity(env[EnvName("min-severity")]) == Success(c.minSeverity)
      && MinConfidence(env[EnvName("min-confidence")]) == Success(c.minConfidence)
      && c.version == env[EnvName("version")]
      && c.token == env[EnvName("token")]
      && StrToBool(env[EnvName("advanced-security")]) == Success(c.advancedSecurity)
  {
  }

  /** The inputs are read in order and the first one that is missing or
      rejected decides the failure: resolution then fails with that input's
      own message, whatever the later variables hold. */
  lemma ResolveConfigFirstFailure(env: Environment, split: string -> Result<seq<string>, string>)
    ensures Input(env, "inputs", split).Failure? ==>
      ResolveConfig(env, split) == Failure(Input(env, "inputs", split).error)
    ensures (Input(env, "inputs", split).Success?
      && Input(env, "online-audits", StrToBool).Failure?) ==>
      ResolveConfig(env, split) == Failure(Input(env, "online-audits", StrToBool).error)
    ensures (Input(env, "inputs", split).Success?
      && Input(env, "online-audits", StrToBool).Success?
      && Input(env, "persona", Persona).Failure?) ==>
      ResolveConfig(env, split) == Failure(Input(env, "persona", Persona).error)
    ensures (Input(env, "inputs", split).Success?
      && Input(env, "online-audits", StrToBool).Success?
      && Input(env, "persona", Persona).Success?
      && Input(env, "min-severity", MinSeverity).Failure?) ==>
      ResolveConfig(env, split) == Failure(Input(env, "min-severity", MinSeverity).error)
    ensures (Input(env, "inputs", split).Success?
      && Input(env, "online-audits", StrToBool).Success?
      && Input(env, "persona", Persona).Success?
      && Input(env, "min-severity", MinSeverity).Success?
      && Input(env, "min-confidence", MinConfidence).Failure?) ==>
      ResolveConfig(env, split) == Failure(Input(env, "min-confidence", MinConfidence).error)
    ensures (Input(env, "inputs", split).Success?
      && Input(env, "online-audits", StrToBool).Success?
      && Input(env, "persona", Persona).Success?
      && Input(env, "min-severity", MinSeverity).Success?
      && Input(env, "min-confidence", MinConfidence).Success?
      && EnvName("version") !in env) ==>
      ResolveConfig(env, split) == Failure(MissingVariable(EnvName("version")))
    ensures (Input(env, "inputs", split).Success?
      && Input(env, "online-audits", StrToBool).Success?
      && Input(env, "persona", Persona).Success?
      && Input(env, "min-severity", MinSeverity).Success?
      && Input(env, "min-confidence", MinConfidence).Success?
      && EnvName("version") in env
      && EnvName("token") !in env) ==>
      ResolveConfig(env, split) == Failure(MissingVariable(EnvName("token")))
    ensures (Input(env, "inputs", split).Success?
      && Input(env, "online-audits", StrToBool).Success?
      && Input(env, "persona", Persona).Success?
      && Input(env, "min-severity", MinSeverity).Success?
      && Input(env, "min-confidence", MinConfidence).Success?
      && EnvName("version") in env
      && EnvName("token") in env
      && Input(env, "advanced-security", StrToBool).Failure?) ==>
      ResolveConfig(env, split) == Failure(Input(env, "advanced-security", StrToBool).error)
  {
  }

  /** With the five inputs read before it and the version in place, a missing
      token variable ends the run with the message that names
      `GHA_ZIZMOR_TOKEN`, whatever the advanced-security variable holds. */
  lemma MissingTokenNamed(env: Environment, split: string -> Result<seq<string>, string>)
    requires Input(env, "inputs", split).Success?
    requires Input(env, "online-audits", StrToBool).Success?
    requires Input(env, "persona", Persona).Success?
    requires Input(env, "min-severity", MinSeverity).Success?
    requires Input(env, "min-confidence", MinConfidence).Success?
    requires EnvName("version") in env
    requires EnvName("token") !in env
    ensures ResolveConfig(env, split) == Failure(MissingVariable("GHA_ZIZMOR_TOKEN"))
  {
    assert Replace("token", '-', '_') == "token";
    assert Upper("token") == "TOKEN";
    assert EnvName("token") == "GHA_ZIZMOR_TOKEN";
  }

  /** When the targets' variable is missing, resolution stops at once with
      the message that names it, whatever the other variables hold. */
  lemma MissingTargetsFirst(env: Environment, split: string -> Result<seq<string>, string>)
    requires EnvName("inputs") !in env
    ensures ResolveConfig(env, split) == Failure(MissingVariable("GHA_ZIZMOR_INPUTS"))
  {
    assert Replace("inputs", '-', '_') == "inputs";
    assert Upper("inputs") == "INPUTS";
    assert EnvName("inputs") == "GHA_ZIZMOR_INPUTS";
  }

  // ---------------------------------------------------------------------------
  // Refusing flag-like targets

  /** A token that the tool would read as a flag. */
  predicate FlagLike(t: string) {
    StartsWith(t, "-")
  }

  function FlagMessage(t: string): string {
    "Invalid input: " + t + " looks like a flag"
  }

  /** The position of the first flag-like token, if there is one. */
  function FirstFlagLike(s: seq<string>): (k: Option<nat>)
    ensures k.None? <==> forall i :: 0 <= i < |s| ==> !FlagLike(s[i])
    ensures k.Some? ==> k.value < |s| && FlagLike(s[k.value])
    ensures k.Some? ==> forall j :: 0 <= j < k.value ==> !FlagLike(s[j])
  {
    if s == [] then None
    else if FlagLike(s[0]) then Some(0)
    else match FirstFlagLike(s[1..])
      case None => None
      case Some(j) => Some(j + 1)
  }

  /** The check `main` runs over the targets before anything else: the first
      flag-like token is reported, or nothing when there is none. */
  method CheckTargets(inputs: seq<string>) returns (rejected: Option<string>)
    ensures rejected.None? <==> forall i :: 0 <= i < |inputs| ==> !FlagLike(inputs[i])
    ensures rejected.Some? ==>
      FirstFlagLike(inputs).Some? && rejected.value == FlagMessage(inputs[FirstFlagLike(inputs).value])
  {
    for i := 0 to |inputs|
      invariant forall j :: 0 <= j < i ==> !FlagLike(inputs[j])
    {
      if StartsWith(inputs[i], "-") {
        return Some(FlagMessage(inputs[i]));
      }
    }
    return None;
  }

  // ---------------------------------------------------------------------------
  // The command line

  const NoOnlineAuditsFlag := "--no-online-audits"
  const Separator := "--"

  function FormatFlag(sarif: bool): string {
    if sarif then "--format=sarif" else "--format=plain"
  }

  function PersonaFlag(persona: string): string {
    "--persona=" + persona
  }

  /** Python's truthiness of an optional string: set and not empty. */
  predicate Truthy(o: Option<string>) {
    o.Some? && o.value != ""
  }

  function OptionalFlag(flag: string, o: Option<string>): seq<string> {
    if Truthy(o) then [flag + o.value] else []
  }

  /** The tool specifier and the options, in their fixed order. */
  function Options(c: Config): seq<string> {
    ["zizmor@" + c.version, "--color=always", FormatFlag(c.advancedSecurity)]
    + (if c.onlineAudits then [] else [NoOnlineAuditsFlag])
    + [PersonaFlag(c.persona)]
    + OptionalFlag("--min-severity=", c.minSeverity)
    + OptionalFlag("--min-confidence=", c.minConfidence)
  }

  /** The child's argument vector: `uvx`, the options, the separator, and the
      targets. */
  function Command(uvx: string, c: Config): seq<string> {
    [uvx] + Options(c) + [Separator] + c.inputs
  }

  /** Assembles the argument vector by successive appends, as `main` does. */
  method BuildArgs(uvx: string, c: Config) returns (args: seq<string>)
    ensures args == Command(uvx, c)
  {
    args := [uvx, "zizmor@" + c.version, "--color=always"];
    if c.advancedSecurity {
      args := args + ["--format=sarif"];
    } else {
      args := args + ["--format=plain"];
    }
    ghost var options := ["zizmor@" + c.version, "--color=always", FormatFlag(c.advancedSecurity)];
    assert args == [uvx] + options;
    if !c.onlineAudits {
      args := args + ["--no-online-audits"];
    }
    options := options + if c.onlineAudits then [] else [NoOnlineAuditsFlag];
    assert args == [uvx] + options;
    args := args + ["--persona=" + c.persona];
    options := options + [PersonaFlag(c.persona)];
    assert args == [uvx] + options;
    if c.minSeverity.Some? && c.minSeverity.value != "" {
      args := args + ["--min-severity=" + c.minSeverity.value];
    }
    options := options + OptionalFlag("--min-severity=", c.minSeverity);
    assert args == [uvx] + options;
    if c.minConfidence.Some? && c.minConfidence.value != "" {
      args := args + ["--min-confidence=" + c.minConfidence.value];
    }
    options := options + OptionalFlag("--min-confidence=", c.minConfidence);
    assert args == [uvx] + options;
    assert options == Options(c);
    args := args + ["--"];
    args := args + c.inputs;
  }

  // ---------------------------------------------------------------------------
  // What the command line says

  /** The tokens of `s` that satisfy `p`, in order. */
  function Filter(s: seq<string>, p: string -> bool): seq<string> {
    if s == [] then [] else Keep(s[0], p) + Filter(s[1..], p)
  }

  function Keep(t: string, p: string -> bool): seq<string> {
    if p(t) then [t] else []
  }

  lemma {:induction false} FilterAppend(a: seq<string>, b: seq<string>, p: string -> bool)
    ensures Filter(a + b, p) == Filter(a, p) + Filter(b, p)
  {
    if a != [] {
      assert (a + b)[0] == a[0] && (a + b)[1..] == a[1..] + b;
      FilterAppend(a[1..], b, p);
      var head := Keep(a[0], p);
      calc {
        Filter(a + b, p);
        head + Filter(a[1..] + b, p);
        head + (Filter(a[1..], p) + Filter(b, p));
        (head + Filter(a[1..], p)) + Filter(b, p);
      }
    } else {
      assert a + b == b;
    }
  }

  lemma {:induction false} FilterNone(s: seq<string>, p: string -> bool)
    requires forall i :: 0 <= i < |s| ==> !p(s[i])
    ensures Filter(s, p) == []
  {
    if s != [] {
      FilterNone(s[1..], p);
    }
  }

  /** Filtering keeps exactly the tokens of `s` that satisfy `p`. */
  lemma {:induction false} FilterMember(s: seq<string>, p: string -> bool, t: string)
    ensures t in Filter(s, p) <==> t in s && p(t)
  {
    if s != [] {
      FilterMember(s[1..], p, t);
      assert t in s <==> s[0] == t || t in s[1..];
    }
  }

  lemma FilterSingleton(t: string, p: string -> bool)
    ensures Filter([t], p) == Keep(t, p)
  {
    assert [t][1..] == [];
  }

  /** The layout of every command line: `uvx`, the tool specifier pinned to
      the requested version, the colour flag, the other options, then a
      separator that is the first `--` after the executable, followed by the
      targets in their original order. */
  lemma CommandLayout(uvx: string, c: Config)
    ensures var cmd := Command(uvx, c);
      && |cmd| == |Options(c)| + 2 + |c.inputs|
      && cmd[..3] == [uvx, "zizmor@" + c.version, "--color=always"]
      && cmd[3] == FormatFlag(c.advancedSecurity)
      && cmd[1..|Options(c)| + 1] == Options(c)
      && cmd[|Options(c)| + 1] == Separator
      && cmd[|Options(c)| + 2..] == c.inputs
      && forall j :: 1 <= j <= |Options(c)| ==> cmd[j] != Separator
  {
    var cmd := Command(uvx, c);
    var o := Options(c);
    assert cmd == [uvx] + o + [Separator] + c.inputs;
    assert cmd[1..|o| + 1] == o;
    forall j | 1 <= j <= |o|
      ensures cmd[j] != Separator
    {
      assert cmd[j] == o[j - 1];
      assert |o[j - 1]| > 2;
    }
  }

  /** A predicate `p` picks out options only: it holds of no target (when
      the targets passed the check) and not of the separator. */
  lemma FilterCommand(uvx: string, c: Config, p: string -> bool)
    requires forall i :: 0 <= i < |c.inputs| ==> !p(c.inputs[i])
    requires !p(Separator)
    ensures Filter(Command(uvx, c)[1..], p) == Filter(Options(c), p)
  {
    assert Command(uvx, c)[1..] == Options(c) + ([Separator] + c.inputs);
    FilterAppend(Options(c), [Separator] + c.inputs, p);
    FilterAppend([Separator], c.inputs, p);
    FilterNone(c.inputs, p);
  }

  /** Filtering the options is filtering each of them in turn. */
  lemma FilterOptions(c: Config, p: string -> bool)
    ensures Filter(Options(c), p) ==
      Keep("zizmor@" + c.version, p) + Keep("--color=always", p) + Keep(FormatFlag(c.advancedSecurity), p)
      + (if c.onlineAudits then [] else Keep(NoOnlineAuditsFlag, p))
      + Keep(PersonaFlag(c.persona), p)
      + (if Truthy(c.minSeverity) then Keep("--min-severity=" + c.minSeverity.value, p) else [])
      + (if Truthy(c.minConfidence) then Keep("--min-confidence=" + c.minConfidence.value, p) else [])
  {
    var head := ["zizmor@" + c.version, "--color=always", FormatFlag(c.advancedSecurity)];
    var online := if c.onlineAudits then [] else [NoOnlineAuditsFlag];
    var persona := [PersonaFlag(c.persona)];
    var severity := OptionalFlag("--min-severity=", c.minSeverity);
    var confidence := OptionalFlag("--min-confidence=", c.minConfidence);
    FilterAppend(head + online + persona + severity, confidence, p);
    FilterAppend(head + online + persona, severity, p);
    FilterAppend(head + online, persona, p);
    FilterAppend(head, online, p);
    assert head == [head[0]] + [head[1]] + [head[2]];
    FilterAppend([head[0]] + [head[1]], [head[2]], p);
    FilterAppend([head[0]], [head[1]], p);
    FilterSingleton(head[0], p);
    FilterSingleton(head[1], p);
    FilterSingleton(head[2], p);
    FilterSingleton(PersonaFlag(c.persona), p);
    if !c.onlineAudits { FilterSingleton(NoOnlineAuditsFlag, p); }
    if Truthy(c.minSeverity) { FilterSingleton(severity[0], p); }
    if Truthy(c.minConfidence) { FilterSingleton(confidence[0], p); }
    assert Options(c) == head + online + persona + severity + confidence;
  }

  predicate IsFormatFlag(t: string) { StartsWith(t, "--format=") }
  predicate IsNoOnlineAuditsFlag(t: string) { t == NoOnlineAuditsFlag }
  predicate IsPersonaFlag(t: string) { StartsWith(t, "--persona=") }
  predicate IsMinSeverityFlag(t: string) { StartsWith(t, "--min-severity=") }
  predicate IsMinConfidenceFlag(t: string) { StartsWith(t, "--min-confidence=") }

  /** Targets that passed the check contribute none of the options. */
  lemma TargetsAreNotOptions(inputs: seq<string>)
    requires forall i :: 0 <= i < |inputs| ==> !FlagLike(inputs[i])
    ensures forall i :: 0 <= i < |inputs| ==>
      && !IsFormatFlag(inputs[i]) && !IsNoOnlineAuditsFlag(inputs[i]) && !IsPersonaFlag(inputs[i])
      && !IsMinSeverityFlag(inputs[i]) && !IsMinConfidenceFlag(inputs[i])
  {
    forall i | 0 <= i < |inputs|
      ensures !IsFormatFlag(inputs[i]) && !IsNoOnlineAuditsFlag(inputs[i]) && !IsPersonaFlag(inputs[i])
      ensures !IsMinSeverityFlag(inputs[i]) && !IsMinConfidenceFlag(inputs[i])
    {
      var t := inputs[i];
      assert !StartsWith(t, "-");
      assert t == [] || t[0] != '-';
    }
  }

  /** What the tool specifier is not: any of the options. */
  lemma SpecifierKind(version: string)
    ensures var t := "zizmor@" + version;
      !IsFormatFlag(t) && !IsNoOnlineAuditsFlag(t) && !IsPersonaFlag(t) && !IsMinSeverityFlag(t) && !IsMinConfidenceFlag(t)
  {
    var t := "zizmor@" + version;
    DiffersAt(t, "--format=", 0);
    DiffersAt(t, "--persona=", 0);
    DiffersAt(t, "--min-severity=", 0);
    DiffersAt(t, "--min-confidence=", 0);
  }

  lemma ColorKind()
    ensures var t := "--color=always";
      !IsFormatFlag(t) && !IsNoOnlineAuditsFlag(t) && !IsPersonaFlag(t) && !IsMinSeverityFlag(t) && !IsMinConfidenceFlag(t)
  {
    var t := "--color=always";
    DiffersAt(t, "--format=", 2);
    DiffersAt(t, "--persona=", 2);
    DiffersAt(t, "--min-severity=", 2);
    DiffersAt(t, "--min-confidence=", 2);
  }

  lemma FormatKind(sarif: bool)
    ensures var t := FormatFlag(sarif);
      IsFormatFlag(t) && !IsNoOnlineAuditsFlag(t) && !IsPersonaFlag(t) && !IsMinSeverityFlag(t) && !IsMinConfidenceFlag(t)
  {
    var t := FormatFlag(sarif);
    assert t[..9] == "--format=";
    DiffersAt(t, "--persona=", 2);
    DiffersAt(t, "--min-severity=", 2);
    DiffersAt(t, "--min-confidence=", 2);
  }

  lemma NoOnlineAuditsKind()
    ensures var t := NoOnlineAuditsFlag;
      !IsFormatFlag(t) && IsNoOnlineAuditsFlag(t) && !IsPersonaFlag(t) && !IsMinSeverityFlag(t) && !IsMinConfidenceFlag(t)
  {
    var t := NoOnlineAuditsFlag;
    DiffersAt(t, "--format=", 2);
    DiffersAt(t, "--persona=", 2);
    DiffersAt(t, "--min-severity=", 2);
    DiffersAt(t, "--min-confidence=", 2);
  }

  lemma PersonaKind(persona: string)
    ensures var t := PersonaFlag(persona);
      !IsFormatFlag(t) && !IsNoOnlineAuditsFlag(t) && IsPersonaFlag(t) && !IsMinSeverityFlag(t) && !IsMinConfidenceFlag(t)
  {
    var t := PersonaFlag(persona);
    assert t[..10] == "--persona=";
    DiffersAt(t, "--format=", 2);
    assert t[2] != NoOnlineAuditsFlag[2];
    DiffersAt(t, "--min-severity=", 2);
    DiffersAt(t, "--min-confidence=", 2);
  }

  lemma MinSeverityKind(severity: string)
    ensures var t := "--min-severity=" + severity;
      !IsFormatFlag(t) && !IsNoOnlineAuditsFlag(t) && !IsPersonaFlag(t) && IsMinSeverityFlag(t) && !IsMinConfidenceFlag(t)
  {
    var t := "--min-severity=" + severity;
    assert t[..15] == "--min-severity=";
    DiffersAt(t, "--format=", 2);
    assert t[2] != NoOnlineAuditsFlag[2];
    DiffersAt(t, "--persona=", 2);
    DiffersAt(t, "--min-confidence=", 6);
  }

  lemma MinConfidenceKind(confidence: string)
    ensures var t := "--min-confidence=" + confidence;
      !IsFormatFlag(t) && !IsNoOnlineAuditsFlag(t) && !IsPersonaFlag(t) && !IsMinSeverityFlag(t) && IsMinConfidenceFlag(t)
  {
    var t := "--min-confidence=" + confidence;
    assert t[..17] == "--min-confidence=";
    DiffersAt(t, "--format=", 2);
    assert t[2] != NoOnlineAuditsFlag[2];
    DiffersAt(t, "--persona=", 2);
    DiffersAt(t, "--min-severity=", 6);
  }

  /** Every option token, classified. */
  lemma OptionKinds(c: Config)
    ensures var t := "zizmor@" + c.version;
      !IsFormatFlag(t) && !IsNoOnlineAuditsFlag(t) && !IsPersonaFlag(t) && !IsMinSeverityFlag(t) && !IsMinConfidenceFlag(t)
    ensures var t := "--color=always";
      !IsFormatFlag(t) && !IsNoOnlineAuditsFlag(t) && !IsPersonaFlag(t) && !IsMinSeverityFlag(t) && !IsMinConfidenceFlag(t)
    ensures var t := FormatFlag(c.advancedSecurity);
      IsFormatFlag(t) && !IsNoOnlineAuditsFlag(t) && !IsPersonaFlag(t) && !IsMinSeverityFlag(t) && !IsMinConfidenceFlag(t)
    ensures var t := NoOnlineAuditsFlag;
      !IsFormatFlag(t) && IsNoOnlineAuditsFlag(t) && !IsPersonaFlag(t) && !IsMinSeverityFlag(t) && !IsMinConfidenceFlag(t)
    ensures var t := PersonaFlag(c.persona);
      !IsFormatFlag(t) && !IsNoOnlineAuditsFlag(t) && IsPersonaFlag(t) && !IsMinSeverityFlag(t) && !IsMinConfidenceFlag(t)
    ensures Truthy(c.minSeverity) ==> var t := "--min-severity=" + c.minSeverity.value;
      !IsFormatFlag(t) && !IsNoOnlineAuditsFlag(t) && !IsPersonaFlag(t) && IsMinSeverityFlag(t) && !IsMinConfidenceFlag(t)
    ensures Truthy(c.minConfidence) ==> var t := "--min-confidence=" + c.minConfidence.value;
      !IsFormatFlag(t) && !IsNoOnlineAuditsFlag(t) && !IsPersonaFlag(t) && !IsMinSeverityFlag(t) && IsMinConfidenceFlag(t)
  {
    SpecifierKind(c.version);
    ColorKind();
    FormatKind(c.advancedSecurity);
    NoOnlineAuditsKind();
    PersonaKind(c.persona);
    if Truthy(c.minSeverity) { MinSeverityKind(c.minSeverity.value); }
    if Truthy(c.minConfidence) { MinConfidenceKind(c.minConfidence.value); }
  }

  /** Past the executable, a command line whose targets passed the check
      holds exactly one format flag: SARIF when the advanced-security output
      was asked for, plain text otherwise. */
  lemma FormatFlagOnce(uvx: string, c: Config)
    requires forall i :: 0 <= i < |c.inputs| ==> !FlagLike(c.inputs[i])
    ensures Filter(Command(uvx, c)[1..], IsFormatFlag) == [FormatFlag(c.advancedSecurity)]
    ensures "--format=sarif" in Command(uvx, c)[1..] <==> c.advancedSecurity
    ensures "--format=plain" in Command(uvx, c)[1..] <==> !c.advancedSecurity
  {
    TargetsAreNotOptions(c.inputs);
    FilterCommand(uvx, c, IsFormatFlag);
    FilterOptions(c, IsFormatFlag);
    OptionKinds(c);
    FormatKind(!c.advancedSecurity);
    var cmd := Command(uvx, c)[1..];
    FilterMember(cmd, IsFormatFlag, "--format=sarif");
    FilterMember(cmd, IsFormatFlag, "--format=plain");
  }

  /** `--no-online-audits` is passed, once, exactly when online audits are
      off. */
  lemma NoOnlineAuditsFlagWhenOff(uvx: string, c: Config)
    requires forall i :: 0 <= i < |c.inputs| ==> !FlagLike(c.inputs[i])
    ensures Filter(Command(uvx, c)[1..], IsNoOnlineAuditsFlag) ==
      if c.onlineAudits then [] else [NoOnlineAuditsFlag]
    ensures NoOnlineAuditsFlag in Command(uvx, c)[1..] <==> !c.onlineAudits
  {
    TargetsAreNotOptions(c.inputs);
    FilterCommand(uvx, c, IsNoOnlineAuditsFlag);
    FilterOptions(c, IsNoOnlineAuditsFlag);
    OptionKinds(c);
    FilterMember(Command(uvx, c)[1..], IsNoOnlineAuditsFlag, NoOnlineAuditsFlag);
  }

  /** The persona flag is always passed, once, with the configured persona. */
  lemma PersonaFlagOnce(uvx: string, c: Config)
    requires forall i :: 0 <= i < |c.inputs| ==> !FlagLike(c.inputs[i])
    ensures Filter(Command(uvx, c)[1..], IsPersonaFlag) == [PersonaFlag(c.persona)]
  {
    TargetsAreNotOptions(c.inputs);
    FilterCommand(uvx, c, IsPersonaFlag);
    FilterOptions(c, IsPersonaFlag);
    OptionKinds(c);
  }

  /** A minimum-severity flag is passed, once, exactly when a minimum
      severity is set; likewise for the minimum confidence. */
  lemma MinimumFlagsWhenSet(uvx: string, c: Config)
    requires forall i :: 0 <= i < |c.inputs| ==> !FlagLike(c.inputs[i])
    ensures Filter(Command(uvx, c)[1..], IsMinSeverityFlag) ==
      if Truthy(c.minSeverity) then ["--min-severity=" + c.minSeverity.value] else []
    ensures Filter(Command(uvx, c)[1..], IsMinConfidenceFlag) ==
      if Truthy(c.minConfidence) then ["--min-confidence=" + c.minConfidence.value] else []
  {
    TargetsAreNotOptions(c.inputs);
    FilterCommand(uvx, c, IsMinSeverityFlag);
    FilterOptions(c, IsMinSeverityFlag);
    FilterCommand(uvx, c, IsMinConfidenceFlag);
    FilterOptions(c, IsMinConfidenceFlag);
    OptionKinds(c);
  }

  /** The command line of a run with targets `a.yml b.yml`, online audits on,
      the regular persona, the latest version and plain output. */
  lemma ExampleCommand()
    ensures Command("/usr/bin/uvx", Config(["a.yml", "b.yml"], true, "regular", None, None, "latest", "t", false))
      == ["/usr/bin/uvx", "zizmor@latest", "--color=always", "--format=plain", "--persona=regular", "--", "a.yml", "b.yml"]
  {
    var c := Config(["a.yml", "b.yml"], true, "regular", None, None, "latest", "t", false);
    assert "zizmor@" + c.version == "zizmor@latest";
    assert PersonaFlag(c.persona) == "--persona=regular";
    assert Options(c) == ["zizmor@latest", "--color=always", "--format=plain", "--persona=regular"];
  }

  // ---------------------------------------------------------------------------
  // One run

  /** What the launcher hands to the child process. */
  datatype Invocation = Invocation(argv: seq<string>, env: map<string, string>, sarif: bool)

  const UvxNotFound := "uvx not found in PATH"

  /** The child's environment: the token and nothing else. */
  function ChildEnvironment(token: string): (childEnv: map<string, string>)
    ensures childEnv.Keys == {"GH_TOKEN"} && childEnv["GH_TOKEN"] == token
  {
    map["GH_TOKEN" := token]
  }

  /** Everything `main` decides before the child runs: the inputs, the flag
      check, the `uvx` lookup, and the command line. */
  function Plan(env: Environment, split: string -> Result<seq<string>, string>, which: Option<string>): Result<Invocation, string> {
    var c :- ResolveConfig(env, split);
    match FirstFlagLike(c.inputs)
    case Some(k) => Failure(FlagMessage(c.inputs[k]))
    case None =>
      if which.None? then Failure(UvxNotFound)
      else Success(Invocation(Command(which.value, c), ChildEnvironment(c.token), c.advancedSecurity))
  }

  /** A run gets as far as the child exactly when the inputs resolve, no
      target looks like a flag and `uvx` is found. Its command line is then
      built from the resolved inputs, the child sees only the token, and the
      output mode is the advanced-security input. */
  lemma PlanSpec(env: Environment, split: string -> Result<seq<string>, string>, which: Option<string>)
    ensures Plan(env, split, which).Success? <==>
      && ResolveConfig(env, split).Success?
      && (forall i :: 0 <= i < |ResolveConfig(env, split).value.inputs| ==>
            !FlagLike(ResolveConfig(env, split).value.inputs[i]))
      && which.Some?
    ensures Plan(env, split, which).Success? ==>
      var c := ResolveConfig(env, split).value;
      var inv := Plan(env, split, which).value;
      && inv.argv == Command(which.value, c)
      && inv.env.Keys == {"GH_TOKEN"}
      && inv.env["GH_TOKEN"] == env[EnvName("token")]
      && StrToBool(env[EnvName("advanced-security")]) == Success(inv.sarif)
    ensures ResolveConfig(env, split).Failure? ==>
      Plan(env, split, which) == Failure(ResolveConfig(env, split).error)
    ensures (ResolveConfig(env, split).Success?
      && (forall i :: 0 <= i < |ResolveConfig(env, split).value.inputs| ==>
            !FlagLike(ResolveConfig(env, split).value.inputs[i]))
      && which.None?) ==>
      Plan(env, split, which) == Failure(UvxNotFound)
  {
    ResolveConfigSpec(env, split);
  }

  /** A flag-like target ends the run before the child is started, and the
      message quotes the first such target. */
  lemma PlanRejectsFlagLike(env: Environment, split: string -> Result<seq<string>, string>, which: Option<string>, i: nat)
    requires ResolveConfig(env, split).Success?
    requires i < |ResolveConfig(env, split).value.inputs|
    requires FlagLike(ResolveConfig(env, split).value.inputs[i])
    ensures Plan(env, split, which).Failure?
    ensures var inputs := ResolveConfig(env, split).value.inputs;
      exists k :: 0 <= k <= i && FlagLike(inputs[k]) && (forall j :: 0 <= j < k ==> !FlagLike(inputs[j]))
        && Plan(env, split, which).error == FlagMessage(inputs[k])
  {
    var inputs := ResolveConfig(env, split).value.inputs;
    var k := FirstFlagLike(inputs).value;
    assert 0 <= k <= i && FlagLike(inputs[k]);
  }

  /** In a command line the launcher hands to the child, the first `--` past
      the executable is followed by the targets, in their original order, and
      none of them looks like a flag. */
  lemma PlanTargetsArePositional(env: Environment, split: string -> Result<seq<string>, string>, which: Option<string>)
    requires Plan(env, split, which).Success?
    ensures var argv := Plan(env, split, which).value.argv;
      var inputs := ResolveConfig(env, split).value.inputs;
      var sep := |argv| - |inputs| - 1;
      && 1 <= sep && argv[sep] == Separator
      && (forall j :: 1 <= j < sep ==> argv[j] != Separator)
      && argv[sep + 1..] == inputs
      && forall j :: sep < j < |argv| ==> !FlagLike(argv[j])
  {
    var c := ResolveConfig(env, split).value;
    var argv := Plan(env, split, which).value.argv;
    CommandLayout(which.value, c);
    var sep := |argv| - |c.inputs| - 1;
    forall j | sep < j < |argv|
      ensures !FlagLike(argv[j])
    {
      assert argv[j] == argv[sep + 1..][j - sep - 1] == c.inputs[j - sep - 1];
    }
  }

  // ---------------------------------------------------------------------------
  // After the child

  /** How the launcher ends: with `_die`'s message (exit code 1), or with an
      exit code. */
  datatype Termination = Died(message: string) | Exited(code: int)

  /** `main` leaves with the child's return code when it is non-zero, and
      returns normally (code 0) otherwise: either way the child's code. */
  function ExitCode(returncode: int): (code: int)
    ensures code == returncode
    ensures code == 0 <==> returncode == 0
  {
    if returncode != 0 then returncode else 0
  }

  /** Publishes the output, then ends. In SARIF mode the output goes to a
      file under RUNNER_TEMP whose path is recorded in GITHUB_OUTPUT, and a
      missing variable ends the run even after the child ran. */
  function Finish(env: Environment, sarif: bool, returncode: int): Termination {
    if sarif && "RUNNER_TEMP" !in env then Died("RUNNER_TEMP not set")
    else if sarif && "GITHUB_OUTPUT" !in env then Died("GITHUB_OUTPUT not set")
    else Exited(ExitCode(returncode))
  }

  /** The status the operating system reports for the launcher: 1 after
      `_die`, otherwise the exit code in 8 bits, as `exit` truncates it on
      POSIX hosts. */
  function Status(t: Termination): (status: int)
    ensures 0 <= status < 256
  {
    match t
    case Died(_) => 1
    case Exited(code) => code % 256
  }

  /** The child's return code comes back unchanged whenever the output could
      be published; in plain mode it always can. */
  lemma FinishPropagates(env: Environment, sarif: bool, returncode: int)
    ensures !sarif ==> Finish(env, sarif, returncode) == Exited(returncode)
    ensures "RUNNER_TEMP" in env && "GITHUB_OUTPUT" in env ==> Finish(env, sarif, returncode) == Exited(returncode)
    ensures Finish(env, sarif, returncode).Died? <==>
      sarif && ("RUNNER_TEMP" !in env || "GITHUB_OUTPUT" !in env)
  {
  }

  /** A return code as a child process reports it: an exit status in 0..255,
      or minus the number of the signal that ended it. */
  predicate IsReturnCode(returncode: int) {
    -255 <= returncode <= 255
  }

  /** Once published, the launcher's status is zero exactly when the child's
      return code is, and equals it when the child exited on its own (a child
      ended by signal N gives 256 - N). */
  lemma StatusMatchesChild(returncode: int)
    requires IsReturnCode(returncode)
    ensures Status(Exited(ExitCode(returncode))) == 0 <==> returncode == 0
    ensures 0 <= returncode ==> Status(Exited(ExitCode(returncode))) == returncode
    ensures returncode < 0 ==> Status(Exited(ExitCode(returncode))) == 256 + returncode
  {
  }

  /** The host's process launcher. `Spawn` starts the child on an argument
      vector and an environment and gives back its return code, which `child`
      determines; `log` records, in order, every argument vector and
      environment the child was started with through this host. */
  class Host {
    const child: (seq<string>, map<string, string>) -> int
    ghost var log: seq<(seq<string>, map<string, string>)>

    constructor (child: (seq<string>, map<string, string>) -> int)
      ensures this.child == child && log == []
    {
      this.child := child;
      log := [];
    }

    method Spawn(argv: seq<string>, env: map<string, string>) returns (returncode: int)
      modifies this
      ensures log == old(log) + [(argv, env)]
      ensures returncode == child(argv, env)
    {
      returncode := child(argv, env);
      log := log + [(argv, env)];
    }
  }

  /** `main`: resolve the inputs, refuse flag-like targets, find `uvx`, build
      the command line, run the child through the host, publish and exit. The
      child is started once when `Plan` succeeds and never otherwise. */
  method Run(env: Environment, split: string -> Result<seq<string>, string>, which: Option<string>, host: Host)
    returns (t: Termination)
    modifies host
    ensures host.log == old(host.log) +
      (if Plan(env, split, which).Success?
       then [(Plan(env, split, which).value.argv, Plan(env, split, which).value.env)]
       else [])
    ensures Plan(env, split, which).Failure? ==> t == Died(Plan(env, split, which).error)
    ensures Plan(env, split, which).Success? ==>
      var inv := Plan(env, split, which).value;
      t == Finish(env, inv.sarif, host.child(inv.argv, inv.env))
  {
    var resolved := ResolveConfig(env, split);
    if resolved.Failure? {
      return Died(resolved.error);
    }
    var c := resolved.value;
    var rejected := CheckTargets(c.inputs);
    if rejected.Some? {
      return Died(rejected.value);
    }
    if which.None? {
      return Died(UvxNotFound);
    }
    var args := BuildArgs(which.value, c);
    var returncode := host.Spawn(args, ChildEnvironment(c.token));
    t := Finish(env, c.advancedSecurity, returncode);
  }
}
