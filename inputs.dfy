/** The launcher's typed inputs: each input is read from an environment
    variable whose name is derived from the input's name, and is then run
    through a parser that either accepts the raw text or rejects it with a
    message. A rejection ends the run (the model returns it as a `Failure`). */
module Inputs {
  import opened Wrappers
  import opened Text

  /** The process environment, as the launcher sees it. */
  type Environment = map<string, string>

  const EnvPrefix := "GHA_ZIZMOR_"

  /** The environment variable that carries input `name`: the prefix, then the
      name with every `-` turned into `_`, upper-cased. */
  function EnvName(name: string): string {
    EnvPrefix + Upper(Replace(name, '-', '_'))
  }

  /** Character by character, the variable name is the prefix followed by the
      input's name in which `-` became `_` and ASCII letters became upper case. */
  lemma EnvNameAt(name: string)
    ensures |EnvName(name)| == |EnvPrefix| + |name|
    ensures EnvName(name)[..|EnvPrefix|] == EnvPrefix
    ensures forall i :: 0 <= i < |name| ==>
      EnvName(name)[|EnvPrefix| + i] == (if name[i] == '-' then '_' else UpperChar(name[i]))
  {
    var replaced := Replace(name, '-', '_');
    var upper := Upper(replaced);
    assert forall i :: 0 <= i < |name| ==> upper[i] == UpperChar(replaced[i]);
    assert EnvName(name) == EnvPrefix + upper;
  }

  /** After the prefix, a variable name holds no `-` and no lower-case ASCII
      letter, whatever the input's name. */
  lemma EnvNameShape(name: string)
    ensures forall i :: |EnvPrefix| <= i < |EnvName(name)| ==>
      EnvName(name)[i] != '-' && !('a' <= EnvName(name)[i] <= 'z')
  {
    EnvNameAt(name);
    var e := EnvName(name);
    forall i | |EnvPrefix| <= i < |e|
      ensures e[i] != '-' && !('a' <= e[i] <= 'z')
    {
      var j := i - |EnvPrefix|;
      assert e[|EnvPrefix| + j] == (if name[j] == '-' then '_' else UpperChar(name[j]));
    }
  }

  function MissingVariable(envname: string): string {
    "Missing required environment variable " + envname
  }

  function ParseError(name: string, reason: string): string {
    "couldn't parse input " + name + ": " + reason
  }

  /** Reads input `name` and parses it. A missing variable fails with a
      message naming it, whatever the parser; a parser's rejection fails with
      the input's name and the parser's reason; otherwise the parsed value is
      returned. */
  function Input<T>(env: Environment, name: string, parser: string -> Result<T, string>): (r: Result<T, string>)
    ensures EnvName(name) !in env ==> r == Failure(MissingVariable(EnvName(name)))
    ensures EnvName(name) in env ==> (r.Success? <==> parser(env[EnvName(name)]).Success?)
    ensures r.Success? ==> EnvName(name) in env && r.value == parser(env[EnvName(name)]).value
    ensures EnvName(name) in env && parser(env[EnvName(name)]).Failure? ==>
      r.error == ParseError(name, parser(env[EnvName(name)]).error)
  {
    var envname := EnvName(name);
    if envname !in env then
      Failure(MissingVariable(envname))
    else
      match parser(env[envname])
      case Success(v) => Success(v)
      case Failure(reason) => Failure(ParseError(name, reason))
  }

  /** Python's `str` used as a parser: every text is accepted unchanged. */
  function AsText(raw: string): Result<string, string> {
    Success(raw)
  }

  // ---------------------------------------------------------------------------
  // Booleans

  const TrueWords: set<string> := {"true", "1", "yes"}
  const FalseWords: set<string> := {"false", "0", "no"}

  /** Accepts the words of `TrueWords` and `FalseWords` in any ASCII case. The
      rejection message quotes the lower-cased text. */
  function StrToBool(raw: string): Result<bool, string> {
    var v := Lower(raw);
    if v in TrueWords then Success(true)
    else if v in FalseWords then Success(false)
    else Failure("invalid boolean value: " + v)
  }

  /** The boolean parser, characterised by case-insensitive comparison: it
      yields true exactly for "true", "1" and "yes", false exactly for "false",
      "0" and "no" (in any case), and rejects every other text. */
  lemma StrToBoolSpec(raw: string)
    ensures StrToBool(raw) == Success(true) <==>
      EqualsIgnoreCase(raw, "true") || EqualsIgnoreCase(raw, "1") || EqualsIgnoreCase(raw, "yes")
    ensures StrToBool(raw) == Success(false) <==>
      EqualsIgnoreCase(raw, "false") || EqualsIgnoreCase(raw, "0") || EqualsIgnoreCase(raw, "no")
    ensures StrToBool(raw).Failure? <==>
      forall w :: w in TrueWords + FalseWords ==> !EqualsIgnoreCase(raw, w)
    ensures StrToBool(raw).Failure? ==> StrToBool(raw).error == "invalid boolean value: " + Lower(raw)
  {
    forall w | w in TrueWords + FalseWords
      ensures Lower(raw) == w <==> EqualsIgnoreCase(raw, w)
    {
      LowerIsIgnoreCase(raw, w);
    }
  }

  /** Mixed case is accepted; anything outside the six words is not. */
  lemma StrToBoolExamples()
    ensures StrToBool("TRUE") == Success(true)
    ensures StrToBool("Yes") == Success(true)
    ensures StrToBool("No") == Success(false)
    ensures StrToBool("maybe").Failure?
    ensures StrToBool("").Failure?
  {
    assert Lower("TRUE") == "true";
    assert Lower("Yes") == "yes";
    assert Lower("No") == "no";
    assert Lower("maybe") == "maybe";
  }

  // ---------------------------------------------------------------------------
  // Persona, minimum severity, minimum confidence

  const Personas: set<string> := {"regular", "pedantic", "auditor"}
  const Severities: set<string> := {"unknown", "informational", "low", "medium", "high"}
  const Confidences: set<string> := {"unknown", "low", "medium", "high"}

  /** A persona is accepted unchanged when it is one of the three known ones. */
  function Persona(raw: string): (r: Result<string, string>)
    ensures r.Success? <==> raw in Personas
    ensures r.Success? ==> r.value == raw
    ensures r.Failure? ==> r.error == "invalid persona: " + raw
  {
    if raw !in Personas then Failure("invalid persona: " + raw) else Success(raw)
  }

  /** The empty text means "no minimum"; a known severity is accepted
      unchanged; anything else is rejected. */
  function MinSeverity(raw: string): (r: Result<Option<string>, string>)
    ensures r == Success(None) <==> raw == ""
    ensures r.Success? <==> raw == "" || raw in Severities
    ensures r.Success? && r.value.Some? ==> r.value.value == raw && raw in Severities && raw != ""
    ensures r.Failure? ==> r.error == "invalid minimum severity: " + raw
  {
    if raw == "" then Success(None)
    else if raw !in Severities then Failure("invalid minimum severity: " + raw)
    else Success(Some(raw))
  }

  /** As `MinSeverity`, over the confidence levels. */
  function MinConfidence(raw: string): (r: Result<Option<string>, string>)
    ensures r == Success(None) <==> raw == ""
    ensures r.Success? <==> raw == "" || raw in Confidences
    ensures r.Success? && r.value.Some? ==> r.value.value == raw && raw in Confidences && raw != ""
    ensures r.Failure? ==> r.error == "invalid minimum confidence: " + raw
  {
    if raw == "" then Success(None)
    else if raw !in Confidences then Failure("invalid minimum confidence: " + raw)
    else Success(Some(raw))
  }

  /** The confidence parser accepts a subset of what the severity parser
      accepts, with the same value; "informational" is the one severity it
      rejects. */
  lemma ConfidenceWithinSeverity(raw: string)
    ensures MinConfidence(raw).Success? ==> MinSeverity(raw) == MinConfidence(raw)
    ensures MinSeverity(raw).Success? && raw != "informational" ==> MinConfidence(raw) == MinSeverity(raw)
    ensures MinSeverity("informational") == Success(Some("informational"))
    ensures MinConfidence("informational").Failure?
  {
  }

  // ---------------------------------------------------------------------------
  // The inputs the launcher reads, and their variables

  /** The minimum-severity input, whose name holds a dash, is read from
      GHA_ZIZMOR_MIN_SEVERITY. */
  lemma MinSeverityVariable()
    ensures EnvName("min-severity") == "GHA_ZIZMOR_MIN_SEVERITY"
  {
    assert Replace("min-severity", '-', '_') == "min_severity";
    assert Upper("min_severity") == "MIN_SEVERITY";
  }
}
