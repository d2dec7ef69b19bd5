/**
 * The configuration resolver: a defaults record, two optional configuration
 * files read line by line, then environment overrides, and the derivation of
 * the model-file suffix.
 *
 * A configuration file is given as the sequence of lines fgets returns
 * (None when the file cannot be opened); the environment is a partial map
 * from variable names to values.
 */
module Config {
  import opened Wrappers
  import opened CStrings

  /** NeuronShimConfig. */
  datatype ShimConfig = ShimConfig(
    backend: string,
    suffix: string,
    modelDir: string,
    threads: int,
    forceCpu: bool,
    logLevel: int)

  /** Characters kept by char backend[32], char suffix[32] and char model_dir[512]. */
  const BACKEND_CHARS: nat := 31
  const SUFFIX_CHARS: nat := 31
  const MODEL_DIR_CHARS: nat := 511

  /** The field widths of the "%63[^= ] = %511s" line format. */
  const KEY_WIDTH: nat := 63
  const VALUE_WIDTH: nat := 511

  const Defaults: ShimConfig := ShimConfig("auto", "auto", "", 4, false, 3)

  const BACKEND_VAR := "NEURON_SHIM_BACKEND"
  const SUFFIX_VAR := "NEURON_SHIM_SUFFIX"
  const MODEL_DIR_VAR := "NEURON_SHIM_MODEL_DIR"
  const THREADS_VAR := "NEURON_SHIM_NUM_THREADS"
  const FORCE_CPU_VAR := "NEURON_SHIM_FORCE_CPU"
  const LOG_LEVEL_VAR := "NEURON_SHIM_LOG_LEVEL"

  const KnownKeys: set<string> := {"backend", "suffix", "model_dir", "threads", "force_cpu", "log_level"}

  // ------------------------------------------------------------------
  // One line of a configuration file
  // ------------------------------------------------------------------

  predicate IsIndent(c: char) {
    c == ' ' || c == '\t'
  }

  /** The line after its leading spaces and tabs. */
  function SkipIndent(s: string): (r: string)
    ensures |r| <= |s| && r == s[|s| - |r|..]
    ensures forall i :: 0 <= i < |s| - |r| ==> IsIndent(s[i])
    ensures |r| > 0 ==> !IsIndent(r[0])
  {
    if |s| > 0 && IsIndent(s[0]) then SkipIndent(s[1..]) else s
  }

  /** After the indentation: a comment, the end of the line, or the end of the string. */
  predicate IsBlankOrComment(p: string) {
    |p| == 0 || p[0] == '#' || p[0] == '\n'
  }

  /** A character the conversion %[^= ] accepts. */
  predicate IsKeyChar(c: char) {
    c != '=' && c != ' '
  }

  /** %63[^= ]: the longest prefix of at most n characters other than '=' and ' '. */
  function ScanKey(s: string, n: nat): (r: string)
    ensures r <= s && |r| <= n
    ensures forall i :: 0 <= i < |r| ==> IsKeyChar(r[i])
    ensures |r| < n && |r| < |s| ==> !IsKeyChar(s[|r|])
  {
    if n == 0 || |s| == 0 || !IsKeyChar(s[0]) then "" else [s[0]] + ScanKey(s[1..], n - 1)
  }

  /** %511s after the white space is skipped: the longest prefix of at most n non-space characters. */
  function Token(s: string, n: nat): (r: string)
    ensures r <= s && |r| <= n
    ensures forall i :: 0 <= i < |r| ==> !IsSpace(r[i])
    ensures |r| < n && |r| < |s| ==> IsSpace(s[|r|])
  {
    if n == 0 || |s| == 0 || IsSpace(s[0]) then "" else [s[0]] + Token(s[1..], n - 1)
  }

  /**
   * sscanf(p, "%63[^= ] = %511s", key, value) == 2: a key, optional white
   * space, '=', optional white space, then a non-empty value token.
   */
  function ScanAssignment(p: string): (r: Option<(string, string)>)
    ensures r.Some? ==> 1 <= |r.value.0| <= KEY_WIDTH && r.value.0 <= p
    ensures r.Some? ==> forall i :: 0 <= i < |r.value.0| ==> IsKeyChar(r.value.0[i])
    ensures r.Some? ==> 1 <= |r.value.1| <= VALUE_WIDTH
    ensures r.Some? ==> forall i :: 0 <= i < |r.value.1| ==> !IsSpace(r.value.1[i])
  {
    var key := ScanKey(p, KEY_WIDTH);
    if |key| == 0 then None
    else
      var rest := SkipSpaces(p[|key|..]);
      if |rest| == 0 || rest[0] != '=' then None
      else
        var value := Token(SkipSpaces(rest[1..]), VALUE_WIDTH);
        if |value| == 0 then None else Some((key, value))
  }

  /**
   * The key and value a line of a configuration file sets, if any: a key
   * of 1 to 63 characters that does not start a comment and holds no '='
   * or ' ', and a value of 1 to 511 characters without white space.
   */
  function ParseLine(line: string): (r: Option<(string, string)>)
    ensures r.Some? ==> 1 <= |r.value.0| <= KEY_WIDTH && r.value.0[0] != '#'
    ensures r.Some? ==> forall i :: 0 <= i < |r.value.0| ==> IsKeyChar(r.value.0[i])
    ensures r.Some? ==> 1 <= |r.value.1| <= VALUE_WIDTH
    ensures r.Some? ==> forall i :: 0 <= i < |r.value.1| ==> !IsSpace(r.value.1[i])
  {
    var p := SkipIndent(CStr(line));
    if IsBlankOrComment(p) then None else ScanAssignment(p)
  }

  /** force_cpu in a file is true for the tokens "true" and "1". */
  predicate FileFlag(v: string) {
    v == "true" || v == "1"
  }

  /** NEURON_SHIM_FORCE_CPU is true only for "1". */
  predicate EnvFlag(v: string) {
    v == "1"
  }

  /** The keys the resolver recognises; any other key is ignored. */
  datatype Key = BackendKey | SuffixKey | ModelDirKey | ThreadsKey | ForceCpuKey | LogLevelKey

  function KeyOf(key: string): (r: Option<Key>)
    ensures r.None? <==> key !in KnownKeys
  {
    if key == "backend" then Some(BackendKey)
    else if key == "suffix" then Some(SuffixKey)
    else if key == "model_dir" then Some(ModelDirKey)
    else if key == "threads" then Some(ThreadsKey)
    else if key == "force_cpu" then Some(ForceCpuKey)
    else if key == "log_level" then Some(LogLevelKey)
    else None
  }

  /** The effect of one recognised `key = value` line: the key's field is set from the value, and no other field changes. */
  function ApplySetting(c: ShimConfig, k: Key, value: string): (r: ShimConfig)
    ensures k != BackendKey ==> r.backend == c.backend
    ensures k != SuffixKey ==> r.suffix == c.suffix
    ensures k != ModelDirKey ==> r.modelDir == c.modelDir
    ensures k != ThreadsKey ==> r.threads == c.threads
    ensures k != ForceCpuKey ==> r.forceCpu == c.forceCpu
    ensures k != LogLevelKey ==> r.logLevel == c.logLevel
  {
    match k
    case BackendKey => c.(backend := Truncate(value, BACKEND_CHARS))
    case SuffixKey => c.(suffix := Truncate(value, SUFFIX_CHARS))
    case ModelDirKey => c.(modelDir := Truncate(value, MODEL_DIR_CHARS))
    case ThreadsKey => c.(threads := Atoi(value))
    case ForceCpuKey => c.(forceCpu := FileFlag(value))
    case LogLevelKey => c.(logLevel := Atoi(value))
  }

  /** The value a parsed line gives the key k, if it sets k. */
  function ParsedValue(p: Option<(string, string)>, k: Key): Option<string> {
    match p
    case None => None
    case Some(kv) => if KeyOf(kv.0) == Some(k) then Some(kv.1) else None
  }

  /** The effect of a parsed line: recognised keys set their field, anything else is ignored. */
  function ApplyParsed(c: ShimConfig, p: Option<(string, string)>): ShimConfig {
    match p
    case None => c
    case Some(kv) =>
      match KeyOf(kv.0)
      case None => c
      case Some(k) => ApplySetting(c, k, kv.1)
  }

  function LineValue(line: string, k: Key): Option<string> {
    ParsedValue(ParseLine(line), k)
  }

  function ApplyLine(c: ShimConfig, line: string): ShimConfig {
    ApplyParsed(c, ParseLine(line))
  }

  /** The lines applied in order, the last one last. */
  function ApplyLines(c: ShimConfig, lines: seq<string>): ShimConfig
    decreases |lines|
  {
    if lines == [] then c
    else ApplyLine(ApplyLines(c, lines[..|lines| - 1]), lines[|lines| - 1])
  }

  /** A file that cannot be opened changes nothing. */
  function ApplyFile(c: ShimConfig, file: Option<seq<string>>): ShimConfig {
    match file
    case None => c
    case Some(lines) => ApplyLines(c, lines)
  }

  /**
   * Each variable that is set overrides its field; a variable that is not
   * set leaves its field as it was.
   */
  function ApplyEnv(c: ShimConfig, env: map<string, string>): (r: ShimConfig)
    ensures BACKEND_VAR !in env ==> r.backend == c.backend
    ensures SUFFIX_VAR !in env ==> r.suffix == c.suffix
    ensures MODEL_DIR_VAR !in env ==> r.modelDir == c.modelDir
    ensures THREADS_VAR !in env ==> r.threads == c.threads
    ensures FORCE_CPU_VAR !in env ==> r.forceCpu == c.forceCpu
    ensures LOG_LEVEL_VAR !in env ==> r.logLevel == c.logLevel
    ensures BACKEND_VAR in env ==> |r.backend| <= BACKEND_CHARS
    ensures SUFFIX_VAR in env ==> |r.suffix| <= SUFFIX_CHARS
    ensures MODEL_DIR_VAR in env ==> |r.modelDir| <= MODEL_DIR_CHARS
  {
    ShimConfig(
      if BACKEND_VAR in env then Truncate(env[BACKEND_VAR], BACKEND_CHARS) else c.backend,
      if SUFFIX_VAR in env then Truncate(env[SUFFIX_VAR], SUFFIX_CHARS) else c.suffix,
      if MODEL_DIR_VAR in env then Truncate(env[MODEL_DIR_VAR], MODEL_DIR_CHARS) else c.modelDir,
      if THREADS_VAR in env then Atoi(env[THREADS_VAR]) else c.threads,
      if FORCE_CPU_VAR in env then EnvFlag(env[FORCE_CPU_VAR]) else c.forceCpu,
      if LOG_LEVEL_VAR in env then Atoi(env[LOG_LEVEL_VAR]) else c.logLevel)
  }

  /**
   * The /etc file, then the ./ file, then the environment, over the starting
   * record: a variable that is set decides its field whatever the files say.
   */
  function LoadFrom(c: ShimConfig, etcFile: Option<seq<string>>, cwdFile: Option<seq<string>>,
                    env: map<string, string>): (r: ShimConfig)
    ensures BACKEND_VAR in env ==> r.backend == Truncate(env[BACKEND_VAR], BACKEND_CHARS)
    ensures SUFFIX_VAR in env ==> r.suffix == Truncate(env[SUFFIX_VAR], SUFFIX_CHARS)
    ensures MODEL_DIR_VAR in env ==> r.modelDir == Truncate(env[MODEL_DIR_VAR], MODEL_DIR_CHARS)
    ensures THREADS_VAR in env ==> r.threads == Atoi(env[THREADS_VAR])
    ensures FORCE_CPU_VAR in env ==> r.forceCpu == EnvFlag(env[FORCE_CPU_VAR])
    ensures LOG_LEVEL_VAR in env ==> r.logLevel == Atoi(env[LOG_LEVEL_VAR])
  {
    ApplyEnv(ApplyFile(ApplyFile(c, etcFile), cwdFile), env)
  }

  // ------------------------------------------------------------------
  // The suffix
  // ------------------------------------------------------------------

  /**
   * neuron_shim_config_get_suffix: an explicit suffix is kept; "auto" is
   * derived from the configured backend string.
   */
  function GetSuffix(cfg: ShimConfig): (r: string)
    ensures r != "auto"
    ensures cfg.suffix != "auto" ==> r == cfg.suffix
    ensures cfg.suffix == "auto" ==> (r == ".tflite" || r == ".onnx") && (r == ".tflite" <==> cfg.backend == "tflite")
  {
    if cfg.suffix != "auto" then cfg.suffix
    else if cfg.backend == "tflite" then ".tflite"
    else ".onnx"
  }

  /** Writing the derived suffix back into the record derives the same suffix again. */
  lemma GetSuffixIsStable(cfg: ShimConfig)
    ensures GetSuffix(cfg.(suffix := GetSuffix(cfg))) == GetSuffix(cfg)
  {
  }

  // ------------------------------------------------------------------
  // Properties of the line parser
  // ------------------------------------------------------------------

  /** A comment or blank line leaves the record unchanged. */
  lemma SkippedLineChangesNothing(c: ShimConfig, line: string)
    requires IsBlankOrComment(SkipIndent(CStr(line)))
    ensures ParseLine(line) == None && ApplyLine(c, line) == c
  {
  }

  /** A key the resolver does not know leaves the record unchanged. */
  lemma UnknownKeyChangesNothing(c: ShimConfig, line: string, key: string, value: string)
    requires ParseLine(line) == Some((key, value)) && key !in KnownKeys
    ensures ApplyLine(c, line) == c
  {
  }

  /** What a well-formed key looks like in a file. */
  predicate ValidKey(key: string) {
    && 1 <= |key| <= KEY_WIDTH
    && key[0] != '#'
    && forall i :: 0 <= i < |key| ==> IsKeyChar(key[i]) && !IsSpace(key[i]) && key[i] != '\0'
  }

  /** What a well-formed value looks like in a file. */
  predicate ValidValue(value: string) {
    && 1 <= |value| <= VALUE_WIDTH
    && forall i :: 0 <= i < |value| ==> !IsSpace(value[i]) && value[i] != '\0'
  }

  /** The canonical rendering of a setting as a line, indented by `indent`. */
  function FormatLine(indent: string, key: string, value: string): string {
    indent + (key + (" = " + (value + "\n")))
  }

  lemma {:induction false} CStrOfPlain(s: string)
    requires '\0' !in s
    ensures CStr(s) == s
  {
    if |s| > 0 {
      assert '\0' !in s[1..];
      CStrOfPlain(s[1..]);
    }
  }

  lemma {:induction false} SkipIndentPrefix(indent: string, t: string)
    requires forall i :: 0 <= i < |indent| ==> IsIndent(indent[i])
    requires |t| > 0 && !IsIndent(t[0])
    ensures SkipIndent(indent + t) == t
  {
    if |indent| > 0 {
      assert (indent + t)[1..] == indent[1..] + t;
      SkipIndentPrefix(indent[1..], t);
    }
  }

  lemma {:induction false} ScanKeyPrefix(key: string, rest: string, n: nat)
    requires |key| <= n
    requires forall i :: 0 <= i < |key| ==> IsKeyChar(key[i])
    requires |key| < n ==> |rest| > 0 && !IsKeyChar(rest[0])
    ensures ScanKey(key + rest, n) == key
  {
    if |key| > 0 {
      assert (key + rest)[1..] == key[1..] + rest;
      ScanKeyPrefix(key[1..], rest, n - 1);
    }
  }

  lemma {:induction false} TokenPrefix(value: string, rest: string, n: nat)
    requires |value| <= n
    requires forall i :: 0 <= i < |value| ==> !IsSpace(value[i])
    requires |value| < n ==> |rest| > 0 && IsSpace(rest[0])
    ensures Token(value + rest, n) == value
  {
    if |value| > 0 {
      assert (value + rest)[1..] == value[1..] + rest;
      TokenPrefix(value[1..], rest, n - 1);
    }
  }

  lemma {:induction false} SkipSpacesPrefix(spaces: string, t: string)
    requires forall i :: 0 <= i < |spaces| ==> IsSpace(spaces[i])
    requires |t| > 0 && !IsSpace(t[0])
    ensures SkipSpaces(spaces + t) == t
  {
    if |spaces| > 0 {
      assert (spaces + t)[1..] == spaces[1..] + t;
      SkipSpacesPrefix(spaces[1..], t);
    }
  }

  lemma ScanAssignmentOf(p: string, key: string, rest: string, value: string)
    requires |key| > 0 && ScanKey(p, KEY_WIDTH) == key
    requires SkipSpaces(p[|key|..]) == rest && |rest| > 0 && rest[0] == '='
    requires |value| > 0 && Token(SkipSpaces(rest[1..]), VALUE_WIDTH) == value
    ensures ScanAssignment(p) == Some((key, value))
  {
  }

  lemma ScanKeyOfValid(key: string, rest: string)
    requires ValidKey(key) && |rest| > 0 && rest[0] == ' '
    ensures ScanKey(key + rest, KEY_WIDTH) == key && (key + rest)[|key|..] == rest
  {
    ScanKeyPrefix(key, rest, KEY_WIDTH);
  }

  lemma SkipBeforeEquals(tail: string)
    ensures SkipSpaces(" = " + tail) == "= " + tail
  {
    var s := " = " + tail;
    var eq := "= " + tail;
    assert s[0] == ' ' && s[1..] == eq;
    SkipSpacesStep(s);
    assert eq[0] == '=';
    SkipSpacesStop(eq);
  }

  lemma SkipAfterEquals(tail: string)
    requires |tail| > 0 && !IsSpace(tail[0])
    ensures SkipSpaces(("= " + tail)[1..]) == tail
  {
    var spaced := " " + tail;
    assert ("= " + tail)[1..] == spaced;
    assert spaced[0] == ' ' && spaced[1..] == tail;
    SkipSpacesStep(spaced);
    SkipSpacesStop(tail);
  }

  lemma TokenOfValid(value: string)
    requires ValidValue(value)
    ensures Token(value + "\n", VALUE_WIDTH) == value
  {
    TokenPrefix(value, "\n", VALUE_WIDTH);
  }

  /** The scan of `key = value` followed by a line end yields the key and the value. */
  lemma ScanFormatted(key: string, value: string)
    requires ValidKey(key) && ValidValue(value)
    ensures ScanAssignment(key + (" = " + (value + "\n"))) == Some((key, value))
  {
    var tail := value + "\n";
    ScanKeyOfValid(key, " = " + tail);
    SkipBeforeEquals(tail);
    SkipAfterEquals(tail);
    TokenOfValid(value);
    ScanAssignmentOf(key + (" = " + tail), key, "= " + tail, value);
  }

  lemma FormattedHasNoNul(indent: string, key: string, value: string)
    requires forall i :: 0 <= i < |indent| ==> IsIndent(indent[i])
    requires ValidKey(key) && ValidValue(value)
    ensures '\0' !in FormatLine(indent, key, value)
  {
    assert '\0' !in indent;
    assert '\0' !in key;
    assert '\0' !in value;
  }

  lemma ParseLineOf(line: string, p: string)
    requires SkipIndent(CStr(line)) == p && !IsBlankOrComment(p)
    ensures ParseLine(line) == ScanAssignment(p)
  {
  }

  /** Parsing an indented `key = value` line gives back that key and value. */
  lemma ParseFormattedLine(indent: string, key: string, value: string)
    requires forall i :: 0 <= i < |indent| ==> IsIndent(indent[i])
    requires ValidKey(key) && ValidValue(value)
    ensures ParseLine(FormatLine(indent, key, value)) == Some((key, value))
  {
    var body := key + (" = " + (value + "\n"));
    var line := FormatLine(indent, key, value);
    FormattedHasNoNul(indent, key, value);
    CStrOfPlain(line);
    assert body[0] == key[0];
    SkipIndentPrefix(indent, body);
    ParseLineOf(line, body);
    ScanFormatted(key, value);
  }

  // ------------------------------------------------------------------
  // Precedence
  // ------------------------------------------------------------------

  /** The value the last line setting k in the lines gives it, if any line does. */
  function LastValue(lines: seq<string>, k: Key): Option<string>
    decreases |lines|
  {
    if lines == [] then None
    else if LineValue(lines[|lines| - 1], k).Some? then LineValue(lines[|lines| - 1], k)
    else LastValue(lines[..|lines| - 1], k)
  }

  function FileValue(file: Option<seq<string>>, k: Key): Option<string> {
    match file
    case None => None
    case Some(lines) => LastValue(lines, k)
  }

  /** A text setting: replaced, truncated, when the key was set. */
  function TextOr(v: Option<string>, width: nat, otherwise: string): string {
    if v.Some? then Truncate(v.value, width) else otherwise
  }

  function NumberOr(v: Option<string>, otherwise: int): int {
    if v.Some? then Atoi(v.value) else otherwise
  }

  function FlagOr(v: Option<string>, otherwise: bool): bool {
    if v.Some? then FileFlag(v.value) else otherwise
  }

  /** The record r is c with each field replaced as the value source `values` says. */
  predicate SetByKey(r: ShimConfig, c: ShimConfig, values: Key -> Option<string>) {
    && r.backend == TextOr(values(BackendKey), BACKEND_CHARS, c.backend)
    && r.suffix == TextOr(values(SuffixKey), SUFFIX_CHARS, c.suffix)
    && r.modelDir == TextOr(values(ModelDirKey), MODEL_DIR_CHARS, c.modelDir)
    && r.threads == NumberOr(values(ThreadsKey), c.threads)
    && r.forceCpu == FlagOr(values(ForceCpuKey), c.forceCpu)
    && r.logLevel == NumberOr(values(LogLevelKey), c.logLevel)
  }

  /** One parsed line sets the field of the key it names, and no other. */
  lemma ApplyParsedByKey(c: ShimConfig, p: Option<(string, string)>)
    ensures SetByKey(ApplyParsed(c, p), c, k => ParsedValue(p, k))
  {
  }

  /** Two layers of settings: the outer one wins key by key. */
  lemma SetByKeyLayered(c: ShimConfig, mid: ShimConfig, r: ShimConfig,
                        inner: Key -> Option<string>, outer: Key -> Option<string>, both: Key -> Option<string>)
    requires SetByKey(mid, c, inner) && SetByKey(r, mid, outer)
    requires forall k :: both(k) == (if outer(k).Some? then outer(k) else inner(k))
    ensures SetByKey(r, c, both)
  {
    assert both(BackendKey) == (if outer(BackendKey).Some? then outer(BackendKey) else inner(BackendKey));
    assert both(SuffixKey) == (if outer(SuffixKey).Some? then outer(SuffixKey) else inner(SuffixKey));
    assert both(ModelDirKey) == (if outer(ModelDirKey).Some? then outer(ModelDirKey) else inner(ModelDirKey));
    assert both(ThreadsKey) == (if outer(ThreadsKey).Some? then outer(ThreadsKey) else inner(ThreadsKey));
    assert both(ForceCpuKey) == (if outer(ForceCpuKey).Some? then outer(ForceCpuKey) else inner(ForceCpuKey));
    assert both(LogLevelKey) == (if outer(LogLevelKey).Some? then outer(LogLevelKey) else inner(LogLevelKey));
  }

  /** Each field after the lines is set by the last line for its key, or kept. */
  lemma {:induction false} ApplyLinesByKey(c: ShimConfig, lines: seq<string>)
    ensures SetByKey(ApplyLines(c, lines), c, k => LastValue(lines, k))
    decreases |lines|
  {
    if lines != [] {
      var init := lines[..|lines| - 1];
      var p := ParseLine(lines[|lines| - 1]);
      ApplyLinesByKey(c, init);
      ApplyParsedByKey(ApplyLines(c, init), p);
      SetByKeyLayered(c, ApplyLines(c, init), ApplyLines(c, lines),
                      k => LastValue(init, k), k => ParsedValue(p, k), k => LastValue(lines, k));
    }
  }

  /** The value the two files give a key: the ./ file wins over the /etc file. */
  function FilesValue(etcFile: Option<seq<string>>, cwdFile: Option<seq<string>>, k: Key): Option<string> {
    if FileValue(cwdFile, k).Some? then FileValue(cwdFile, k) else FileValue(etcFile, k)
  }

  lemma FileByKey(c: ShimConfig, file: Option<seq<string>>)
    ensures SetByKey(ApplyFile(c, file), c, k => FileValue(file, k))
  {
    if file.Some? {
      ApplyLinesByKey(c, file.value);
    }
  }

  /** After both files each field holds the ./ file's value, else the /etc file's, else its own. */
  lemma FilesByKey(c: ShimConfig, etcFile: Option<seq<string>>, cwdFile: Option<seq<string>>)
    ensures SetByKey(ApplyFile(ApplyFile(c, etcFile), cwdFile), c, k => FilesValue(etcFile, cwdFile, k))
  {
    FileByKey(c, etcFile);
    FileByKey(ApplyFile(c, etcFile), cwdFile);
    SetByKeyLayered(c, ApplyFile(c, etcFile), ApplyFile(ApplyFile(c, etcFile), cwdFile),
                    k => FileValue(etcFile, k), k => FileValue(cwdFile, k), k => FilesValue(etcFile, cwdFile, k));
  }

  /**
   * The precedence of the sources, field by field: the environment, else the
   * ./ file, else the /etc file, else the starting record.
   */
  lemma LoadPrecedence(c: ShimConfig, etcFile: Option<seq<string>>, cwdFile: Option<seq<string>>,
                       env: map<string, string>)
    ensures var r := LoadFrom(c, etcFile, cwdFile, env);
      && r.backend == (if BACKEND_VAR in env then Truncate(env[BACKEND_VAR], BACKEND_CHARS)
                       else TextOr(FilesValue(etcFile, cwdFile, BackendKey), BACKEND_CHARS, c.backend))
      && r.suffix == (if SUFFIX_VAR in env then Truncate(env[SUFFIX_VAR], SUFFIX_CHARS)
                      else TextOr(FilesValue(etcFile, cwdFile, SuffixKey), SUFFIX_CHARS, c.suffix))
      && r.modelDir == (if MODEL_DIR_VAR in env then Truncate(env[MODEL_DIR_VAR], MODEL_DIR_CHARS)
                        else TextOr(FilesValue(etcFile, cwdFile, ModelDirKey), MODEL_DIR_CHARS, c.modelDir))
      && r.threads == (if THREADS_VAR in env then Atoi(env[THREADS_VAR])
                       else NumberOr(FilesValue(etcFile, cwdFile, ThreadsKey), c.threads))
      && r.forceCpu == (if FORCE_CPU_VAR in env then EnvFlag(env[FORCE_CPU_VAR])
                        else FlagOr(FilesValue(etcFile, cwdFile, ForceCpuKey), c.forceCpu))
      && r.logLevel == (if LOG_LEVEL_VAR in env then Atoi(env[LOG_LEVEL_VAR])
                        else NumberOr(FilesValue(etcFile, cwdFile, LogLevelKey), c.logLevel))
  {
    FilesByKey(c, etcFile, cwdFile);
  }

  /** With no file and no variable, the resolver yields the defaults. */
  lemma NoSourcesGiveDefaults()
    ensures LoadFrom(Defaults, None, None, map[]) == Defaults
  {
  }

  // ------------------------------------------------------------------
  // The static record the loader updates in place
  // ------------------------------------------------------------------

  /** The static g_config record, updated field by field. */
  class ConfigStore {
    var backend: string
    var suffix: string
    var modelDir: string
    var threads: int
    var forceCpu: bool
    var logLevel: int

    function Snapshot(): ShimConfig
      reads this
    {
      ShimConfig(backend, suffix, modelDir, threads, forceCpu, logLevel)
    }

    /** The static initialiser. */
    constructor ()
      ensures Snapshot() == Defaults
    {
      backend := "auto";
      suffix := "auto";
      modelDir := "";
      threads := 4;
      forceCpu := false;
      logLevel := 3;
    }

    /** One recognised setting stored into its field. */
    method Set(k: Key, value: string)
      modifies this
      ensures Snapshot() == ApplySetting(old(Snapshot()), k, value)
    {
      match k
      case BackendKey => backend := Truncate(value, BACKEND_CHARS);
      case SuffixKey => suffix := Truncate(value, SUFFIX_CHARS);
      case ModelDirKey => modelDir := Truncate(value, MODEL_DIR_CHARS);
      case ThreadsKey => threads := Atoi(value);
      case ForceCpuKey => forceCpu := FileFlag(value);
      case LogLevelKey => logLevel := Atoi(value);
    }

    /** parse_config_file: every line of an opened file, in order. */
    method ParseConfigFile(file: Option<seq<string>>)
      modifies this
      ensures Snapshot() == ApplyFile(old(Snapshot()), file)
    {
      if file.None? {
        return;
      }
      var lines := file.value;
      var i := 0;
      while i < |lines|
        invariant 0 <= i <= |lines|
        invariant Snapshot() == ApplyLines(old(Snapshot()), lines[..i])
      {
        StoreLine(lines[i]);
        assert lines[..i + 1][..i] == lines[..i];
        i := i + 1;
      }
      assert lines[..|lines|] == lines;
    }

    /** One turn of parse_config_file's loop: skip, scan, then store a recognised key. */
    method StoreLine(line: string)
      modifies this
      ensures Snapshot() == ApplyLine(old(Snapshot()), line)
    {
      var p := SkipIndent(CStr(line));
      if IsBlankOrComment(p) {
        return;
      }
      var parsed := ScanAssignment(p);
      if parsed.None? {
        return;
      }
      var key := KeyOf(parsed.value.0);
      if key.Some? {
        Set(key.value, parsed.value.1);
      }
    }

    /** The environment overrides, one variable at a time. */
    method OverrideFromEnv(env: map<string, string>)
      modifies this
      ensures Snapshot() == ApplyEnv(old(Snapshot()), env)
    {
      if BACKEND_VAR in env {
        backend := Truncate(env[BACKEND_VAR], BACKEND_CHARS);
      }
      if SUFFIX_VAR in env {
        suffix := Truncate(env[SUFFIX_VAR], SUFFIX_CHARS);
      }
      if MODEL_DIR_VAR in env {
        modelDir := Truncate(env[MODEL_DIR_VAR], MODEL_DIR_CHARS);
      }
      assert backend == ApplyEnv(old(Snapshot()), env).backend;
      assert suffix == ApplyEnv(old(Snapshot()), env).suffix;
      assert modelDir == ApplyEnv(old(Snapshot()), env).modelDir;
      if THREADS_VAR in env {
        threads := Atoi(env[THREADS_VAR]);
      }
      if FORCE_CPU_VAR in env {
        forceCpu := EnvFlag(env[FORCE_CPU_VAR]);
      }
      if LOG_LEVEL_VAR in env {
        logLevel := Atoi(env[LOG_LEVEL_VAR]);
      }
      assert threads == ApplyEnv(old(Snapshot()), env).threads;
      assert forceCpu == ApplyEnv(old(Snapshot()), env).forceCpu;
      assert logLevel == ApplyEnv(old(Snapshot()), env).logLevel;
    }

    /** neuron_shim_config_load: both files, then the environment; returns the record. */
    method Load(etcFile: Option<seq<string>>, cwdFile: Option<seq<string>>, env: map<string, string>)
      returns (cfg: ShimConfig)
      modifies this
      ensures Snapshot() == LoadFrom(old(Snapshot()), etcFile, cwdFile, env)
      ensures cfg == Snapshot()
    {
      ParseConfigFile(etcFile);
      ParseConfigFile(cwdFile);
      ghost var files := Snapshot();
      OverrideFromEnv(env);
      assert Snapshot() == ApplyEnv(files, env);
      cfg := Snapshot();
    }
  }
}
