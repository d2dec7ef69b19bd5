/**
 * The model path resolver: the candidate path for a requested model file
 * (the suffix appended in place, or the file name redirected into a model
 * directory), the bound on the caller's buffer, and the readability check.
 *
 * Strings stand for C strings without their terminator: the resolver only
 * measures, copies and concatenates them, so nothing here depends on a
 * string holding no NUL. The file system is the set of paths that can be
 * opened for reading.
 */
module ModelResolver {
  import opened Wrappers
  import opened CStrings

  /** Characters of the request kept by the char tmp[1024] copy before basename. */
  const TMP_CHARS: nat := 1023

  // ------------------------------------------------------------------
  // POSIX basename
  // ------------------------------------------------------------------

  predicate EndsWithSlash(s: string) {
    |s| > 0 && s[|s| - 1] == '/'
  }

  /** The path without its trailing slashes. */
  function StripTrailingSlashes(s: string): (r: string)
    ensures r <= s && !EndsWithSlash(r)
    ensures forall i :: |r| <= i < |s| ==> s[i] == '/'
  {
    if EndsWithSlash(s) then StripTrailingSlashes(s[..|s| - 1]) else s
  }

  /** The characters after the last slash (all of s when it has none). */
  function AfterLastSlash(s: string): (r: string)
    ensures |r| <= |s| && r == s[|s| - |r|..]
    ensures '/' !in r
    ensures |r| < |s| ==> s[|s| - |r| - 1] == '/'
  {
    if |s| == 0 || s[|s| - 1] == '/' then "" else AfterLastSlash(s[..|s| - 1]) + [s[|s| - 1]]
  }

  /**
   * basename() of IEEE Std 1003.1: "." for the empty path, "/" for a path of
   * slashes only, otherwise the last component, trailing slashes ignored.
   */
  function Basename(path: string): (r: string)
    ensures |r| > 0
    ensures r == "/" || '/' !in r
  {
    if |path| == 0 then "."
    else
      var stripped := StripTrailingSlashes(path);
      if |stripped| == 0 then "/" else AfterLastSlash(stripped)
  }

  lemma {:induction false} AfterLastSlashOf(prefix: string, name: string)
    requires |prefix| == 0 || EndsWithSlash(prefix)
    requires '/' !in name
    ensures AfterLastSlash(prefix + name) == name
    decreases |name|
  {
    var s := prefix + name;
    if |name| == 0 {
      assert s == prefix;
    } else {
      var init := name[..|name| - 1];
      var last := name[|name| - 1];
      assert s[|s| - 1] == last && last != '/';
      assert s[..|s| - 1] == prefix + init;
      AfterLastSlashOf(prefix, init);
      assert AfterLastSlash(s) == AfterLastSlash(prefix + init) + [last];
      assert init + [last] == name;
    }
  }

  lemma {:induction false} StripSlashesOf(path: string, slashes: string)
    requires forall i :: 0 <= i < |slashes| ==> slashes[i] == '/'
    ensures StripTrailingSlashes(path + slashes) == StripTrailingSlashes(path)
    decreases |slashes|
  {
    if |slashes| == 0 {
      assert path + slashes == path;
    } else {
      assert (path + slashes)[..|path + slashes| - 1] == path + slashes[..|slashes| - 1];
      StripSlashesOf(path, slashes[..|slashes| - 1]);
    }
  }

  /**
   * The file name is the last component: any directory before it and any
   * slashes after it are ignored.
   */
  lemma BasenameOfComponent(dir: string, name: string, slashes: string)
    requires |dir| == 0 || EndsWithSlash(dir)
    requires |name| > 0 && '/' !in name
    requires forall i :: 0 <= i < |slashes| ==> slashes[i] == '/'
    ensures Basename(dir + name + slashes) == name
  {
    StripSlashesOf(dir + name, slashes);
    assert !EndsWithSlash(dir + name) by {
      assert (dir + name)[|dir + name| - 1] == name[|name| - 1];
    }
    AfterLastSlashOf(dir, name);
  }

  // ------------------------------------------------------------------
  // The candidate path
  // ------------------------------------------------------------------

  /** The model directory, when it redirects: set and not empty. */
  predicate Redirects(modelDir: Option<string>) {
    modelDir.Some? && |modelDir.value| > 0
  }

  /** The separator between the model directory and the file name. */
  function Separator(dir: string): string {
    if EndsWithSlash(dir) then "" else "/"
  }

  /**
   * The path the resolver probes for the requested model; whichever way it
   * is formed, it ends with the suffix.
   */
  function Candidate(original: string, suffix: string, modelDir: Option<string>): (r: string)
    ensures |suffix| <= |r| && r[|r| - |suffix|..] == suffix
  {
    if Redirects(modelDir) then
      modelDir.value + Separator(modelDir.value) + Basename(Truncate(original, TMP_CHARS)) + suffix
    else
      original + suffix
  }

  /** Without a redirect the suffix is appended in place. */
  lemma CandidateInPlace(original: string, suffix: string, modelDir: Option<string>)
    requires !Redirects(modelDir)
    ensures Candidate(original, suffix, modelDir) == original + suffix
    ensures |Candidate(original, suffix, modelDir)| == |original| + |suffix|
  {
  }

  /**
   * With a redirect the candidate is the directory, exactly one slash at the
   * junction, then the request's file name and the suffix.
   */
  lemma CandidateRedirected(dir: string, original: string, suffix: string)
    requires |dir| > 0 && |original| <= TMP_CHARS
    ensures var c := Candidate(original, suffix, Some(dir));
      var k := if EndsWithSlash(dir) then |dir| else |dir| + 1;
      && k <= |c|
      && c[..k] == (if EndsWithSlash(dir) then dir else dir + "/")
      && c[k..] == Basename(original) + suffix
      && (Basename(original) != "/" ==> c[k] != '/')
  {
    var c := Candidate(original, suffix, Some(dir));
    var b := Basename(original);
    assert Truncate(original, TMP_CHARS) == original;
    if EndsWithSlash(dir) {
      assert c == dir + (b + suffix);
    } else {
      assert c == (dir + "/") + (b + suffix);
    }
    assert b != "/" ==> b[0] != '/';
  }

  // ------------------------------------------------------------------
  // Resolution
  // ------------------------------------------------------------------

  /** The facts the not-found diagnostic reports. */
  datatype Diagnostic = Diagnostic(requested: string, probed: string, modelDir: Option<string>, suffix: string)

  datatype Resolution =
    | Resolved(path: string)
    | InvalidArgument
    | TooLong
    | NotFound(diagnostic: Diagnostic)
  {
    /** The C return value: 0 on success, -1 on every failure. */
    function Code(): int {
      if Resolved? then 0 else -1
    }
  }

  /**
   * neuron_shim_resolve_model: `original` and `suffix` are None for NULL,
   * `hasBuffer` says whether the output buffer is non-NULL and `capacity` is
   * its size; `readable` is the set of paths access(R_OK) accepts.
   */
  function Resolve(original: Option<string>, suffix: Option<string>, modelDir: Option<string>,
                   hasBuffer: bool, capacity: nat, readable: set<string>): (r: Resolution)
    ensures r.InvalidArgument? <==> original.None? || suffix.None? || !hasBuffer
    ensures !r.InvalidArgument? ==>
      var c := Candidate(original.value, suffix.value, modelDir);
      && (r.TooLong? <==> |c| >= capacity)
      && (r.Resolved? <==> |c| < capacity && c in readable)
      && (r.Resolved? ==> r.path == c)
      && (r.NotFound? ==> r.diagnostic.requested == original.value && r.diagnostic.probed == c
                          && r.diagnostic.suffix == suffix.value
                          && (r.diagnostic.modelDir.Some? <==> Redirects(modelDir)))
    ensures r.Code() == 0 <==> r.Resolved?
  {
    if original.None? || suffix.None? || !hasBuffer then InvalidArgument
    else
      var candidate := Candidate(original.value, suffix.value, modelDir);
      if |candidate| >= capacity then TooLong
      else if candidate !in readable then
        NotFound(Diagnostic(original.value, candidate, if Redirects(modelDir) then modelDir else None, suffix.value))
      else Resolved(candidate)
  }

  /** A resolved path always fits the buffer with its terminator. */
  lemma ResolvedFits(original: Option<string>, suffix: Option<string>, modelDir: Option<string>,
                     hasBuffer: bool, capacity: nat, readable: set<string>)
    ensures var r := Resolve(original, suffix, modelDir, hasBuffer, capacity, readable);
      r.Resolved? ==> |r.path| + 1 <= capacity && r.path in readable
  {
  }

  /** The in-place example: "/models/m.dla" with ".onnx" and no model directory. */
  lemma InPlaceExample(readable: set<string>)
    requires "/models/m.dla.onnx" in readable
    ensures Resolve(Some("/models/m.dla"), Some(".onnx"), Some(""), true, 1024, readable)
            == Resolved("/models/m.dla.onnx")
  {
    assert Candidate("/models/m.dla", ".onnx", Some("")) == "/models/m.dla.onnx";
  }

  /** The file name of the redirect example's request. */
  lemma RedirectExampleName()
    ensures Basename(Truncate("/usr/share/m.dla", TMP_CHARS)) == "m.dla"
  {
    assert Truncate("/usr/share/m.dla", TMP_CHARS) == "/usr/share/" + "m.dla" + "";
    BasenameOfComponent("/usr/share/", "m.dla", "");
  }

  /** The redirect example: "/usr/share/m.dla" into "/opt/models" with ".tflite". */
  lemma RedirectExample(readable: set<string>)
    requires "/opt/models/m.dla.tflite" in readable
    ensures Resolve(Some("/usr/share/m.dla"), Some(".tflite"), Some("/opt/models"), true, 1024, readable)
            == Resolved("/opt/models/m.dla.tflite")
  {
    RedirectExampleName();
    assert Separator("/opt/models") == "/";
    assert "/opt/models" + "/" + "m.dla" + ".tflite" == "/opt/models/m.dla.tflite";
    assert Candidate("/usr/share/m.dla", ".tflite", Some("/opt/models")) == "/opt/models/m.dla.tflite";
  }
}
