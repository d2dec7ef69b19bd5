/**
 * The backend selector: an explicit name that is compiled in, otherwise
 * an ONNX Runtime probe, then a TensorFlow Lite probe, then the stub.
 *
 * What the build compiled in and what the dynamic loader can open are
 * parameters; the probe's trace records each library opened and released.
 */
module BackendSelector {
  import opened Wrappers
  import opened Backend

  const ONNX_LIBRARY := "libonnxruntime.so"
  const TFLITE_LIBRARY := "libtensorflowlite_c.so"

  /** The build (SHIM_HAS_ONNX, SHIM_HAS_TFLITE) and what dlopen can open. */
  datatype Machine = Machine(hasOnnx: bool, hasTflite: bool, onnxLoads: bool, tfliteLoads: bool)

  /**
   * One step of the probes' trace: a dlopen of a library (the RTLD_NOLOAD
   * attempt and the plain one together) and whether a handle came back, or
   * the dlclose of that handle.
   */
  datatype Event = Dlopen(library: string, handle: bool) | Dlclose(library: string)

  /** The probe of one library: dlopen, then dlclose once a handle came back. */
  function Probe(library: string, loads: bool): (t: seq<Event>)
    ensures 1 <= |t| <= 2 && t[0] == Dlopen(library, loads)
  {
    [Dlopen(library, loads)] + (if loads then [Dlclose(library)] else [])
  }

  datatype Selection = Selection(backend: BackendKind, trace: seq<Event>)

  predicate Compiled(m: Machine, b: BackendKind) {
    match b
    case Onnx => m.hasOnnx
    case TfLite => m.hasTflite
    case Stub => true
  }

  predicate Loads(m: Machine, b: BackendKind) {
    match b
    case Onnx => m.onnxLoads
    case TfLite => m.tfliteLoads
    case Stub => true
  }

  /**
   * The auto-detection after any explicit name failed to match: an engine
   * is chosen only when it is compiled in and its library opens, and the
   * stub only when neither engine is usable.
   */
  function AutoDetect(m: Machine): (r: Selection)
    ensures r.backend != Stub ==> Compiled(m, r.backend) && Loads(m, r.backend)
    ensures r.backend == Stub <==> !(m.hasOnnx && m.onnxLoads) && !(m.hasTflite && m.tfliteLoads)
  {
    var onnxProbe := if m.hasOnnx then Probe(ONNX_LIBRARY, m.onnxLoads) else [];
    if m.hasOnnx && m.onnxLoads then Selection(Onnx, onnxProbe)
    else
      var tfliteProbe := if m.hasTflite then Probe(TFLITE_LIBRARY, m.tfliteLoads) else [];
      if m.hasTflite && m.tfliteLoads then Selection(TfLite, onnxProbe + tfliteProbe)
      else Selection(Stub, onnxProbe + tfliteProbe)
  }

  /**
   * neuron_shim_select_backend: `name` is None for NULL. The backend is
   * always one the build compiled in, and one chosen after probing had its
   * library open.
   */
  function Select(name: Option<string>, m: Machine): (r: Selection)
    ensures Compiled(m, r.backend)
    ensures r.trace != [] ==> Loads(m, r.backend)
  {
    if name.Some? && m.hasOnnx && name.value == "onnx" then Selection(Onnx, [])
    else if name.Some? && m.hasTflite && name.value == "tflite" then Selection(TfLite, [])
    else if name.Some? && name.value == "stub" then Selection(Stub, [])
    else AutoDetect(m)
  }

  /** The first backend of the list that is compiled in and loads; the stub when none does. */
  function FirstUsable(order: seq<BackendKind>, m: Machine): BackendKind {
    if |order| == 0 then Stub
    else if Compiled(m, order[0]) && Loads(m, order[0]) then order[0]
    else FirstUsable(order[1..], m)
  }

  /** An explicit "stub" always gives the stub, whatever the machine. */
  lemma ExplicitStub(m: Machine)
    ensures Select(Some("stub"), m) == Selection(Stub, [])
  {
  }

  /** An explicit compiled-in name gives that backend without probing. */
  lemma ExplicitCompiled(b: BackendKind, m: Machine)
    requires Compiled(m, b)
    ensures Select(Some(b.Name()), m) == Selection(b, [])
  {
  }

  /** Any name that is not a compiled-in backend (NULL included) falls through to auto-detection. */
  lemma OtherNamesAutoDetect(name: Option<string>, m: Machine)
    requires forall b: BackendKind :: name == Some(b.Name()) ==> !Compiled(m, b)
    ensures Select(name, m) == AutoDetect(m)
  {
    if name.Some? {
      assert name != Some(Stub.Name());
      assert m.hasOnnx ==> name != Some(Onnx.Name());
      assert m.hasTflite ==> name != Some(TfLite.Name());
    }
  }

  /** Auto-detection picks the first of ONNX, TFLite that is compiled in and loads, else the stub. */
  lemma AutoDetectOrder(m: Machine)
    ensures AutoDetect(m).backend == FirstUsable([Onnx, TfLite], m)
  {
    assert FirstUsable([], m) == Stub;
    assert [TfLite][1..] == [];
    assert FirstUsable([TfLite], m) == if m.hasTflite && m.tfliteLoads then TfLite else Stub;
    assert [Onnx, TfLite][1..] == [TfLite];
  }

  /** Every handle the trace opens is closed at the next step, and every close is of the handle just opened. */
  predicate HandlesReleased(t: seq<Event>) {
    && (forall i :: 0 <= i < |t| && t[i].Dlopen? && t[i].handle ==> i + 1 < |t| && t[i + 1] == Dlclose(t[i].library))
    && (forall i :: 0 <= i < |t| && t[i].Dlclose? ==> 0 < i && t[i - 1] == Dlopen(t[i].library, true))
  }

  lemma ProbeReleases(library: string, loads: bool)
    ensures HandlesReleased(Probe(library, loads))
  {
  }

  /** Two traces that each release their handles release them one after the other. */
  lemma ReleasedAppend(a: seq<Event>, b: seq<Event>)
    requires HandlesReleased(a) && HandlesReleased(b)
    ensures HandlesReleased(a + b)
  {
    var t := a + b;
    forall i | 0 <= i < |t| && t[i].Dlopen? && t[i].handle
      ensures i + 1 < |t| && t[i + 1] == Dlclose(t[i].library)
    {
      if i < |a| {
        assert t[i] == a[i] && t[i + 1] == a[i + 1];
      } else {
        assert t[i] == b[i - |a|] && t[i + 1] == b[i - |a| + 1];
      }
    }
    forall i | 0 <= i < |t| && t[i].Dlclose?
      ensures 0 < i && t[i - 1] == Dlopen(t[i].library, true)
    {
      if i < |a| {
        assert t[i] == a[i] && t[i - 1] == a[i - 1];
      } else {
        assert t[i] == b[i - |a|];
        assert 0 < i - |a|;
        assert t[i - 1] == b[i - |a| - 1];
      }
    }
  }

  /** Every library handle the probes open is closed again before selection returns; at most two libraries are probed. */
  lemma ProbesReleaseHandles(name: Option<string>, m: Machine)
    ensures HandlesReleased(Select(name, m).trace)
    ensures |Select(name, m).trace| <= 4
  {
    var onnxProbe := if m.hasOnnx then Probe(ONNX_LIBRARY, m.onnxLoads) else [];
    var tfliteProbe := if m.hasTflite then Probe(TFLITE_LIBRARY, m.tfliteLoads) else [];
    ProbeReleases(ONNX_LIBRARY, m.onnxLoads);
    ProbeReleases(TFLITE_LIBRARY, m.tfliteLoads);
    ReleasedAppend(onnxProbe, tfliteProbe);
    assert HandlesReleased([]);
  }
}
