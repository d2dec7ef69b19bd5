/**
 * The NeuronRuntime_* entry points: a once-only global initialisation
 * (configuration, then backend selection, then the model suffix), sessions
 * that hold the selected backend's context, the load path through the model
 * resolver, and the uniform translation of backend return codes into the
 * runtime's result codes.
 *
 * NULL handles and pointers are None. What the engines report for a call
 * is passed in as parameters (a Machine, an OrtLoad, an OrtRun, booleans);
 * a parameter for an engine the session does not use is ignored.
 */
module ShimRuntime {
  import opened Wrappers
  import opened CStrings
  import opened RuntimeApi
  import opened Config
  import opened ModelResolver
  import opened Backend
  import opened BackendSelector
  import opened StubBackend
  import opened OnnxBackend
  import opened TfliteBackend

  /** The size of the buffer loadNetworkFromFile resolves the model path into. */
  const RESOLVED_CAPACITY: nat := 1024

  /** What the process sees at initialisation: the two config files, the environment and the machine. */
  datatype Environment = Environment(
    etcFile: Option<seq<string>>,
    cwdFile: Option<seq<string>>,
    vars: map<string, string>,
    machine: Machine)

  /** The configuration the once-only initialisation loads. */
  function InitialConfig(env: Environment): ShimConfig {
    LoadFrom(Defaults, env.etcFile, env.cwdFile, env.vars)
  }

  /** The name passed to the selector: NULL when the configured backend is "auto". */
  function SelectorName(cfg: ShimConfig): (r: Option<string>)
    ensures r.None? <==> cfg.backend == "auto"
    ensures r.Some? ==> r.value == cfg.backend
  {
    if cfg.backend == "auto" then None else Some(cfg.backend)
  }

  function SelectedBackend(cfg: ShimConfig, m: Machine): BackendKind {
    Select(SelectorName(cfg), m).backend
  }

  /** An "auto" configuration auto-detects; any other name is tried explicitly first. */
  lemma SelectionFollowsConfig(cfg: ShimConfig, m: Machine)
    ensures cfg.backend == "auto" ==> SelectedBackend(cfg, m) == AutoDetect(m).backend
    ensures cfg.backend == "stub" ==> SelectedBackend(cfg, m) == Stub
    ensures (cfg.backend == "onnx" && m.hasOnnx) ==> SelectedBackend(cfg, m) == Onnx
    ensures (cfg.backend == "tflite" && m.hasTflite) ==> SelectedBackend(cfg, m) == TfLite
    ensures Compiled(m, SelectedBackend(cfg, m))
  {
    if cfg.backend == "onnx" && m.hasOnnx {
      ExplicitCompiled(Onnx, m);
    } else if cfg.backend == "tflite" && m.hasTflite {
      ExplicitCompiled(TfLite, m);
    }
  }

  /** NEURON_SHIM_BACKEND=stub selects the stub whatever the files say and whatever the machine has. */
  lemma EnvironmentForcesStub(env: Environment)
    requires BACKEND_VAR in env.vars && env.vars[BACKEND_VAR] == "stub"
    ensures InitialConfig(env).backend == "stub"
    ensures SelectedBackend(InitialConfig(env), env.machine) == Stub
  {
  }

  /**
   * The "auto" suffix follows the configured backend name, not the backend
   * selected: a configured "tflite" on a machine without TensorFlow Lite
   * but with a loadable ONNX Runtime selects ONNX and still probes ".tflite".
   */
  lemma SuffixFollowsConfiguredName(cfg: ShimConfig, m: Machine)
    requires cfg.backend == "tflite" && cfg.suffix == "auto"
    requires !m.hasTflite && m.hasOnnx && m.onnxLoads
    ensures SelectedBackend(cfg, m) == Onnx
    ensures GetSuffix(cfg) == ".tflite"
  {
  }

  // ------------------------------------------------------------------
  // Sessions
  // ------------------------------------------------------------------

  /** The backend context a session holds: one variant per backend. */
  datatype Context =
    | StubCtx(stub: StubContext)
    | OnnxCtx(onnx: OnnxContext)
    | TfliteCtx(tflite: TfliteContext)
  {
    function Kind(): (k: BackendKind)
      ensures k == Stub <==> StubCtx?
      ensures k == Onnx <==> OnnxCtx?
      ensures k == TfLite <==> TfliteCtx?
    {
      match this
      case StubCtx(_) => Stub
      case OnnxCtx(_) => Onnx
      case TfliteCtx(_) => TfLite
    }
  }

  /** ShimRuntime: the backend a session was created with and its context. */
  class Session {
    const backend: BackendKind
    const context: Context
    /** Set once NeuronRuntime_release has destroyed the context. */
    ghost var released: bool

    /** The objects the context owns. */
    ghost function Repr(): set<object> {
      match context
      case StubCtx(c) => {c}
      case OnnxCtx(c) => {c, c.inputs, c.outputs, c.inputBindings, c.outputBindings}
      case TfliteCtx(c) => {c, c.outputBindings}
    }

    ghost predicate Valid()
      reads this, Repr()
    {
      && backend == context.Kind()
      && match context
         case StubCtx(c) => c.Valid()
         case OnnxCtx(c) => c.Valid()
         case TfliteCtx(c) => c.Valid()
    }

    /** A session that can still be used: consistent and not yet released. */
    ghost predicate Live()
      reads this, Repr()
    {
      Valid() && !released
    }

    /** The state a backend's create leaves behind: nothing loaded, bound or counted. */
    ghost predicate Pristine()
      reads this, Repr()
    {
      match context
      case StubCtx(c) =>
        && c.modelPath == "" && c.inputCount == 0 && c.outputCount == 0 && c.inferenceCount == 0
        && |c.inputs| == |c.outputs| == MAX_TENSORS
        && forall i :: 0 <= i < MAX_TENSORS ==> c.inputs[i] == 0 && c.outputs[i] == Unbound
      case OnnxCtx(c) =>
        && !c.session && c.inputCount == 0 && c.outputCount == 0
        && c.inputBindings.Length == c.outputBindings.Length == MAX_TENSORS
        && forall i :: 0 <= i < MAX_TENSORS ==> c.inputBindings[i] == Unbound && c.outputBindings[i] == Unbound
      case TfliteCtx(c) =>
        && !c.model && c.interpreter.None? && c.outputBindingCount == 0
        && c.outputBindings.Length == MAX_TENSORS
        && forall i :: 0 <= i < MAX_TENSORS ==> c.outputBindings[i] == Unbound
    }

    /** The output buffers an inference in this session may write: the stub's bound buffers. */
    ghost function OutputTargets(): set<array<bv8>>
      reads Repr()
    {
      if context.StubCtx? then context.stub.OutBuffers() else {}
    }

    constructor (context: Context)
      ensures this.backend == context.Kind() && this.context == context && !released
    {
      this.backend := context.Kind();
      this.context := context;
      released := false;
    }
  }

  // ------------------------------------------------------------------
  // What a backend answers, dispatched by the session's context
  // ------------------------------------------------------------------

  /** The reply a caller sees for a backend answer: the translated code and the value written. */
  function Deliver(a: Answer): (r: Reply<nat>)
    ensures r.error in {NoError, OpFailed} && (r.error == NoError <==> a.rc == 0)
    ensures r.out == a.written
  {
    Reply(FromBackend(a.rc), a.written)
  }

  function InputCountAnswer(s: Session): (a: Answer)
    requires s.Valid()
    reads s, s.Repr()
    ensures a.rc == 0 <==> a.written.Some?
  {
    match s.context
    case StubCtx(c) => c.InputCountAnswer()
    case OnnxCtx(c) => c.InputCountAnswer()
    case TfliteCtx(c) => c.InputCountAnswer()
  }

  function OutputCountAnswer(s: Session): (a: Answer)
    requires s.Valid()
    reads s, s.Repr()
    ensures a.rc == 0 <==> a.written.Some?
  {
    match s.context
    case StubCtx(c) => c.OutputCountAnswer()
    case OnnxCtx(c) => c.OutputCountAnswer()
    case TfliteCtx(c) => c.OutputCountAnswer()
  }

  function InputSizeAnswer(s: Session, index: int): (a: Answer)
    requires s.Valid() && IsInt32(index)
    reads s, s.Repr()
    ensures a.rc == 0 <==> a.written.Some?
  {
    match s.context
    case StubCtx(c) => c.InputSizeAnswer(index)
    case OnnxCtx(c) => c.InputSizeAnswer(index)
    case TfliteCtx(c) => c.InputSizeAnswer(index)
  }

  function OutputSizeAnswer(s: Session, index: int): (a: Answer)
    requires s.Valid() && IsInt32(index)
    reads s, s.Repr()
    ensures a.rc == 0 <==> a.written.Some?
  {
    match s.context
    case StubCtx(c) => c.OutputSizeAnswer(index)
    case OnnxCtx(c) => c.OutputSizeAnswer(index)
    case TfliteCtx(c) => c.OutputSizeAnswer(index)
  }

  /** Whether the backend's load succeeds, given what each engine does with the model. */
  function LoadSucceeds(k: BackendKind, ortLoad: OrtLoad, tfliteLoad: TfliteLoad): bool {
    match k
    case Stub => true
    case Onnx => ortLoad.SessionCreated?
    case TfLite => tfliteLoad.ModelParsed? && tfliteLoad.build.Built?
  }

  // ------------------------------------------------------------------
  // Calls that only dispatch
  // ------------------------------------------------------------------

  /** NeuronRuntime_release: NULL is refused; otherwise the context is destroyed. */
  method Release(s: Option<Session>) returns (err: NeuronError)
    requires s.Some? ==> !s.value.released
    modifies if s.Some? then {s.value} else {}
    ensures err == UnexpectedNull <==> s.None?
    ensures err == NoError <==> s.Some?
    ensures s.Some? ==> s.value.released
  {
    if s.None? {
      return UnexpectedNull;
    }
    s.value.released := true;
    err := NoError;
  }

  /** NeuronRuntime_loadNetworkFromBuffer: a NULL session or buffer is refused; otherwise the backend loads the bytes. */
  method LoadNetworkFromBuffer(s: Option<Session>, hasBuffer: bool, size: nat, ortLoad: OrtLoad, tfliteLoad: TfliteLoad)
    returns (err: NeuronError)
    requires s.Some? ==> s.value.Live()
    modifies if s.Some? then s.value.Repr() else {}
    ensures s.Some? ==> s.value.Live()
    ensures err == UnexpectedNull <==> s.None? || !hasBuffer
    ensures s.Some? && hasBuffer ==>
      (err == NoError <==> LoadSucceeds(s.value.backend, ortLoad, tfliteLoad)) && err in {NoError, OpFailed}
    ensures s.Some? && !hasBuffer ==> unchanged(s.value.Repr())
    ensures s.Some? && hasBuffer && s.value.context.StubCtx? ==>
      var c := s.value.context.stub;
      && c.modelPath == Truncate(BufferLabel(size), MODEL_PATH_CHARS) && c.inputCount == 1 && c.outputCount == 1
      && c.inputs == old(c.inputs) && c.outputs == old(c.outputs) && c.inferenceCount == old(c.inferenceCount)
    ensures s.Some? && hasBuffer && s.value.context.OnnxCtx? ==>
      var c := s.value.context.onnx;
      c.LoadedFrom(ortLoad) && unchanged(c.inputBindings, c.outputBindings)
    ensures s.Some? && hasBuffer && s.value.context.TfliteCtx? ==>
      var c := s.value.context.tflite;
      c.LoadedFrom(tfliteLoad) && unchanged(c.outputBindings)
  {
    if s.None? || !hasBuffer {
      return UnexpectedNull;
    }
    var rc: int;
    match s.value.context {
      case StubCtx(c) => rc := c.LoadFromBuffer(size);
      case OnnxCtx(c) => rc := c.LoadFromBuffer(size, ortLoad);
      case TfliteCtx(c) => rc := c.LoadFromBuffer(size, tfliteLoad);
    }
    err := FromBackend(rc);
  }

  /**
   * NeuronRuntime_setInput: a NULL session is refused; otherwise the backend
   * binds the input and its return code is translated. `copied` is whether
   * TensorFlow Lite accepts the bytes; the padding is ignored.
   */
  method SetInput(s: Option<Session>, index: int, buffer: Option<array<bv8>>, size: nat, padding: int, copied: bool)
    returns (err: NeuronError)
    requires IsInt32(index)
    requires s.Some? ==> s.value.Live()
    modifies if s.Some? then s.value.Repr() else {}
    ensures s.Some? ==> s.value.Live()
    ensures err == UnexpectedNull <==> s.None?
    ensures s.Some? && s.value.backend == Stub ==> err == NoError
    ensures s.Some? && s.value.backend == Onnx ==> (err == NoError <==> InTable(index))
    ensures s.Some? && s.value.backend == TfLite ==>
      (err == NoError <==> old(s.value.context.tflite.SetInputResult(index, copied)) == 0)
    ensures s.Some? ==> err in {NoError, OpFailed}
    ensures s.Some? && s.value.context.StubCtx? ==>
      var c := s.value.context.stub;
      && c.inputs == (if InTable(index) then old(c.inputs)[index := size] else old(c.inputs))
      && c.inputCount == (if InTable(index) then Max(old(c.inputCount), index + 1) else old(c.inputCount))
      && c.outputs == old(c.outputs) && c.outputCount == old(c.outputCount)
      && c.modelPath == old(c.modelPath) && c.inferenceCount == old(c.inferenceCount)
    ensures s.Some? && s.value.context.OnnxCtx? ==>
      var c := s.value.context.onnx;
      && c.inputBindings[..] == (if InTable(index) then old(c.inputBindings[..])[index := Binding(buffer, size)]
                                 else old(c.inputBindings[..]))
      && unchanged(c, c.inputs, c.outputs, c.outputBindings)
    ensures s.Some? && s.value.context.TfliteCtx? ==>
      var c := s.value.context.tflite;
      unchanged(c, c.outputBindings)
  {
    if s.None? {
      return UnexpectedNull;
    }
    var rc: int;
    match s.value.context {
      case StubCtx(c) => rc := c.SetInput(index, size);
      case OnnxCtx(c) => rc := c.SetInput(index, Binding(buffer, size));
      case TfliteCtx(c) => rc := c.SetInputResult(index, copied);
    }
    err := FromBackend(rc);
  }

  /**
   * NeuronRuntime_setOutput: a NULL session is refused; otherwise the backend
   * binds the output buffer and its return code is translated. The buffer
   * must hold the bytes the caller says it has.
   */
  method SetOutput(s: Option<Session>, index: int, buffer: Option<array<bv8>>, size: nat, padding: int)
    returns (err: NeuronError)
    requires IsInt32(index) && Fits(Binding(buffer, size))
    requires s.Some? ==> s.value.Live()
    modifies if s.Some? then s.value.Repr() else {}
    ensures s.Some? ==> s.value.Live()
    ensures err == UnexpectedNull <==> s.None?
    ensures s.Some? && s.value.backend == Stub ==> err == NoError
    ensures s.Some? && s.value.backend != Stub ==> (err == NoError <==> InTable(index))
    ensures s.Some? ==> err in {NoError, OpFailed}
    ensures s.Some? && s.value.context.StubCtx? ==>
      var c := s.value.context.stub;
      && c.outputs == (if InTable(index) then old(c.outputs)[index := Binding(buffer, size)] else old(c.outputs))
      && c.outputCount == (if InTable(index) then Max(old(c.outputCount), index + 1) else old(c.outputCount))
      && c.inputs == old(c.inputs) && c.inputCount == old(c.inputCount)
      && c.modelPath == old(c.modelPath) && c.inferenceCount == old(c.inferenceCount)
    ensures s.Some? && s.value.context.OnnxCtx? ==>
      var c := s.value.context.onnx;
      && c.outputBindings[..] == (if InTable(index) then old(c.outputBindings[..])[index := Binding(buffer, size)]
                                  else old(c.outputBindings[..]))
      && unchanged(c, c.inputs, c.outputs, c.inputBindings)
    ensures s.Some? && s.value.context.TfliteCtx? ==>
      var c := s.value.context.tflite;
      && c.outputBindings[..] == (if InTable(index) then old(c.outputBindings[..])[index := Binding(buffer, size)]
                                  else old(c.outputBindings[..]))
      && c.outputBindingCount == (if InTable(index) then Max(old(c.outputBindingCount), index + 1)
                                  else old(c.outputBindingCount))
      && c.model == old(c.model) && c.interpreter == old(c.interpreter)
  {
    if s.None? {
      return UnexpectedNull;
    }
    var rc: int;
    match s.value.context {
      case StubCtx(c) => rc := c.SetOutput(index, buffer, size);
      case OnnxCtx(c) => rc := c.SetOutput(index, Binding(buffer, size));
      case TfliteCtx(c) => rc := c.SetOutput(index, Binding(buffer, size));
    }
    err := FromBackend(rc);
  }

  /** NeuronRuntime_getInputCount: a NULL session or out-pointer is refused; the count is written exactly on success. */
  function GetInputCount(s: Option<Session>, hasCount: bool): (r: Reply<nat>)
    requires s.Some? ==> s.value.Valid()
    reads if s.Some? then {s.value} + s.value.Repr() else {}
    ensures r.error == UnexpectedNull <==> s.None? || !hasCount
    ensures s.Some? && hasCount ==> r == Deliver(InputCountAnswer(s.value))
    ensures r.error == NoError <==> r.out.Some?
    ensures r.error in {NoError, OpFailed, UnexpectedNull}
  {
    if s.None? || !hasCount then Reply(UnexpectedNull, None) else Deliver(InputCountAnswer(s.value))
  }

  /** NeuronRuntime_getOutputCount: a NULL session or out-pointer is refused; the count is written exactly on success. */
  function GetOutputCount(s: Option<Session>, hasCount: bool): (r: Reply<nat>)
    requires s.Some? ==> s.value.Valid()
    reads if s.Some? then {s.value} + s.value.Repr() else {}
    ensures r.error == UnexpectedNull <==> s.None? || !hasCount
    ensures s.Some? && hasCount ==> r == Deliver(OutputCountAnswer(s.value))
    ensures r.error == NoError <==> r.out.Some?
    ensures r.error in {NoError, OpFailed, UnexpectedNull}
  {
    if s.None? || !hasCount then Reply(UnexpectedNull, None) else Deliver(OutputCountAnswer(s.value))
  }

  /** NeuronRuntime_getInputSize: a NULL session or out-pointer is refused; the size is written exactly on success. */
  function GetInputSize(s: Option<Session>, index: int, hasSize: bool): (r: Reply<nat>)
    requires IsInt32(index) && (s.Some? ==> s.value.Valid())
    reads if s.Some? then {s.value} + s.value.Repr() else {}
    ensures r.error == UnexpectedNull <==> s.None? || !hasSize
    ensures s.Some? && hasSize ==> r == Deliver(InputSizeAnswer(s.value, index))
    ensures r.error == NoError <==> r.out.Some?
    ensures r.error in {NoError, OpFailed, UnexpectedNull}
  {
    if s.None? || !hasSize then Reply(UnexpectedNull, None) else Deliver(InputSizeAnswer(s.value, index))
  }

  /** NeuronRuntime_getOutputSize: a NULL session or out-pointer is refused; the size is written exactly on success. */
  function GetOutputSize(s: Option<Session>, index: int, hasSize: bool): (r: Reply<nat>)
    requires IsInt32(index) && (s.Some? ==> s.value.Valid())
    reads if s.Some? then {s.value} + s.value.Repr() else {}
    ensures r.error == UnexpectedNull <==> s.None? || !hasSize
    ensures s.Some? && hasSize ==> r == Deliver(OutputSizeAnswer(s.value, index))
    ensures r.error == NoError <==> r.out.Some?
    ensures r.error in {NoError, OpFailed, UnexpectedNull}
  {
    if s.None? || !hasSize then Reply(UnexpectedNull, None) else Deliver(OutputSizeAnswer(s.value, index))
  }

  /**
   * The record getInputInfo/getOutputInfo leave behind: zeroed as a whole,
   * then sizeBytes set when the size query wrote it.
   */
  function InfoFrom(a: Answer): (info: TensorInfo)
    ensures info.dimensions == ZeroedInfo.dimensions && info.dimensionCount == 0
    ensures info.elementType == 0 && info.scale == 0.0 && info.zeroPoint == 0
    ensures info.sizeBytes == a.written.GetOr(0)
  {
    ZeroedInfo.(sizeBytes := a.written.GetOr(0))
  }

  /**
   * NeuronRuntime_getInputInfo: a NULL session or record is refused;
   * otherwise the record is zeroed even when the size query fails, and only
   * its byte size is filled in.
   */
  function GetInputInfo(s: Option<Session>, index: int, hasInfo: bool): (r: Reply<TensorInfo>)
    requires IsInt32(index) && (s.Some? ==> s.value.Valid())
    reads if s.Some? then {s.value} + s.value.Repr() else {}
    ensures r.error == UnexpectedNull <==> s.None? || !hasInfo
    ensures r.error != UnexpectedNull ==>
      && r.error == FromBackend(InputSizeAnswer(s.value, index).rc)
      && r.out == Some(InfoFrom(InputSizeAnswer(s.value, index)))
    ensures r.error == UnexpectedNull ==> r.out.None?
  {
    if s.None? || !hasInfo then Reply(UnexpectedNull, None)
    else
      var a := InputSizeAnswer(s.value, index);
      Reply(FromBackend(a.rc), Some(InfoFrom(a)))
  }

  /**
   * NeuronRuntime_getOutputInfo: a NULL session or record is refused;
   * otherwise the record is zeroed even when the size query fails, and only
   * its byte size is filled in.
   */
  function GetOutputInfo(s: Option<Session>, index: int, hasInfo: bool): (r: Reply<TensorInfo>)
    requires IsInt32(index) && (s.Some? ==> s.value.Valid())
    reads if s.Some? then {s.value} + s.value.Repr() else {}
    ensures r.error == UnexpectedNull <==> s.None? || !hasInfo
    ensures r.error != UnexpectedNull ==>
      && r.error == FromBackend(OutputSizeAnswer(s.value, index).rc)
      && r.out == Some(InfoFrom(OutputSizeAnswer(s.value, index)))
    ensures r.error == UnexpectedNull ==> r.out.None?
  {
    if s.None? || !hasInfo then Reply(UnexpectedNull, None)
    else
      var a := OutputSizeAnswer(s.value, index);
      Reply(FromBackend(a.rc), Some(InfoFrom(a)))
  }

  /** The info record fills sizeBytes with what the size query reports, whenever the query succeeds. */
  lemma InfoCarriesSize(s: Session, index: int)
    requires s.Valid() && IsInt32(index)
    ensures GetInputInfo(Some(s), index, true).error == NoError ==>
      GetInputInfo(Some(s), index, true).out.value.sizeBytes == GetInputSize(Some(s), index, true).out.value
    ensures GetOutputInfo(Some(s), index, true).error == NoError ==>
      GetOutputInfo(Some(s), index, true).out.value.sizeBytes == GetOutputSize(Some(s), index, true).out.value
    ensures GetInputInfo(Some(s), index, true).error == GetInputSize(Some(s), index, true).error
    ensures GetOutputInfo(Some(s), index, true).error == GetOutputSize(Some(s), index, true).error
  {
  }

  /**
   * NeuronRuntime_inference: a NULL session is refused; otherwise the
   * backend runs and its return code is translated. `run` is what ONNX
   * Runtime does, `ran` whether TensorFlow Lite's Invoke succeeds. The
   * copies an engine backend makes into the bound output buffers are
   * returned as a plan; the stub zeroes its bound buffers in place.
   */
  method Inference(s: Option<Session>, run: OrtRun, ran: bool) returns (err: NeuronError, copies: seq<Copy>)
    requires s.Some? ==> s.value.Live()
    modifies if s.Some? then s.value.Repr() + s.value.OutputTargets() else {}
    ensures s.Some? ==> s.value.Live()
    ensures err == UnexpectedNull <==> s.None?
    ensures s.Some? ==> err in {NoError, OpFailed}
    ensures s.Some? && s.value.backend == Stub ==> err == NoError && copies == []
    ensures s.Some? && s.value.backend == Onnx ==>
      (err == NoError <==> old(s.value.context.onnx.session) && run.RunCompleted?)
    ensures s.Some? && s.value.backend == TfLite ==>
      (err == NoError <==> old(s.value.context.tflite.interpreter).Some? && ran)
    ensures s.Some? && s.value.context.StubCtx? ==>
      && s.value.context.stub.inferenceCount == old(s.value.context.stub.inferenceCount) + 1
      && s.value.context.stub.outputs == old(s.value.context.stub.outputs)
      && s.value.context.stub.outputCount == old(s.value.context.stub.outputCount)
    ensures s.Some? && s.value.context.StubCtx? ==> StubZeroed(s.value.context.stub, old(s.value.context.stub.OutBuffers()))
    ensures s.Some? && s.value.context.StubCtx? ==>
      var c := s.value.context.stub;
      c.inputs == old(c.inputs) && c.inputCount == old(c.inputCount) && c.modelPath == old(c.modelPath)
    ensures s.Some? && !s.value.context.StubCtx? ==> unchanged(s.value.Repr())
    ensures err != NoError ==> copies == []
    ensures s.Some? && s.value.context.OnnxCtx? && err == NoError ==>
      var c := s.value.context.onnx;
      copies == CopyPlan(c.outputBindings[..], Produced(c.outputs[..], run.produced), c.outputCount)
    ensures s.Some? && s.value.context.TfliteCtx? && err == NoError ==>
      var c := s.value.context.tflite;
      copies == CopyPlan(c.outputBindings[..], Tensors(c.interpreter.value.outputs), c.outputBindingCount)
  {
    if s.None? {
      return UnexpectedNull, [];
    }
    var rc: int;
    copies := [];
    match s.value.context {
      case StubCtx(c) => rc := c.Invoke();
      case OnnxCtx(c) => rc, copies := c.Invoke(run);
      case TfliteCtx(c) => rc, copies := c.Invoke(ran);
    }
    err := FromBackend(rc);
  }

  /** What the stub's inference leaves in the buffers it had bound: its bound extents zeroed, every other byte kept. */
  twostate predicate StubZeroed(c: StubContext, buffers: set<array<bv8>>)
    reads c, buffers
  {
    forall b :: b in buffers ==>
      forall j :: 0 <= j < b.Length ==> b[j] == if Covers(c.outputs, b, j, c.outputCount) then 0 else old(b[j])
  }

  /** NeuronRuntime_setQoSOption: accepted and ignored, whatever the session and the options. */
  function SetQoSOption(s: Option<Session>, qos: Option<QoSOptions>): (err: NeuronError)
    ensures err == NoError
  {
    NoError
  }

  /**
   * NeuronRuntime_getProfiledQoSData: always succeeds; a given record has
   * its profiled-data pointer cleared and its size set to 0, and keeps every
   * other field.
   */
  function GetProfiledQoSData(s: Option<Session>, qos: Option<QoSOptions>): (r: Reply<QoSOptions>)
    ensures r.error == NoError
    ensures r.out.Some? <==> qos.Some?
    ensures r.out.Some? ==>
      && r.out.value.profiledQoSData.None? && r.out.value.profiledQoSDataSize == 0
      && r.out.value.priority == qos.value.priority && r.out.value.boostValue == qos.value.boostValue
      && r.out.value.abortTime == qos.value.abortTime && r.out.value.deadline == qos.value.deadline
  {
    if qos.None? then Reply(NoError, None)
    else Reply(NoError, Some(qos.value.(profiledQoSData := None, profiledQoSDataSize := 0)))
  }

  // ------------------------------------------------------------------
  // The global state
  // ------------------------------------------------------------------

  /** g_config, g_backend, g_suffix and the once-flag guarding their initialisation. */
  class Shim {
    const store: ConfigStore
    var initialized: bool
    var config: ShimConfig
    var backend: BackendKind
    var suffix: string
    /** How many times the initialisation has run. */
    ghost var initRuns: nat

    ghost predicate Valid()
      reads this, store
    {
      && (initialized <==> initRuns == 1) && initRuns <= 1
      && (!initialized ==> store.Snapshot() == Defaults)
      && (initialized ==> config == store.Snapshot() && suffix == GetSuffix(config))
    }

    /** The process before any call: the static configuration record holds the defaults. */
    constructor ()
      ensures Valid() && !initialized && initRuns == 0 && fresh(store)
    {
      store := new ConfigStore();
      initialized := false;
      config := Defaults;
      backend := Stub;
      suffix := "";
      initRuns := 0;
    }

    /**
     * ensure_init with shim_global_init: the first call loads the
     * configuration, selects the backend (NULL for "auto") and derives the
     * suffix; every later call changes nothing.
     */
    method EnsureInit(env: Environment)
      requires Valid()
      modifies this, store
      ensures Valid() && initialized && initRuns == 1
      ensures old(initialized) ==>
        config == old(config) && backend == old(backend) && suffix == old(suffix)
      ensures !old(initialized) ==>
        && config == InitialConfig(env)
        && backend == SelectedBackend(config, env.machine)
        && suffix == GetSuffix(config)
    {
      if initialized {
        return;
      }
      var cfg := store.Load(env.etcFile, env.cwdFile, env.vars);
      config := cfg;
      backend := Select(SelectorName(cfg), env.machine).backend;
      suffix := GetSuffix(cfg);
      initialized := true;
      initRuns := initRuns + 1;
    }

    /**
     * NeuronRuntime_create: initialises once, then creates a context of the
     * global backend. Only ONNX Runtime's set-up can fail (ortReady is
     * false): then the result is OP_FAILED and no session is handed out.
     */
    method Create(env: Environment, ortReady: bool) returns (err: NeuronError, s: Option<Session>)
      requires Valid()
      modifies this, store
      ensures Valid() && initialized
      ensures old(initialized) ==> backend == old(backend) && config == old(config) && suffix == old(suffix)
      ensures !old(initialized) ==>
        && config == InitialConfig(env) && suffix == GetSuffix(config)
        && backend == SelectedBackend(config, env.machine)
      ensures err == NoError <==> s.Some?
      ensures err != NoError ==> err == OpFailed && backend == Onnx && !ortReady
      ensures backend != Onnx || ortReady ==> err == NoError
      ensures s.Some? ==> fresh(s.value) && fresh(s.value.Repr()) && s.value.Live() && s.value.backend == backend
      ensures s.Some? ==> s.value.Pristine()
    {
      EnsureInit(env);
      var context: Context;
      match backend {
        case Stub =>
          var c := new StubContext();
          context := StubCtx(c);
        case Onnx =>
          if !ortReady {
            return OpFailed, None;
          }
          var c := new OnnxContext();
          context := OnnxCtx(c);
        case TfLite =>
          var c := new TfliteContext();
          context := TfliteCtx(c);
      }
      var session := new Session(context);
      return NoError, Some(session);
    }

    /** The path loadNetworkFromFile resolves a request to. */
    function ResolveRequest(path: Option<string>, readable: set<string>): (r: Resolution)
      reads this
      ensures r.InvalidArgument? <==> path.None?
      ensures r.Resolved? ==>
        && |r.path| < RESOLVED_CAPACITY && r.path in readable
        && |suffix| <= |r.path| && r.path[|r.path| - |suffix|..] == suffix
    {
      Resolve(path, Some(suffix), Some(config.modelDir), true, RESOLVED_CAPACITY, readable)
    }

    /**
     * NeuronRuntime_loadNetworkFromFile: a NULL session or path is refused;
     * a path the resolver cannot resolve is BAD_DATA and the backend is not
     * called; otherwise the backend loads the resolved path and a failure
     * there is OP_FAILED. `readable` stands for access(R_OK).
     */
    method LoadNetworkFromFile(s: Option<Session>, path: Option<string>, readable: set<string>,
                               ortLoad: OrtLoad, tfliteLoad: TfliteLoad)
      returns (err: NeuronError)
      requires Valid()
      requires s.Some? ==> initialized && s.value.Live()
      modifies if s.Some? then s.value.Repr() else {}
      ensures s.Some? ==> s.value.Live()
      ensures err == UnexpectedNull <==> s.None? || path.None?
      ensures s.Some? && path.Some? ==>
        var r := ResolveRequest(path, readable);
        && (err == BadData <==> !r.Resolved?)
        && (err == NoError <==> r.Resolved? && LoadSucceeds(s.value.backend, ortLoad, tfliteLoad))
        && (err == OpFailed <==> r.Resolved? && !LoadSucceeds(s.value.backend, ortLoad, tfliteLoad))
      ensures err == BadData ==> unchanged(s.value.Repr())
      ensures err == NoError && s.value.backend == Stub ==>
        s.value.context.stub.modelPath == Truncate(ResolveRequest(path, readable).path, MODEL_PATH_CHARS)
      ensures err in {NoError, OpFailed} && s.value.context.StubCtx? ==>
        var c := s.value.context.stub;
        && c.inputCount == 1 && c.outputCount == 1
        && c.inputs == old(c.inputs) && c.outputs == old(c.outputs) && c.inferenceCount == old(c.inferenceCount)
      ensures err in {NoError, OpFailed} && s.value.context.OnnxCtx? ==>
        var c := s.value.context.onnx;
        c.LoadedFrom(ortLoad) && unchanged(c.inputBindings, c.outputBindings)
      ensures err in {NoError, OpFailed} && s.value.context.TfliteCtx? ==>
        var c := s.value.context.tflite;
        c.LoadedFrom(tfliteLoad) && unchanged(c.outputBindings)
    {
      if s.None? || path.None? {
        return UnexpectedNull;
      }
      var r := ResolveRequest(path, readable);
      if !r.Resolved? {
        return BadData;
      }
      var rc: int;
      match s.value.context {
        case StubCtx(c) => rc := c.LoadFromFile(r.path);
        case OnnxCtx(c) => rc := c.LoadFromFile(r.path, ortLoad);
        case TfliteCtx(c) => rc := c.LoadFromFile(r.path, tfliteLoad);
      }
      err := FromBackend(rc);
    }
  }
}
