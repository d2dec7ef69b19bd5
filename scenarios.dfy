/**
 * Whole-call sequences through the NeuronRuntime_* entry points, each
 * stated as what the caller observes at the end.
 */
module Scenarios {
  import opened Wrappers
  import opened RuntimeApi
  import opened Config
  import opened ModelResolver
  import opened Backend
  import opened BackendSelector
  import opened StubBackend
  import opened OnnxBackend
  import opened TfliteBackend
  import opened ShimRuntime

  /** A machine with both engines compiled in and loadable. */
  const FullMachine := Machine(true, true, true, true)

  /**
   * NEURON_SHIM_BACKEND=stub on a machine that has both engines: the
   * session uses the stub; with a 224x224x3-byte image input and a
   * 4004-byte output (1001 floats) bound, the output filled with 0xFF
   * beforehand, an inference leaves every output byte zero.
   */
  method ForcedStubClearsOutput() returns (created: NeuronError, boundInput: NeuronError, boundOutput: NeuronError,
                                           inferred: NeuronError, out: array<bv8>)
    ensures created == NoError && boundInput == NoError && boundOutput == NoError && inferred == NoError
    ensures out.Length == 4004 && forall j :: 0 <= j < out.Length ==> out[j] == 0
  {
    var shim := new Shim();
    var env := Environment(None, None, map[BACKEND_VAR := "stub"], FullMachine);
    EnvironmentForcesStub(env);
    var s;
    created, s := shim.Create(env, true);
    var session := s.value;
    assert session.context.StubCtx?;
    var stub := session.context.stub;
    var input := new bv8[224 * 224 * 3](_ => 0x7F);
    boundInput := SetInput(s, 0, Some(input), 224 * 224 * 3, -1, true);
    out := new bv8[4004](_ => 0xFF);
    boundOutput := SetOutput(s, 0, Some(out), 4004, -1);
    assert stub.outputs[0] == Binding(Some(out), 4004);
    assert stub.outputCount == 1;
    assert stub.OutBuffers() == {out};
    var copies;
    inferred, copies := Inference(s, RunRejected, false);
    forall j | 0 <= j < out.Length
      ensures out[j] == 0
    {
      assert stub.outputs[0].buf == Some(out) && j < stub.outputs[0].size;
      assert Covers(stub.outputs, out, j, stub.outputCount);
    }
  }

  /**
   * A model file that is not readable: loadNetworkFromFile answers BAD_DATA
   * and the stub context keeps the empty model path create gave it. The
   * input count query afterwards succeeds and reports the stub's default of
   * one input.
   */
  method MissingModelIsBadData() returns (created: NeuronError, loaded: NeuronError, path: string,
                                          count: Reply<nat>)
    ensures created == NoError && loaded == BadData && path == ""
    ensures count == Reply(NoError, Some(1))
  {
    var shim := new Shim();
    var env := Environment(None, None, map[BACKEND_VAR := "stub"], FullMachine);
    EnvironmentForcesStub(env);
    var s;
    created, s := shim.Create(env, true);
    loaded := shim.LoadNetworkFromFile(s, Some("/data/model.dla"), {}, SessionRejected(false), ModelRejected);
    path := s.value.context.stub.modelPath;
    count := GetInputCount(s, true);
  }

  /**
   * No configuration at all on a machine where ONNX Runtime loads: the
   * session uses ONNX Runtime, the request "/models/m.dla" is resolved in
   * place to "/models/m.dla.onnx", ONNX Runtime creates a session from it,
   * and the input count query then reports the model's one input.
   */
  method DefaultConfigurationLoadsOnnx() returns (created: NeuronError, backend: BackendKind,
                                                  resolved: Resolution, loaded: NeuronError, count: Reply<nat>)
    ensures created == NoError && backend == Onnx
    ensures resolved == Resolved("/models/m.dla.onnx")
    ensures loaded == NoError && count == Reply(NoError, Some(1))
  {
    var shim := new Shim();
    var env := Environment(None, None, map[], FullMachine);
    NoSourcesGiveDefaults();
    var s;
    created, s := shim.Create(env, true);
    assert shim.config == Defaults && shim.suffix == ".onnx";
    backend := s.value.backend;
    InPlaceExample({"/models/m.dla.onnx"});
    resolved := shim.ResolveRequest(Some("/models/m.dla"), {"/models/m.dla.onnx"});
    var tensor := OrtTensor(Float, [1, 3]);
    loaded := shim.LoadNetworkFromFile(s, Some("/models/m.dla"), {"/models/m.dla.onnx"},
                                       SessionCreated([tensor], [tensor]), ModelRejected);
    count := GetInputCount(s, true);
  }

  /**
   * A configured "onnx" on a machine with ONNX Runtime: before any model is
   * loaded the input count query succeeds and reports no inputs, and the
   * size query of input 0 fails with nothing written.
   */
  method OnnxCountBeforeLoad() returns (created: NeuronError, count: Reply<nat>, size: Reply<nat>)
    ensures created == NoError && count == Reply(NoError, Some(0))
    ensures size == Reply(OpFailed, None)
  {
    var shim := new Shim();
    var env := Environment(None, None, map[BACKEND_VAR := "onnx"], FullMachine);
    LoadPrecedence(Defaults, env.etcFile, env.cwdFile, env.vars);
    ExplicitCompiled(Onnx, FullMachine);
    var s;
    created, s := shim.Create(env, true);
    assert s.value.context.OnnxCtx?;
    count := GetInputCount(s, true);
    size := GetInputSize(s, 0, true);
  }

  /**
   * A second create in a changed environment neither reloads the
   * configuration nor reselects the backend.
   */
  method InitialisationRunsOnce() returns (first: Option<Session>, second: Option<Session>)
    ensures first.Some? && second.Some?
    ensures first.value.backend == Stub && second.value.backend == Stub
  {
    var shim := new Shim();
    var stubEnv := Environment(None, None, map[BACKEND_VAR := "stub"], FullMachine);
    EnvironmentForcesStub(stubEnv);
    var err;
    err, first := shim.Create(stubEnv, true);
    var onnxEnv := Environment(None, None, map[BACKEND_VAR := "onnx"], FullMachine);
    err, second := shim.Create(onnxEnv, true);
  }
}
