/**
 * The TensorFlow Lite adapter's own logic: the model and interpreter state
 * a load leaves behind, the "no interpreter" guards of the queries, of
 * set_input and of an inference, the output binding table that works
 * without a model, and the length of each output copy. What TensorFlow
 * Lite itself reports or does is given as parameters.
 */
module TfliteBackend {
  import opened Wrappers
  import opened Backend

  /** A built interpreter, seen through the byte sizes of its input and output tensors. */
  datatype Interpreter = Interpreter(inputs: seq<nat>, outputs: seq<nat>)

  /**
   * What building an interpreter from a model yields: creation failed (no
   * interpreter), tensor allocation failed (an interpreter that is kept),
   * or a usable interpreter.
   */
  datatype BuildOutcome = CreateFailed | AllocateFailed(interp: Interpreter) | Built(interp: Interpreter)

  /** What loading a model yields: the model was rejected, or parsed and then built as given. */
  datatype TfliteLoad = ModelRejected | ModelParsed(build: BuildOutcome)

  /** An interpreter's tensor sizes as the optional tensors an index lookup finds. */
  function Tensors(sizes: seq<nat>): (r: seq<Option<nat>>)
    ensures |r| == |sizes| && forall i :: 0 <= i < |r| ==> r[i] == Some(sizes[i])
  {
    seq(|sizes|, i requires 0 <= i < |sizes| => Some(sizes[i]))
  }

  /** A tensor lookup by a C int index: the tensor exists exactly for the indices the interpreter has. */
  function Lookup(sizes: seq<nat>, index: int): (r: Option<nat>)
    ensures r.Some? <==> 0 <= index < |sizes|
    ensures r.Some? ==> r.value == sizes[index]
  {
    if 0 <= index < |sizes| then Some(sizes[index]) else None
  }

  /** TFLiteContext. */
  class TfliteContext {
    /** Whether a model is held. */
    var model: bool
    var interpreter: Option<Interpreter>
    const outputBindings: array<Binding>
    var outputBindingCount: int

    ghost predicate Valid()
      reads this, outputBindings
    {
      && outputBindings.Length == MAX_TENSORS
      && 0 <= outputBindingCount <= MAX_TENSORS
      && forall i :: 0 <= i < MAX_TENSORS ==> Fits(outputBindings[i])
    }

    /** tflite_create: no model, no interpreter, no output bound. */
    constructor ()
      ensures Valid() && fresh(outputBindings)
      ensures !model && interpreter == None && outputBindingCount == 0
      ensures forall i :: 0 <= i < MAX_TENSORS ==> outputBindings[i] == Unbound
    {
      model := false;
      interpreter := None;
      outputBindings := new Binding[MAX_TENSORS](_ => Unbound);
      outputBindingCount := 0;
    }

    /**
     * tflite_build_interpreter: fails without a model; otherwise the
     * interpreter is replaced by what the build yields and the call succeeds
     * only when the tensors could be allocated.
     */
    method BuildInterpreter(build: BuildOutcome) returns (rc: int)
      requires Valid()
      modifies this
      ensures Valid() && model == old(model)
      ensures outputBindingCount == old(outputBindingCount)
      ensures rc == 0 <==> model && build.Built?
      ensures rc != 0 ==> rc == -1
      ensures !model ==> interpreter == old(interpreter)
      ensures model ==> interpreter == if build.CreateFailed? then None else Some(build.interp)
    {
      if !model {
        return -1;
      }
      match build
      case CreateFailed =>
        interpreter := None;
        rc := -1;
      case AllocateFailed(i) =>
        interpreter := Some(i);
        rc := -1;
      case Built(i) =>
        interpreter := Some(i);
        rc := 0;
    }

    /**
     * The context after loading as `load` says: the model is held exactly
     * when it was parsed; a rejected model leaves any earlier interpreter in
     * place; a parsed model's build replaces it, with no interpreter when
     * creation failed and the new one, allocated or not, otherwise. The
     * output binding count is kept.
     */
    twostate predicate LoadedFrom(load: TfliteLoad)
      reads this
    {
      && (model <==> load.ModelParsed?)
      && outputBindingCount == old(outputBindingCount)
      && match load
         case ModelRejected => interpreter == old(interpreter)
         case ModelParsed(build) => interpreter == if build.CreateFailed? then None else Some(build.interp)
    }

    /**
     * The common part of tflite_load_from_file and tflite_load_from_buffer:
     * succeeds only when the model is parsed and its interpreter built with
     * its tensors allocated.
     */
    method Load(load: TfliteLoad) returns (rc: int)
      requires Valid()
      modifies this
      ensures Valid()
      ensures rc == if load.ModelParsed? && load.build.Built? then 0 else -1
      ensures LoadedFrom(load)
    {
      match load
      case ModelRejected =>
        model := false;
        rc := -1;
      case ModelParsed(build) =>
        model := true;
        rc := BuildInterpreter(build);
    }

    /** tflite_load_from_file. */
    method LoadFromFile(path: string, load: TfliteLoad) returns (rc: int)
      requires Valid()
      modifies this
      ensures Valid()
      ensures rc == if load.ModelParsed? && load.build.Built? then 0 else -1
      ensures LoadedFrom(load)
    {
      rc := Load(load);
    }

    /** tflite_load_from_buffer. */
    method LoadFromBuffer(size: nat, load: TfliteLoad) returns (rc: int)
      requires Valid()
      modifies this
      ensures Valid()
      ensures rc == if load.ModelParsed? && load.build.Built? then 0 else -1
      ensures LoadedFrom(load)
    {
      rc := Load(load);
    }

    /** tflite_get_input_count: fails without an interpreter, else the interpreter's input count. */
    function InputCountAnswer(): (a: Answer)
      reads this
      ensures a.rc == 0 <==> interpreter.Some?
      ensures a.rc == 0 ==> a == Ok(|interpreter.value.inputs|)
      ensures a.rc != 0 ==> a == Failed
    {
      if interpreter.None? then Failed else Ok(|interpreter.value.inputs|)
    }

    /** tflite_get_output_count: fails without an interpreter, else the interpreter's output count. */
    function OutputCountAnswer(): (a: Answer)
      reads this
      ensures a.rc == 0 <==> interpreter.Some?
      ensures a.rc == 0 ==> a == Ok(|interpreter.value.outputs|)
      ensures a.rc != 0 ==> a == Failed
    {
      if interpreter.None? then Failed else Ok(|interpreter.value.outputs|)
    }

    /** tflite_get_input_size: fails without an interpreter or a tensor at the index, else its byte size. */
    function InputSizeAnswer(index: int): (a: Answer)
      reads this
      ensures a.rc == 0 <==> interpreter.Some? && 0 <= index < |interpreter.value.inputs|
      ensures a.rc == 0 ==> a == Ok(interpreter.value.inputs[index])
      ensures a.rc != 0 ==> a == Failed
    {
      if interpreter.None? then Failed
      else
        var t := Lookup(interpreter.value.inputs, index);
        if t.None? then Failed else Ok(t.value)
    }

    /** tflite_get_output_size: fails without an interpreter or a tensor at the index, else its byte size. */
    function OutputSizeAnswer(index: int): (a: Answer)
      reads this
      ensures a.rc == 0 <==> interpreter.Some? && 0 <= index < |interpreter.value.outputs|
      ensures a.rc == 0 ==> a == Ok(interpreter.value.outputs[index])
      ensures a.rc != 0 ==> a == Failed
    {
      if interpreter.None? then Failed
      else
        var t := Lookup(interpreter.value.outputs, index);
        if t.None? then Failed else Ok(t.value)
    }

    /**
     * tflite_set_input: copies the caller's bytes into the input tensor at
     * once, so it fails without an interpreter, without a tensor at the
     * index, or when the engine refuses the copy (copied is false). Nothing
     * in the context changes.
     */
    function SetInputResult(index: int, copied: bool): (rc: int)
      reads this
      ensures rc == 0 <==> interpreter.Some? && 0 <= index < |interpreter.value.inputs| && copied
      ensures rc != 0 ==> rc == -1
    {
      if interpreter.None? then -1
      else if Lookup(interpreter.value.inputs, index).None? then -1
      else if !copied then -1
      else 0
    }

    /**
     * tflite_set_output (with the corrected index guard): works with or
     * without a model; an index in the table records the binding and raises
     * the binding count past it, any other index fails and changes nothing.
     */
    method SetOutput(index: int, binding: Binding) returns (rc: int)
      requires Valid() && Fits(binding)
      modifies this, outputBindings
      ensures Valid()
      ensures rc == 0 <==> InTable(index)
      ensures rc != 0 ==> rc == -1
      ensures outputBindings[..] == if InTable(index) then old(outputBindings[..])[index := binding] else old(outputBindings[..])
      ensures outputBindingCount == if InTable(index) then Max(old(outputBindingCount), index + 1) else old(outputBindingCount)
      ensures model == old(model) && interpreter == old(interpreter)
    {
      if !InTable(index) {
        return -1;
      }
      outputBindings[index] := binding;
      if index >= outputBindingCount {
        outputBindingCount := index + 1;
      }
      rc := 0;
    }

    /**
     * tflite_invoke: fails without an interpreter or when the engine's
     * Invoke fails (ran is false); otherwise copies, slot by slot below the
     * binding count, each bound slot that has an output tensor, clamped to
     * the smaller of the binding's size and the tensor's byte size. The
     * copies are returned as a plan; nothing in the context changes.
     */
    method Invoke(ran: bool) returns (rc: int, copies: seq<Copy>)
      requires Valid()
      ensures rc == 0 <==> interpreter.Some? && ran
      ensures rc != 0 ==> rc == -1 && copies == []
      ensures rc == 0 ==> copies == CopyPlan(outputBindings[..], Tensors(interpreter.value.outputs), outputBindingCount)
      ensures forall c :: c in copies ==>
        c.slot < outputBindingCount && outputBindings[c.slot].buf.Some? && c.bytes <= outputBindings[c.slot].size
    {
      if interpreter.None? {
        return -1, [];
      }
      if !ran {
        return -1, [];
      }
      var sizes := interpreter.value.outputs;
      ghost var tensors := Tensors(sizes);
      copies := [];
      var i := 0;
      while i < outputBindingCount
        invariant 0 <= i <= outputBindingCount
        invariant copies == CopyPlan(outputBindings[..], tensors, i)
      {
        var b := outputBindings[i];
        if b.buf.Some? {
          var t := Lookup(sizes, i);
          if t.Some? {
            var copySize := b.size;
            if copySize > t.value {
              copySize := t.value;
            }
            copies := copies + [Copy(i, copySize)];
          }
        }
        i := i + 1;
      }
      rc := 0;
      CopyPlanSlots(outputBindings[..], tensors, outputBindingCount);
    }
  }
}
