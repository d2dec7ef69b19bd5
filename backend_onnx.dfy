/**
 * The ONNX Runtime adapter's own logic: the element-size table, the tensor
 * byte size computed from a shape, the tensor tables filled after a session
 * is created (clamped to MAX_TENSORS), the index guards of the queries and
 * of the binding tables, the "no session" guard of an inference and the
 * length of each output copy. What ONNX Runtime itself reports or does is
 * given as parameters: OrtLoad for a session creation, OrtRun for a run.
 */
module OnnxBackend {
  import opened Wrappers
  import opened Backend

  // ------------------------------------------------------------------
  // Element types and tensor sizes
  // ------------------------------------------------------------------

  /** The ONNX tensor element types the adapter knows the width of; Unlisted is any other type. */
  datatype ElementType =
    | Float | UInt8 | Int8 | UInt16 | Int16 | Int32 | Int64 | Float16 | Double | Bool
    | Unlisted

  /** ort_element_size: the width in bytes of one element; 4 for a type the table does not list. */
  function ElementSize(t: ElementType): (r: nat)
    ensures r == 1 <==> t == UInt8 || t == Int8 || t == Bool
    ensures r == 2 <==> t == UInt16 || t == Int16 || t == Float16
    ensures r == 4 <==> t == Float || t == Int32 || t == Unlisted
    ensures r == 8 <==> t == Int64 || t == Double
  {
    match t
    case Float => 4
    case UInt8 => 1
    case Int8 => 1
    case UInt16 => 2
    case Int16 => 2
    case Int32 => 4
    case Int64 => 8
    case Float16 => 2
    case Double => 8
    case Bool => 1
    case Unlisted => 4
  }

  /** A dimension as it counts for sizing: a dynamic (zero or negative) dimension counts as 1. */
  function SizingDim(d: int): (r: nat)
    ensures r >= 1
    ensures d > 0 ==> r == d
    ensures d <= 0 ==> r == 1
  {
    if d <= 0 then 1 else d
  }

  /** The product of the sizing dimensions of a shape; 1 for a shape with no dimensions. */
  function DimProduct(shape: seq<int>): (r: nat)
    ensures r >= 1
  {
    if |shape| == 0 then 1 else DimProduct(shape[..|shape| - 1]) * SizingDim(shape[|shape| - 1])
  }

  /**
   * compute_tensor_size, as a value: the element width times the product of
   * the sizing dimensions. A tensor is never smaller than one element, and
   * its size is a whole number of elements.
   */
  function TensorSize(shape: seq<int>, t: ElementType): (r: nat)
    ensures r >= ElementSize(t) && r % ElementSize(t) == 0
  {
    WholeElements(ElementSize(t), DimProduct(shape));
    ElementSize(t) * DimProduct(shape)
  }

  /** compute_tensor_size: the running product over the dimensions. */
  method ComputeTensorSize(shape: seq<int>, t: ElementType) returns (total: nat)
    ensures total == TensorSize(shape, t)
  {
    total := ElementSize(t);
    var i := 0;
    while i < |shape|
      invariant 0 <= i <= |shape|
      invariant total == ElementSize(t) * DimProduct(shape[..i])
    {
      var d := shape[i];
      if d <= 0 {
        d := 1;
      }
      ProductStep(shape, i, ElementSize(t));
      total := total * d;
      i := i + 1;
    }
    assert shape[..i] == shape;
  }

  /** One more dimension multiplies a running product by that dimension's sizing value. */
  lemma ProductStep(shape: seq<int>, i: nat, e: nat)
    requires i < |shape|
    ensures e * DimProduct(shape[..i + 1]) == e * DimProduct(shape[..i]) * SizingDim(shape[i])
  {
    assert shape[..i + 1][..i] == shape[..i];
    var p := DimProduct(shape[..i]);
    assert DimProduct(shape[..i + 1]) == p * SizingDim(shape[i]);
    MulAssoc(e, p, SizingDim(shape[i]));
  }

  lemma MulAssoc(a: nat, b: nat, c: nat)
    ensures a * (b * c) == a * b * c
  {
  }

  /** The product splits over a concatenation of shapes. */
  lemma {:induction false} DimProductAppend(a: seq<int>, b: seq<int>)
    ensures DimProduct(a + b) == DimProduct(a) * DimProduct(b)
  {
    if |b| > 0 {
      var b' := b[..|b| - 1];
      var d := SizingDim(b[|b| - 1]);
      assert (a + b)[..|a + b| - 1] == a + b';
      assert DimProduct(a + b) == DimProduct(a + b') * d;
      assert DimProduct(b) == DimProduct(b') * d;
      DimProductAppend(a, b');
      MulAssoc(DimProduct(a), DimProduct(b'), d);
    } else {
      assert a + b == a;
    }
  }

  /** A shape made only of dynamic dimensions has the size of one element. */
  lemma {:induction false} DynamicShapeSize(shape: seq<int>, t: ElementType)
    requires forall i :: 0 <= i < |shape| ==> shape[i] <= 0
    ensures TensorSize(shape, t) == ElementSize(t)
  {
    if |shape| > 0 {
      DynamicShapeSize(shape[..|shape| - 1], t);
    }
  }

  /** n elements of width e, for n at least 1 and one of the widths the table holds. */
  lemma WholeElements(e: nat, n: nat)
    requires n >= 1 && (e == 1 || e == 2 || e == 4 || e == 8)
    ensures e * n >= e && (e * n) % e == 0
  {
    if e == 1 {
      assert e * n == 1 * n && (1 * n) % 1 == 0;
    } else if e == 2 {
      assert e * n == 2 * n && (2 * n) % 2 == 0;
    } else if e == 4 {
      assert e * n == 4 * n && (4 * n) % 4 == 0;
    } else {
      assert e * n == 8 * n && (8 * n) % 8 == 0;
    }
  }

  /**
   * A static shape [n, h, w, c] of 8-bit elements has n*h*w*c bytes, and a
   * float shape whose batch dimension is dynamic (-1) counts that dimension
   * as 1, at 4 bytes an element.
   */
  lemma StaticShapeExample()
    ensures TensorSize([1, 224, 224, 3], UInt8) == 150528
    ensures TensorSize([-1, 224, 224, 3], Float) == 602112
  {
    assert [1, 224, 224, 3][..3] == [1, 224, 224];
    assert [1, 224, 224][..2] == [1, 224];
    assert [1, 224][..1] == [1];
    assert [-1, 224, 224, 3][..3] == [-1, 224, 224];
    assert [-1, 224, 224][..2] == [-1, 224];
    assert [-1, 224][..1] == [-1];
    assert [-1][..0] == [];
    assert DimProduct([-1]) == 1;
    assert DimProduct([-1, 224, 224, 3]) == 150528;
  }

  // ------------------------------------------------------------------
  // What ONNX Runtime reports
  // ------------------------------------------------------------------

  /** A tensor of the model as the session reports it: element type and dimensions. */
  datatype OrtTensor = OrtTensor(elemType: ElementType, shape: seq<int>)

  /** The adapter's record of a tensor: the reported type and shape, and the byte size computed from them. */
  datatype TensorMeta = TensorMeta(elemType: ElementType, shape: seq<int>, size: nat)

  const NoTensor: TensorMeta := TensorMeta(Float, [], 0)

  function MetaOf(t: OrtTensor): TensorMeta {
    TensorMeta(t.elemType, t.shape, TensorSize(t.shape, t.elemType))
  }

  /**
   * The outcome of creating a session from a model: rejected, or created
   * with the model's inputs and outputs. The session handle is the engine's
   * out-parameter, so a rejection says whether the engine left it NULL
   * (cleared) or kept the handle it held.
   */
  datatype OrtLoad =
    | SessionRejected(cleared: bool)
    | SessionCreated(inputs: seq<OrtTensor>, outputs: seq<OrtTensor>)

  /**
   * The outcome of a run: rejected (building an input tensor or Run itself
   * failed), or completed, telling for each output slot whether the engine
   * produced a tensor there.
   */
  datatype OrtRun = RunRejected | RunCompleted(produced: seq<bool>)

  /** The tensor sizes an inference copies from: the recorded size of each slot the run produced. */
  function Produced(meta: seq<TensorMeta>, produced: seq<bool>): (r: seq<Option<nat>>)
    ensures |r| == |meta|
    ensures forall i :: 0 <= i < |meta| ==>
      r[i] == if i < |produced| && produced[i] then Some(meta[i].size) else None
  {
    seq(|meta|, i requires 0 <= i < |meta| => if i < |produced| && produced[i] then Some(meta[i].size) else None)
  }

  /**
   * populate_tensor_info for one direction: records the first
   * min(|reported|, table size) tensors with their computed byte sizes and
   * leaves the rest of the table as it was.
   */
  method FillTable(table: array<TensorMeta>, reported: seq<OrtTensor>) returns (count: nat)
    modifies table
    ensures count == Min(|reported|, table.Length)
    ensures forall i :: 0 <= i < table.Length ==>
      table[i] == if i < count then MetaOf(reported[i]) else old(table[i])
  {
    count := |reported|;
    if count > table.Length {
      count := table.Length;
    }
    var i := 0;
    while i < count
      invariant 0 <= i <= count
      invariant forall k :: 0 <= k < table.Length ==>
        table[k] == if k < i then MetaOf(reported[k]) else old(table[k])
    {
      var t := reported[i];
      var size := ComputeTensorSize(t.shape, t.elemType);
      table[i] := TensorMeta(t.elemType, t.shape, size);
      i := i + 1;
    }
  }

  // ------------------------------------------------------------------
  // The context
  // ------------------------------------------------------------------

  /** OnnxContext. */
  class OnnxContext {
    /** Whether a session has been created. */
    var session: bool
    const inputs: array<TensorMeta>
    var inputCount: nat
    const outputs: array<TensorMeta>
    var outputCount: nat
    const inputBindings: array<Binding>
    const outputBindings: array<Binding>

    ghost predicate Valid()
      reads this, outputBindings
    {
      && inputs.Length == MAX_TENSORS && outputs.Length == MAX_TENSORS
      && inputBindings.Length == MAX_TENSORS && outputBindings.Length == MAX_TENSORS
      && inputs != outputs && inputBindings != outputBindings
      && inputCount <= MAX_TENSORS && outputCount <= MAX_TENSORS
      && forall i :: 0 <= i < MAX_TENSORS ==> Fits(outputBindings[i])
    }

    /** onnx_create once ONNX Runtime's environment and options are set up: a zero-filled context. */
    constructor ()
      ensures Valid() && fresh(inputs) && fresh(outputs) && fresh(inputBindings) && fresh(outputBindings)
      ensures !session && inputCount == 0 && outputCount == 0
      ensures forall i :: 0 <= i < MAX_TENSORS ==> inputBindings[i] == Unbound && outputBindings[i] == Unbound
    {
      session := false;
      inputs := new TensorMeta[MAX_TENSORS](_ => NoTensor);
      outputs := new TensorMeta[MAX_TENSORS](_ => NoTensor);
      inputBindings := new Binding[MAX_TENSORS](_ => Unbound);
      outputBindings := new Binding[MAX_TENSORS](_ => Unbound);
      inputCount := 0;
      outputCount := 0;
    }

    /**
     * The context after creating a session as `load` says: a rejection keeps
     * the counts and the tensor tables, and the session only when the engine
     * did not clear its handle; a created session fills both tensor tables,
     * each clamped to MAX_TENSORS entries, and keeps the rest of each table.
     */
    twostate predicate LoadedFrom(load: OrtLoad)
      reads this, inputs, outputs
    {
      match load
      case SessionRejected(cleared) =>
        && session == (old(session) && !cleared)
        && inputCount == old(inputCount) && outputCount == old(outputCount)
        && inputs[..] == old(inputs[..]) && outputs[..] == old(outputs[..])
      case SessionCreated(reportedInputs, reportedOutputs) =>
        && session
        && inputCount == Min(|reportedInputs|, MAX_TENSORS) && outputCount == Min(|reportedOutputs|, MAX_TENSORS)
        && (forall i :: 0 <= i < inputs.Length ==>
              inputs[i] == if i < inputCount then MetaOf(reportedInputs[i]) else old(inputs[i]))
        && (forall i :: 0 <= i < outputs.Length ==>
              outputs[i] == if i < outputCount then MetaOf(reportedOutputs[i]) else old(outputs[i]))
    }

    /**
     * The common part of onnx_load_from_file and onnx_load_from_buffer: a
     * rejected session creation fails with -1, a created one fills the
     * tensor tables and succeeds.
     */
    method Load(load: OrtLoad) returns (rc: int)
      requires Valid()
      modifies this, inputs, outputs
      ensures Valid()
      ensures rc == if load.SessionCreated? then 0 else -1
      ensures LoadedFrom(load)
    {
      if load.SessionRejected? {
        session := session && !load.cleared;
        return -1;
      }
      session := true;
      inputCount := FillTable(inputs, load.inputs);
      outputCount := FillTable(outputs, load.outputs);
      rc := 0;
    }

    /** onnx_load_from_file: the session is created from the file at path. */
    method LoadFromFile(path: string, load: OrtLoad) returns (rc: int)
      requires Valid()
      modifies this, inputs, outputs
      ensures Valid()
      ensures rc == if load.SessionCreated? then 0 else -1
      ensures LoadedFrom(load)
    {
      rc := Load(load);
    }

    /** onnx_load_from_buffer: the session is created from the model bytes in memory. */
    method LoadFromBuffer(size: nat, load: OrtLoad) returns (rc: int)
      requires Valid()
      modifies this, inputs, outputs
      ensures Valid()
      ensures rc == if load.SessionCreated? then 0 else -1
      ensures LoadedFrom(load)
    {
      rc := Load(load);
    }

    /**
     * onnx_get_input_count: succeeds with or without a session, with the
     * recorded count, which the load clamped to the table size.
     */
    function InputCountAnswer(): (a: Answer)
      requires Valid()
      reads this, outputBindings
      ensures a.rc == 0 && a.written.Some? && a.written.value <= MAX_TENSORS
      ensures a.written.value == inputCount
    {
      Ok(inputCount)
    }

    /**
     * onnx_get_output_count: succeeds with or without a session, with the
     * recorded count, which the load clamped to the table size.
     */
    function OutputCountAnswer(): (a: Answer)
      requires Valid()
      reads this, outputBindings
      ensures a.rc == 0 && a.written.Some? && a.written.value <= MAX_TENSORS
      ensures a.written.value == outputCount
    {
      Ok(outputCount)
    }

    /** onnx_get_input_size: fails unless (size_t)index is below the input count. */
    function InputSizeAnswer(index: int): (a: Answer)
      requires Valid() && IsInt32(index)
      reads this, outputBindings, inputs
      ensures a.rc == 0 <==> 0 <= index < inputCount
      ensures a.rc == 0 ==> a == Ok(inputs[index].size)
      ensures a.rc != 0 ==> a == Failed
    {
      SizeCastRejectsNegative(index, inputCount);
      if SizeCast(index) >= inputCount then Failed else Ok(inputs[index].size)
    }

    /** onnx_get_output_size: fails unless (size_t)index is below the output count. */
    function OutputSizeAnswer(index: int): (a: Answer)
      requires Valid() && IsInt32(index)
      reads this, outputBindings, outputs
      ensures a.rc == 0 <==> 0 <= index < outputCount
      ensures a.rc == 0 ==> a == Ok(outputs[index].size)
      ensures a.rc != 0 ==> a == Failed
    {
      SizeCastRejectsNegative(index, outputCount);
      if SizeCast(index) >= outputCount then Failed else Ok(outputs[index].size)
    }

    /** onnx_set_input: an index in the table records exactly that slot; any other index fails. */
    method SetInput(index: int, binding: Binding) returns (rc: int)
      requires Valid() && IsInt32(index)
      modifies inputBindings
      ensures Valid()
      ensures rc == 0 <==> InTable(index)
      ensures rc != 0 ==> rc == -1
      ensures inputBindings[..] == if InTable(index) then old(inputBindings[..])[index := binding] else old(inputBindings[..])
    {
      SizeCastRejectsNegative(index, MAX_TENSORS);
      if SizeCast(index) >= MAX_TENSORS {
        return -1;
      }
      inputBindings[index] := binding;
      rc := 0;
    }

    /** onnx_set_output: an index in the table records exactly that slot; any other index fails. */
    method SetOutput(index: int, binding: Binding) returns (rc: int)
      requires Valid() && IsInt32(index) && Fits(binding)
      modifies outputBindings
      ensures Valid()
      ensures rc == 0 <==> InTable(index)
      ensures rc != 0 ==> rc == -1
      ensures outputBindings[..] == if InTable(index) then old(outputBindings[..])[index := binding] else old(outputBindings[..])
    {
      SizeCastRejectsNegative(index, MAX_TENSORS);
      if SizeCast(index) >= MAX_TENSORS {
        return -1;
      }
      outputBindings[index] := binding;
      rc := 0;
    }

    /**
     * onnx_invoke: fails without a session or when the run is rejected;
     * otherwise copies, slot by slot below the output count, each output the
     * run produced into its bound buffer, clamped to the smaller of the
     * binding's size and the tensor's recorded size. The copies are returned
     * as a plan; nothing in the context changes.
     */
    method Invoke(run: OrtRun) returns (rc: int, copies: seq<Copy>)
      requires Valid()
      ensures rc == 0 <==> session && run.RunCompleted?
      ensures rc != 0 ==> rc == -1 && copies == []
      ensures rc == 0 ==> copies == CopyPlan(outputBindings[..], Produced(outputs[..], run.produced), outputCount)
      ensures forall c :: c in copies ==>
        c.slot < outputCount && outputBindings[c.slot].buf.Some? && c.bytes <= outputBindings[c.slot].size
    {
      if !session {
        return -1, [];
      }
      if run.RunRejected? {
        return -1, [];
      }
      ghost var tensors := Produced(outputs[..], run.produced);
      copies := [];
      var i := 0;
      while i < outputCount
        invariant 0 <= i <= outputCount
        invariant copies == CopyPlan(outputBindings[..], tensors, i)
      {
        var b := outputBindings[i];
        if i < |run.produced| && run.produced[i] && b.buf.Some? {
          var copySize := b.size;
          if copySize > outputs[i].size {
            copySize := outputs[i].size;
          }
          copies := copies + [Copy(i, copySize)];
        }
        i := i + 1;
      }
      rc := 0;
      CopyPlanSlots(outputBindings[..], tensors, outputCount);
    }
  }
}
