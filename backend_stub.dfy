/**
 * The stub backend: every call succeeds, the sizes and buffers the caller
 * binds are recorded in fixed tables of MAX_TENSORS entries, and an
 * inference zeroes every bound output buffer.
 */
module StubBackend {
  import opened Wrappers
  import opened CStrings
  import opened Backend

  /** Characters of a path kept by char model_path[1024]. */
  const MODEL_PATH_CHARS: nat := 1023

  /** The size reported for a tensor nobody has bound yet. */
  const DEFAULT_SIZE: nat := 1024

  /** The label recorded for a model loaded from memory: "<buffer:%zu bytes>". */
  function BufferLabel(size: nat): string {
    "<buffer:" + Decimal(size) + " bytes>"
  }

  /** A count query's answer: the stored count when positive, else 1. */
  function CountAnswer(count: int): (a: Answer)
    ensures a.rc == 0 && a.written.Some? && a.written.value >= 1
    ensures count > 0 ==> a.written.value == count
    ensures count <= 0 ==> a.written.value == 1
  {
    Ok(if count > 0 then count else 1)
  }

  /** A size query's answer over a size table: the stored size when in the table and positive, else 1024. */
  function SizeAnswer(sizes: seq<nat>, index: int): (a: Answer)
    ensures a.rc == 0 && a.written.Some? && a.written.value > 0
  {
    Ok(if 0 <= index < |sizes| && sizes[index] > 0 then sizes[index] else DEFAULT_SIZE)
  }

  /**
   * Read after write: the size bound at a table index is reported back there
   * (1024 when it was 0), and every other index reports what it did before.
   */
  lemma SizeAfterBinding(sizes: seq<nat>, index: int, size: nat, other: int)
    requires 0 <= index < |sizes|
    ensures SizeAnswer(sizes[index := size], index) == Ok(if size > 0 then size else DEFAULT_SIZE)
    ensures other != index ==> SizeAnswer(sizes[index := size], other) == SizeAnswer(sizes, other)
  {
  }

  /** An index outside the table always reports the default size. */
  lemma SizeOutsideTable(sizes: seq<nat>, index: int)
    requires !(0 <= index < |sizes|)
    ensures SizeAnswer(sizes, index) == Ok(DEFAULT_SIZE)
  {
  }

  /** The sizes column of an output table. */
  function BoundSizes(bindings: seq<Binding>): (r: seq<nat>)
    ensures |r| == |bindings| && forall i :: 0 <= i < |r| ==> r[i] == bindings[i].size
  {
    seq(|bindings|, i requires 0 <= i < |bindings| => bindings[i].size)
  }

  /** memset(b, 0, n). */
  method ZeroPrefix(b: array<bv8>, n: nat)
    requires n <= b.Length
    modifies b
    ensures forall j :: 0 <= j < b.Length ==> b[j] == if j < n then 0 else old(b[j])
  {
    forall j | 0 <= j < n {
      b[j] := 0;
    }
  }

  /** The buffers bound in a table. */
  function Buffers(bindings: seq<Binding>): set<array<bv8>> {
    set i | 0 <= i < |bindings| && bindings[i].buf.Some? :: bindings[i].buf.value
  }

  /** Byte j of b lies in the bound extent of one of the first n slots of the table. */
  ghost predicate Covers(bindings: seq<Binding>, b: array<bv8>, j: int, n: int) {
    exists i :: 0 <= i < n && i < |bindings| && bindings[i].buf == Some(b) && j < bindings[i].size
  }

  /** Extending the covered range by slot n adds exactly that slot's bound extent. */
  lemma CoversStep(bindings: seq<Binding>, n: int)
    requires 0 <= n < |bindings|
    ensures forall b, j :: Covers(bindings, b, j, n + 1) <==>
      Covers(bindings, b, j, n) || (bindings[n].buf == Some(b) && j < bindings[n].size)
  {
    forall b, j | Covers(bindings, b, j, n + 1)
      ensures Covers(bindings, b, j, n) || (bindings[n].buf == Some(b) && j < bindings[n].size)
    {
      var i :| 0 <= i < n + 1 && i < |bindings| && bindings[i].buf == Some(b) && j < bindings[i].size;
      if i < n {
        assert Covers(bindings, b, j, n);
      }
    }
  }

  /**
   * Every byte of the given buffers is zero where the first n slots of the
   * table cover it and holds its snapshot value elsewhere.
   */
  ghost predicate ZeroedUpTo(table: seq<Binding>, buffers: set<array<bv8>>, snap: map<array<bv8>, seq<bv8>>, n: int)
    reads buffers
  {
    forall b :: b in buffers ==>
      && b in snap && |snap[b]| == b.Length
      && forall j :: 0 <= j < b.Length ==> b[j] == if Covers(table, b, j, n) then 0 else snap[b][j]
  }

  /** One turn of stub_invoke's loop: memset of slot i's bound extent when it has a buffer and a size. */
  method ZeroSlot(o: Binding, ghost table: seq<Binding>, ghost i: nat, ghost buffers: set<array<bv8>>,
                  ghost snap: map<array<bv8>, seq<bv8>>)
    requires i < |table| && table[i] == o && Fits(o)
    requires o.buf.Some? ==> o.buf.value in buffers
    requires ZeroedUpTo(table, buffers, snap, i)
    modifies if o.buf.Some? then {o.buf.value} else {}
    ensures ZeroedUpTo(table, buffers, snap, i + 1)
  {
    if o.buf.Some? && o.size > 0 {
      ZeroPrefix(o.buf.value, o.size);
    }
    CoversStep(table, i);
    forall b | b in buffers
      ensures b in snap && |snap[b]| == b.Length
      ensures forall j :: 0 <= j < b.Length ==> b[j] == if Covers(table, b, j, i + 1) then 0 else snap[b][j]
    {
      forall j | 0 <= j < b.Length
        ensures b[j] == if Covers(table, b, j, i + 1) then 0 else snap[b][j]
      {
        if !(o.buf == Some(b) && j < o.size) {
          assert b[j] == old(b[j]);
        }
      }
    }
  }

  /** StubContext. */
  class StubContext {
    var modelPath: string
    /** inputs[i].size, a table of MAX_TENSORS entries */
    var inputs: seq<nat>
    /** outputs[i].size and outputs[i].buf, a table of MAX_TENSORS entries */
    var outputs: seq<Binding>
    var inputCount: int
    var outputCount: int
    var inferenceCount: int

    ghost predicate Valid()
      reads this
    {
      && |inputs| == MAX_TENSORS && |outputs| == MAX_TENSORS
      && 0 <= inputCount <= MAX_TENSORS && 0 <= outputCount <= MAX_TENSORS
      && forall i :: 0 <= i < MAX_TENSORS ==> Fits(outputs[i])
    }

    /** The output buffers currently bound. */
    function OutBuffers(): set<array<bv8>>
      reads this
    {
      Buffers(outputs)
    }

    /** stub_create: a zero-filled context. */
    constructor ()
      ensures Valid()
      ensures modelPath == "" && inputCount == 0 && outputCount == 0 && inferenceCount == 0
      ensures forall i :: 0 <= i < MAX_TENSORS ==> inputs[i] == 0 && outputs[i] == Unbound
    {
      modelPath := "";
      inputs := seq(MAX_TENSORS, _ => 0);
      outputs := seq(MAX_TENSORS, _ => Unbound);
      inputCount := 0;
      outputCount := 0;
      inferenceCount := 0;
    }

    /** stub_load_from_file: records the path and resets both counts to 1. */
    method LoadFromFile(path: string) returns (rc: int)
      requires Valid()
      modifies this
      ensures Valid() && rc == 0
      ensures modelPath == Truncate(path, MODEL_PATH_CHARS)
      ensures inputCount == 1 && outputCount == 1 && inferenceCount == old(inferenceCount)
      ensures inputs == old(inputs) && outputs == old(outputs)
    {
      modelPath := Truncate(path, MODEL_PATH_CHARS);
      inputCount := 1;
      outputCount := 1;
      rc := 0;
    }

    /** stub_load_from_buffer: records the buffer's size and resets both counts to 1. */
    method LoadFromBuffer(size: nat) returns (rc: int)
      requires Valid()
      modifies this
      ensures Valid() && rc == 0
      ensures modelPath == Truncate(BufferLabel(size), MODEL_PATH_CHARS)
      ensures inputCount == 1 && outputCount == 1 && inferenceCount == old(inferenceCount)
      ensures inputs == old(inputs) && outputs == old(outputs)
    {
      modelPath := Truncate(BufferLabel(size), MODEL_PATH_CHARS);
      inputCount := 1;
      outputCount := 1;
      rc := 0;
    }

    /** stub_get_input_count: always succeeds, with the input count once one is recorded and 1 otherwise. */
    function InputCountAnswer(): (a: Answer)
      reads this
      ensures a.rc == 0 && a.written.Some? && a.written.value >= 1
      ensures inputCount > 0 ==> a.written.value == inputCount
      ensures inputCount <= 0 ==> a.written.value == 1
    {
      CountAnswer(inputCount)
    }

    /** stub_get_output_count: always succeeds, with the output count once one is recorded and 1 otherwise. */
    function OutputCountAnswer(): (a: Answer)
      reads this
      ensures a.rc == 0 && a.written.Some? && a.written.value >= 1
      ensures outputCount > 0 ==> a.written.value == outputCount
      ensures outputCount <= 0 ==> a.written.value == 1
    {
      CountAnswer(outputCount)
    }

    /**
     * stub_get_input_size (with the corrected index guard): always succeeds,
     * with the size bound at a table index when it is positive and 1024
     * otherwise.
     */
    function InputSizeAnswer(index: int): (a: Answer)
      requires Valid()
      reads this
      ensures a.rc == 0 && a.written.Some?
      ensures InTable(index) && inputs[index] > 0 ==> a.written.value == inputs[index]
      ensures !(InTable(index) && inputs[index] > 0) ==> a.written.value == DEFAULT_SIZE
    {
      SizeAnswer(inputs, index)
    }

    /**
     * stub_get_output_size (with the corrected index guard): always
     * succeeds, with the size of the output bound at a table index when it
     * is positive and 1024 otherwise.
     */
    function OutputSizeAnswer(index: int): (a: Answer)
      requires Valid()
      reads this
      ensures a.rc == 0 && a.written.Some?
      ensures InTable(index) && outputs[index].size > 0 ==> a.written.value == outputs[index].size
      ensures !(InTable(index) && outputs[index].size > 0) ==> a.written.value == DEFAULT_SIZE
    {
      SizeAnswer(BoundSizes(outputs), index)
    }

    /**
     * stub_set_input: an index in the table records the size and raises the
     * count past it; any other index changes nothing.
     */
    method SetInput(index: int, size: nat) returns (rc: int)
      requires Valid()
      modifies this
      ensures Valid() && rc == 0
      ensures inputs == if InTable(index) then old(inputs)[index := size] else old(inputs)
      ensures outputs == old(outputs)
      ensures inputCount == if InTable(index) then Max(old(inputCount), index + 1) else old(inputCount)
      ensures modelPath == old(modelPath) && outputCount == old(outputCount)
      ensures inferenceCount == old(inferenceCount)
    {
      if InTable(index) {
        inputs := inputs[index := size];
        if index >= inputCount {
          inputCount := index + 1;
        }
      }
      rc := 0;
    }

    /**
     * stub_set_output: an index in the table records the buffer and its size
     * and raises the count past it; any other index changes nothing.
     */
    method SetOutput(index: int, buf: Option<array<bv8>>, size: nat) returns (rc: int)
      requires Valid() && Fits(Binding(buf, size))
      modifies this
      ensures Valid() && rc == 0
      ensures outputs == if InTable(index) then old(outputs)[index := Binding(buf, size)] else old(outputs)
      ensures inputs == old(inputs)
      ensures outputCount == if InTable(index) then Max(old(outputCount), index + 1) else old(outputCount)
      ensures modelPath == old(modelPath) && inputCount == old(inputCount)
      ensures inferenceCount == old(inferenceCount)
    {
      if InTable(index) {
        outputs := outputs[index := Binding(buf, size)];
        if index >= outputCount {
          outputCount := index + 1;
        }
      }
      rc := 0;
    }

    /**
     * stub_invoke: counts the inference and zeroes the bound extent of every
     * output slot below the output count. Bytes outside those extents, the
     * tables and the counts are left as they were.
     */
    method Invoke() returns (rc: int)
      requires Valid()
      modifies this, OutBuffers()
      ensures Valid() && rc == 0
      ensures inferenceCount == old(inferenceCount) + 1
      ensures modelPath == old(modelPath) && inputCount == old(inputCount) && outputCount == old(outputCount)
      ensures inputs == old(inputs) && outputs == old(outputs)
      ensures forall b :: b in old(OutBuffers()) ==>
        forall j :: 0 <= j < b.Length ==> b[j] == if Covers(outputs, b, j, outputCount) then 0 else old(b[j])
    {
      inferenceCount := inferenceCount + 1;
      ghost var table := outputs;
      ghost var buffers := OutBuffers();
      ghost var snap := map b | b in buffers :: b[..];
      var i := 0;
      while i < outputCount && i < MAX_TENSORS
        invariant 0 <= i <= outputCount
        invariant Valid() && outputs == table
        invariant inferenceCount == old(inferenceCount) + 1
        invariant modelPath == old(modelPath) && inputCount == old(inputCount) && outputCount == old(outputCount)
        invariant inputs == old(inputs)
        invariant ZeroedUpTo(table, buffers, snap, i)
      {
        assert Fits(outputs[i]);
        ZeroSlot(outputs[i], table, i, buffers, snap);
        i := i + 1;
      }
      forall b | b in buffers
        ensures forall j :: 0 <= j < b.Length ==> b[j] == if Covers(outputs, b, j, outputCount) then 0 else old(b[j])
      {
        assert snap[b] == old(b[..]);
      }
      rc := 0;
    }
  }
}
