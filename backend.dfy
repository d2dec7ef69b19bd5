/**
 * What the three backends share: their identity, the size of their binding
 * tables, the shape of a query's answer, a bound buffer, and the plan of
 * output copies an inference performs.
 */
module Backend {
  import opened Wrappers

  datatype BackendKind = Onnx | TfLite | Stub {
    /** The name each backend's table carries. */
    function Name(): (r: string)
      ensures r == "onnx" <==> this == Onnx
      ensures r == "tflite" <==> this == TfLite
      ensures r == "stub" <==> this == Stub
    {
      match this
      case Onnx => "onnx"
      case TfLite => "tflite"
      case Stub => "stub"
    }
  }

  /** The size of every per-index table in the three backends. */
  const MAX_TENSORS: nat := 32

  /** The indices a binding table has room for. */
  predicate InTable(index: int) {
    0 <= index < MAX_TENSORS
  }

  /** A caller's buffer with the size it was bound with; None is a NULL buffer. */
  datatype Binding = Binding(buf: Option<array<bv8>>, size: nat)

  const Unbound: Binding := Binding(None, 0)

  /** A bound buffer really holds the bytes its size claims. */
  predicate Fits(b: Binding) {
    b.buf.Some? ==> b.size <= b.buf.value.Length
  }

  /**
   * What a backend call returns: its return code, and the value it stores
   * through the caller's out-pointer, None when it stores nothing.
   */
  datatype Answer = Answer(rc: int, written: Option<nat>)

  function Ok(v: nat): Answer {
    Answer(0, Some(v))
  }

  const Failed: Answer := Answer(-1, None)

  /** The range of a C int, the type of every tensor index in the interface. */
  predicate IsInt32(x: int) {
    -0x8000_0000 <= x < 0x8000_0000
  }

  /** The conversion of an int index to size_t (64 bits). */
  function SizeCast(index: int): nat
    requires IsInt32(index)
  {
    if index < 0 then index + 0x1_0000_0000_0000_0000 else index
  }

  /** A negative index becomes a huge size_t, so a `(size_t)index >= n` guard rejects it. */
  lemma SizeCastRejectsNegative(index: int, n: nat)
    requires IsInt32(index) && n <= 0x8000_0000
    ensures SizeCast(index) < n <==> 0 <= index < n
  {
  }

  function Max(a: int, b: int): (r: int)
    ensures r >= a && r >= b && (r == a || r == b)
  {
    if a >= b then a else b
  }

  function Min(a: nat, b: nat): (r: nat)
    ensures r <= a && r <= b && (r == a || r == b)
  {
    if a <= b then a else b
  }

  // ------------------------------------------------------------------
  // Output copies after an inference
  // ------------------------------------------------------------------

  /** One output copied after an inference: its slot and the number of bytes. */
  datatype Copy = Copy(slot: nat, bytes: nat)

  /** The byte size of the engine's tensor at a slot, None when there is none. */
  function TensorAt(sizes: seq<Option<nat>>, i: nat): Option<nat> {
    if i < |sizes| then sizes[i] else None
  }

  /**
   * The copies for slots 0 .. n-1 in order: a slot is copied when its buffer
   * is bound and the engine has a tensor for it, and the length is the
   * smaller of the binding's size and the tensor's size.
   */
  function CopyPlan(bindings: seq<Binding>, tensors: seq<Option<nat>>, n: nat): (r: seq<Copy>)
    requires n <= |bindings|
    ensures |r| <= n
  {
    if n == 0 then []
    else
      var i := n - 1;
      var b := bindings[i];
      var t := TensorAt(tensors, i);
      CopyPlan(bindings, tensors, i) +
        (if b.buf.Some? && t.Some? then [Copy(i, Min(b.size, t.value))] else [])
  }

  /** The plan copies slot i exactly when it is below n, bound and has a tensor, and then with the clamped length. */
  lemma {:induction false} CopyPlanSlots(bindings: seq<Binding>, tensors: seq<Option<nat>>, n: nat)
    requires n <= |bindings|
    ensures forall c :: c in CopyPlan(bindings, tensors, n) ==>
      && c.slot < n && bindings[c.slot].buf.Some? && TensorAt(tensors, c.slot).Some?
      && c.bytes == Min(bindings[c.slot].size, TensorAt(tensors, c.slot).value)
    ensures forall i :: 0 <= i < n && bindings[i].buf.Some? && TensorAt(tensors, i).Some? ==>
      Copy(i, Min(bindings[i].size, TensorAt(tensors, i).value)) in CopyPlan(bindings, tensors, n)
  {
    if n > 0 {
      CopyPlanSlots(bindings, tensors, n - 1);
    }
  }

  predicate SlotsIncreasing(p: seq<Copy>) {
    forall j, k :: 0 <= j < k < |p| ==> p[j].slot < p[k].slot
  }

  /** The plan lists slots in increasing order, so no slot is copied twice. */
  lemma {:induction false} CopyPlanOrdered(bindings: seq<Binding>, tensors: seq<Option<nat>>, n: nat)
    requires n <= |bindings|
    ensures SlotsIncreasing(CopyPlan(bindings, tensors, n))
  {
    if n > 0 {
      CopyPlanOrdered(bindings, tensors, n - 1);
      CopyPlanSlots(bindings, tensors, n - 1);
      var p := CopyPlan(bindings, tensors, n - 1);
      var q := CopyPlan(bindings, tensors, n);
      assert q[..|p|] == p;
      forall j, k | 0 <= j < k < |q| ensures q[j].slot < q[k].slot {
        assert j < |p|;
        assert q[j] == p[j] && p[j] in p;
        if k >= |p| {
          assert q == p + [Copy(n - 1, q[k].bytes)];
          assert q[k].slot == n - 1;
          assert p[j].slot < n - 1;
        } else {
          assert q[k] == p[k];
          assert SlotsIncreasing(p);
        }
      }
    }
  }

  /** No copy is longer than the buffer it writes. */
  lemma CopiesFitBuffers(bindings: seq<Binding>, tensors: seq<Option<nat>>, n: nat)
    requires n <= |bindings|
    requires forall i :: 0 <= i < |bindings| ==> Fits(bindings[i])
    ensures forall c :: c in CopyPlan(bindings, tensors, n) ==>
      c.slot < n && bindings[c.slot].buf.Some? && c.bytes <= bindings[c.slot].buf.value.Length
  {
    CopyPlanSlots(bindings, tensors, n);
  }

  // ------------------------------------------------------------------
  // The index guard of the stub tables and of the TFLite output table
  // ------------------------------------------------------------------

  /** The guard `index < MAX_TENSORS` as written, on a signed int index. */
  predicate GuardAsWritten(index: int) {
    index < MAX_TENSORS
  }

  /** The guard as written admits a negative index, which is outside the table. */
  lemma GuardAdmitsNegativeIndex()
    ensures GuardAsWritten(-1) && !InTable(-1)
  {
  }
}
