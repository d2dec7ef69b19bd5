/**
 * The public vocabulary of the vendor runtime API that the shim mirrors:
 * result codes, the tensor information record and the QoS options record.
 */
module RuntimeApi {
  import opened Wrappers

  /** The result codes every NeuronRuntime_* call returns. */
  datatype NeuronError =
    | NoError
    | BadData
    | BadState
    | UnexpectedNull
    | Incomplete
    | OutputInsufficient
    | Unavailable
    | OpFailed
    | Unmappable
  {
    /** The numeric value of the code in the C enumeration. */
    function Code(): (c: nat)
      ensures c <= 8
      ensures c == 0 <==> this == NoError
    {
      match this
      case NoError => 0
      case BadData => 1
      case BadState => 2
      case UnexpectedNull => 3
      case Incomplete => 4
      case OutputInsufficient => 5
      case Unavailable => 6
      case OpFailed => 7
      case Unmappable => 8
    }
  }

  /** The C enumeration gives every result code its own value. */
  lemma CodesAreDistinct(a: NeuronError, b: NeuronError)
    ensures a.Code() == b.Code() <==> a == b
  {
  }

  /**
   * The shim's uniform translation of what a backend operation returned:
   * 0 is success, anything else is an operation failure.
   */
  function FromBackend(rc: int): (e: NeuronError)
    ensures e == NoError <==> rc == 0
    ensures e == OpFailed <==> rc != 0
  {
    if rc == 0 then NoError else OpFailed
  }

  /**
   * What a call that writes through an out-pointer produced: its result code
   * and the value written through the pointer, None when nothing was written.
   */
  datatype Reply<T> = Reply(error: NeuronError, out: Option<T>)

  /** NeuronTensorInfo. */
  datatype TensorInfo = TensorInfo(
    dimensions: seq<nat>,
    dimensionCount: nat,
    elementType: nat,
    scale: real,
    zeroPoint: int,
    sizeBytes: nat)

  const DIMENSION_SLOTS: nat := 8

  /** A NeuronTensorInfo after memset(info, 0, sizeof *info). */
  const ZeroedInfo: TensorInfo := TensorInfo([0, 0, 0, 0, 0, 0, 0, 0], 0, 0, 0.0, 0, 0)

  datatype Priority = PriorityLow | PriorityMed | PriorityHigh

  /** QoSOptions; the profiled-data pointer is None when NULL. */
  datatype QoSOptions = QoSOptions(
    priority: Priority,
    boostValue: nat,
    abortTime: nat,
    deadline: nat,
    profiledQoSData: Option<nat>,
    profiledQoSDataSize: nat)
}
