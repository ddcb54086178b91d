/** Identifiers, machine integers, errors and wire records shared by every other module.

    Ids are 16- or 32-byte random values in the system; only equality between
    them matters, so a number stands for one.
 */
module Types {

  const U32_MAX: int := 0xFFFF_FFFF
  const U64_MAX: int := 0xFFFF_FFFF_FFFF_FFFF
  const I64_MAX: int := 0x7FFF_FFFF_FFFF_FFFF

  type Byte = x: int | 0 <= x < 256
  type Bytes = seq<Byte>

  type Epoch = int
  type NodeId = int
  type SessionId = int
  type LeaseId = int
  type TaskId = int
  type RequestId = int
  /** A 32-byte BLAKE3 digest; zero is the all-zero "unhashed" digest. */
  type Digest = int
  /** Object ids are digests: content-derived for hashed puts, random otherwise. */
  type ObjectId = Digest

  const UNHASHED: Digest := 0

  const MAX_FRAME_BYTES: nat := 8 * 1024 * 1024
  const MAX_OBJECT_BYTES: nat := MAX_FRAME_BYTES - 64 * 1024

  /** A resource, operation or address name. */
  datatype Name = Name(text: string)

  datatype Option<+T> = None | Some(value: T)

  datatype Result<+T> = Ok(value: T) | Err(error: Error)

  datatype Error =
    | Protocol(message: string)
    | InvalidAddress(message: string)
    | InvalidResource(message: string)
    | OperationUnavailable(key: OperationKey)
    | OperationConflict(key: OperationKey)
    | IllegalTransition(message: string)
    | StaleFence
    | StaleEpoch
    | CapacityExceeded(message: string)
    | TaskNotFound(task: TaskId)
    | ObjectNotFound(oid: ObjectId)
    | ObjectPending(oid: ObjectId)
    | ObjectInUse(oid: ObjectId)
    | ObjectLost(oid: ObjectId)
    | ObjectConflict(oid: ObjectId)
    | DependencyFailed(oid: ObjectId)

  datatype Codec = BincodeV1 | PythonPickleV1 | JsonV1 | RawBytes

  datatype OperationKey = OperationKey(namespace: Name, name: Name, version: int)

  datatype OperationDescriptor = OperationDescriptor(
    key: OperationKey,
    inputCodec: Codec,
    outputCodec: Codec,
    maxInlineArgBytes: int)

  datatype TaskArg = Inline(codec: Codec, bytes: Bytes) | ObjectArg(id: ObjectId)

  datatype WorkerIdentity = WorkerIdentity(
    node: NodeId,
    workerEpoch: Epoch,
    session: SessionId,
    coordinatorEpoch: Epoch)

  datatype TaskFence = TaskFence(task: TaskId, attempt: int, lease: LeaseId)

  datatype FailureClass = Transient | Permanent

  /** Addition that sticks at the largest 64-bit value. */
  function SatAdd(a: int, b: int): int
  {
    if a + b > U64_MAX then U64_MAX else a + b
  }

  /** Subtraction that sticks at zero. */
  function SatSub(a: int, b: int): int
  {
    if a < b then 0 else a - b
  }

  function Min(a: int, b: int): int
  {
    if a <= b then a else b
  }

  function Max(a: int, b: int): int
  {
    if a >= b then a else b
  }

  predicate NoDuplicates<T(==)>(s: seq<T>)
  {
    forall i, j :: 0 <= i < j < |s| ==> s[i] != s[j]
  }

  function Elements<T>(s: seq<T>): set<T>
  {
    set x | x in s
  }

  /** `order` lists every member of `members` exactly once: one way a hash table could be visited. */
  predicate IsOrder<T(==)>(order: seq<T>, members: set<T>)
  {
    NoDuplicates(order) && Elements(order) == members
  }

  lemma NoDuplicatesConcat<T>(a: seq<T>, b: seq<T>)
    requires NoDuplicates(a) && NoDuplicates(b)
    requires forall x :: x in a ==> x !in b
    ensures NoDuplicates(a + b)
  {
    forall i, j | 0 <= i < j < |a + b| ensures (a + b)[i] != (a + b)[j] {
      if i < |a| <= j {
        assert (a + b)[i] in a && (a + b)[j] in b;
      }
    }
  }

  /** Visiting one more of the members still to do. */
  lemma OrderOneMore<T>(order: seq<T>, all: set<T>, todo: set<T>, x: T)
    requires todo <= all && IsOrder(order, all - todo) && x in todo
    ensures IsOrder(order + [x], all - (todo - {x}))
  {
    assert x !in Elements(order);
    NoDuplicatesConcat(order, [x]);
    assert Elements(order + [x]) == Elements(order) + {x};
  }
}
