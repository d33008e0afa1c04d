/** Types shared by every part of the model. */
module Common {

  type Byte = b: int | 0 <= b < 256

  type Bytes = seq<Byte>

  datatype Option<+T> = None | Some(value: T)

  /** The error codes the modelled code produces; `Transport` stands for any
      code reported by the transport below the scheduler. */
  datatype Code =
    | Success
    | Cancel
    | Closed
    | RemoteClosed
    | OperationAborted
    | BadBufferSize
    | SendLengthZeroMsg
    | BadCoprotoMessageHeader
    | Transport(value: nat)

  lemma PrefixTrans<T>(a: seq<T>, b: seq<T>, c: seq<T>)
    requires a <= b && b <= c
    ensures a <= c
  {
  }
}
