/** Vocabulary shared by every component of the model. */
module Base {

  datatype Option<+T> = None | Some(value: T)

  /** Threads are named by numbers; there are as many as a run needs. */
  type Tid = nat

  type byte = x: int | 0 <= x < 256 witness 0

  type Bytes = seq<byte>
}
