/** Vocabulary shared by the models of the module's components. */
module Common {

  datatype Option<+T> = None | Some(value: T)

  /** A thread, and the identity of a recording_t. */
  type Tid = nat
  type RecId = nat

  type Byte = x: int | 0 <= x < 0x100
  type Word16 = x: int | 0 <= x < 0x1_0000
  type Word32 = x: int | 0 <= x < 0x1_0000_0000

  /** The statuses start_recording_session and the stop and direction apps report. */
  datatype Status = Success | Failed | InUse
}
