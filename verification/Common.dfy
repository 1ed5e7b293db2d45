/** Shared small types. */
module Common {
  datatype Option<+T> = None | Some(value: T)

  newtype int64 = x: int | -0x8000_0000_0000_0000 <= x < 0x8000_0000_0000_0000

  /** `maxInferenceBody`. */
  const MAX_INFERENCE_BODY: nat := 16777216

  /** What a process learns about a statement it issued, and whether the statement took effect. */
  datatype Report = Done | AppliedButFailed | LostAndFailed
}
