/** Domain types shared by the counters, the engine and the distributed handoff. */
module CounterTypes {
  /** The widest amount the 64-bit fields can hold. */
  const U64_MAX: nat := 0xFFFF_FFFF_FFFF_FFFF

  datatype Mode = Strict | ReservedPeak | DangerStrict | RemoteStrict

  datatype Decision = Accepted | Rejected | Moved

  datatype Option<T> = None | Some(value: T)

  function Min(x: nat, y: nat): (m: nat) { if x < y then x else y }

  function Max(x: nat, y: nat): (m: nat) { if x < y then y else x }
}
