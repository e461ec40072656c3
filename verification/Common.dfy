/** Option and Result, and the integer widths the program's counters have. */
module Common {
  datatype Option<+T> = None | Some(value: T)

  datatype Result<+T, +E> = Ok(value: T) | Err(error: E)

  const MaxU64: nat := 0xffff_ffff_ffff_ffff

  type u64 = n: nat | n <= MaxU64

  newtype byte = n: int | 0 <= n < 256

  type Bytes = seq<byte>

  /** A fact stated for every broken seal is kept closed until a proof says `Unsealed(Seal)`: the verifier then
      does not unfold a whole log where only what the log says now matters. */
  datatype Seal = Seal

  predicate Unsealed(s: Seal) { true }
}
