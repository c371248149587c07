/**
 * Basic values shared by every part of the hook program: bytes, 64-bit
 * unsigned amounts, account addresses and the errors a handler returns.
 */
module Types {

  /** One byte of instruction data or of a seed. */
  type Byte = x: int | 0 <= x < 256

  /** Rust's `u64`: every amount handled by the program lies in this range. */
  type U64 = x: int | 0 <= x < 0x1_0000_0000_0000_0000

  type Bytes32 = s: seq<Byte> | |s| == 32 witness seq(32, _ => 0)

  /** A 32-byte account address, treated as an opaque value. */
  datatype Pubkey = Pubkey(bytes: Bytes32)

  /** The errors the handlers can report. */
  datatype ProgramError =
    | InvalidInstructionData      // the hook interface payload is not `Execute`
    | IncorrectProgramId          // the burn builder was given a program other than token-2022
    | SeedConfigsTooLarge         // a seed recipe does not fit in an extra-account-meta record
    | AccountAlreadyInUse         // the metadata account for this mint already exists
    | External(code: nat)         // an error reported by a sub-call, passed on unchanged

  /** The result of an instruction handler or a sub-call: `Result<()>` in the source. */
  datatype Outcome = Ok | Err(error: ProgramError)

  /** A value or the error that prevented computing it. */
  datatype Result<T> = Success(value: T) | Failure(error: ProgramError)

  /** The bytes of an ASCII literal such as `b"delegate"`. */
  function Ascii(s: string): (r: seq<Byte>)
    requires forall i :: 0 <= i < |s| ==> s[i] as int < 128
    ensures |r| == |s|
    ensures forall i :: 0 <= i < |s| ==> r[i] == s[i] as int
  {
    if s == [] then [] else [s[0] as int] + Ascii(s[1..])
  }
}
