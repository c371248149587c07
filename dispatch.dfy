/**
 * The fallback dispatcher (`fallback`, lines 176-194). The token-2022
 * program invokes the hook with the transfer-hook interface's own
 * instruction layout, which Anchor's dispatch does not recognise; the
 * fallback unpacks that layout and, for `Execute { amount }`, forwards the
 * amount's little-endian bytes to the `transfer_hook` handler.
 */
module Dispatch {
  import opened Types
  import opened LeBytes

  type Discriminator = s: seq<Byte> | |s| == 8 witness [0, 0, 0, 0, 0, 0, 0, 0]

  /** The interface's 8-byte discriminators, as opaque constants. */
  const EXECUTE_DISCRIMINATOR: Discriminator
  const INITIALIZE_DISCRIMINATOR: Discriminator
  const UPDATE_DISCRIMINATOR: Discriminator

  /** The transfer-hook interface's instructions; only `Execute` is decoded in full. */
  datatype HookInstruction =
    | Execute(amount: U64)
    | InitializeExtraAccountMetaList(payload: seq<Byte>)
    | UpdateExtraAccountMetaList(payload: seq<Byte>)

  /**
   * `TransferHookInstruction::unpack`: an 8-byte discriminator, then the
   * variant's data. `Execute` needs at least 8 more bytes, of which the
   * first 8 are the amount; anything after them is ignored.
   */
  function Unpack(data: seq<Byte>): (r: Result<HookInstruction>)
    ensures r.Failure? ==> r.error == InvalidInstructionData
    ensures (r.Success? && r.value.Execute?) <==>
              |data| >= 16 && data[..8] == EXECUTE_DISCRIMINATOR
    ensures r.Success? && r.value.Execute? ==> ToLeBytes(r.value.amount) == data[8..16]
  {
    if |data| < 8 then Failure(InvalidInstructionData)
    else
      var discriminator, rest := data[..8], data[8..];
      if discriminator == EXECUTE_DISCRIMINATOR then
        if |rest| < 8 then Failure(InvalidInstructionData)
        else
          LeBytesRoundTrip(rest[..8]);
          Success(Execute(FromLeBytes(rest[..8])))
      else if discriminator == INITIALIZE_DISCRIMINATOR then
        Success(InitializeExtraAccountMetaList(rest))
      else if discriminator == UPDATE_DISCRIMINATOR then
        Success(UpdateExtraAccountMetaList(rest))
      else Failure(InvalidInstructionData)
  }

  /**
   * The match in `fallback`: the bytes forwarded to `transfer_hook`, or the
   * error the fallback returns. The forwarded bytes are exactly
   * `amount.to_le_bytes()`.
   */
  function Forward(data: seq<Byte>): (r: Result<seq<Byte>>)
    ensures r.Success? <==> |data| >= 16 && data[..8] == EXECUTE_DISCRIMINATOR
    ensures r.Success? ==> r.value == data[8..16]
    ensures r.Failure? ==> r.error == InvalidInstructionData
  {
    match Unpack(data)
    case Failure(e) => Failure(e)
    case Success(Execute(amount)) => Success(ToLeBytes(amount))
    case Success(_) => Failure(InvalidInstructionData)
  }

  /** An `Execute` payload forwards 8 bytes that read back as its amount. */
  lemma ForwardExecute(amount: U64, trailing: seq<Byte>)
    ensures var r := Forward(EXECUTE_DISCRIMINATOR + ToLeBytes(amount) + trailing);
            r == Success(ToLeBytes(amount)) && |r.value| == 8 && FromLeBytes(r.value) == amount
  {
    var data := EXECUTE_DISCRIMINATOR + ToLeBytes(amount) + trailing;
    assert data[..8] == EXECUTE_DISCRIMINATOR;
    assert data[8..16] == ToLeBytes(amount);
    LeRoundTrip(amount);
  }

  /** Any other discriminator is rejected, whatever follows it. */
  lemma ForwardRejectsOtherInstructions(data: seq<Byte>)
    requires |data| >= 8 && data[..8] != EXECUTE_DISCRIMINATOR
    ensures Forward(data) == Failure(InvalidInstructionData)
  {
  }

  /** An `Execute` whose amount is cut short is rejected too. */
  lemma ForwardRejectsShortExecute(data: seq<Byte>)
    requires |data| < 16
    ensures Forward(data) == Failure(InvalidInstructionData)
  {
  }
}
