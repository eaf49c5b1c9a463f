/**
 * The data the lottery contract stores and exchanges: the fixed-width integers of
 * Rust, actor identities, the `Player` and `LotteryState` records, the events the
 * contract replies with, the messages it sends and the reasons it panics.
 */
module LtIo {

  const U32_LIMIT: int := 0x1_0000_0000
  const U32_MAX: int := 0xFFFF_FFFF

  /** Rust's `u32`, `u64` and `u128`. */
  type U32 = x: int | 0 <= x < 0x1_0000_0000
  type U64 = x: int | 0 <= x < 0x1_0000_0000_0000_0000
  type U128 = x: int | 0 <= x < 0x1_0000_0000_0000_0000_0000_0000_0000_0000

  /** A 32-byte actor address, abstracted to a number; 0 stands for `ActorId::zero()`. */
  type ActorId = nat
  const ZeroActor: ActorId := 0

  /** An admitted entrant and the amount it entered with. */
  datatype Player = Player(playerId: ActorId, balance: U128)

  /** The round record `lottery_state`. */
  datatype LotteryState = LotteryState(
    lotteryStarted: bool,
    lotteryStartTime: U64,
    lotteryDuration: U64,
    participationCost: U128,
    prizeFund: U128,
    lotteryOwner: ActorId)

  /** `LotteryState::default()`: every field false or zero. */
  const DefaultLotteryState: LotteryState := LotteryState(false, 0, 0, 0, 0, ZeroActor)

  /** Replies of the handlers (`LtEvent`). */
  datatype LtEvent = PlayerAdded(playerIndex: U32) | Winner(winnerIndex: U32)

  /** Messages a handler sends. */
  datatype Message =
    | TokenTransfer(token: ActorId, from: ActorId, to: ActorId, amount: U128)  // `FTAction::Transfer` to the token contract
    | NativeValue(recipient: ActorId, payload: seq<bv8>, value: U128)            // `msg::send_bytes(recipient, payload, value)`
    | Reply(event: LtEvent)                                                     // `msg::reply(event, 0)`

  /** The bytes `b"Winner"` sent with the native prize payment. */
  const WinnerPayload: seq<bv8> := [0x57, 0x69, 0x6E, 0x6E, 0x65, 0x72]

  /** Why a handler panicked; each refusal carries the flags its panic message prints. */
  datatype Fault =
    | StartLotteryRefused(lotteryOn: bool, ownerMessage: bool)
    | EnterRefused(lotteryOn: bool, playerExists: bool, amount: U128)
    | TransferFailed(request: Message)          // `.expect("Error in transfer")`
    | PickWinnerRefused(ownerMessage: bool, timeLeft: bool, playersEmpty: bool)
    | RemainderByZero                           // `rand % (players.len() as u32)` with a zero divisor
    | SendFailed(message: Message)              // `msg::send_bytes(..).unwrap()`
}
