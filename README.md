# Game of chance: a Dafny model of the lottery contract

This project models the lottery contract of the game-of-chance repository. The contract is a Gear actor at `src/lib.rs`. It runs one round at a time:

- The owner opens a round with `start_lottery`, giving its duration, participation cost, prize fund and an optional fungible-token contract.
- While the round is on, an actor that is not yet a player enters with `enter` by offering exactly the participation cost. On a token round the cost is first transferred from the entrant to the contract.
- `pick_winner` lets the owner draw the player at position `rand % n` among the `n` players in ascending key order. The draw pays that player the prize fund, records it in `lottery_history` under the current `lottery_id`, and resets the round.

Each handler first checks its guard and panics if the guard fails. No handler changes any field before its guard or before it awaits a transfer. So a panic, whether before the await or after it (a failed transfer), finds the state exactly as the handler found it. Every refusal is therefore modelled as a `Failure(fault)` result with the state unchanged. A state change made before an await would survive a later panic, but the code makes none. Each fault carries the flags its panic message prints.

Structure:

- `wrappers.dfy`: `Option` and `Result`.
- `lt_io.dfy`: the stored and exchanged data. This covers `u32`/`u64`/`u128` as bounded integers, `ActorId` (abstracted to a number, with 0 for `ActorId::zero()`), `Player`, `LotteryState` and its default, the `LtEvent` replies, the messages a handler sends, and the panic reasons.
- `key_order.dfy`: the ascending key order of a `BTreeMap<u32, _>`.
  - `NthKey` is `keys().nth(i)`, written as a walk that takes the least remaining key each step.
  - The lemmas show that each position holds exactly one key, and that on keys `0 .. n-1` the `i`-th key is `i`.
- `lottery.dfy`: the class `Lottery` with the fields of the Rust struct and the three handlers as methods. `Valid()` is the class invariant, which every handler keeps:
  - the players' keys are exactly `0 .. n-1`;
  - no actor is stored twice.
- `scenarios.dfy`: client methods that follow whole rounds through the handlers' contracts.

The environment is passed in explicitly:

- `caller` stands for `msg::source()`;
- `now` stands for `exec::block_timestamp()`;
- `program` stands for `exec::program_id()`;
- `rand` stands for `get_random_number()`;
- `transferOk` and `payoutOk` are the outcomes of the awaited token transfer or the native value send.

A successful handler returns the messages it sent: token transfers, the native prize payment and its reply.

Where the code and its doc comments disagree, the model follows the code:

- `enter` requires `amount == participation_cost`, not just an amount above zero.
- On a native-value round, `enter` never compares `amount` with the value attached to the message.
- `pick_winner` does not check that the round's time has run out.
- `start_lottery` does not clear `players`. Players of a round that expired without a draw are still stored in the next round. They cannot enter it, but they take part in its draw (`StalePlayers` in `scenarios.dfy`).
- The prize fund is an argument of `start_lottery` and is not collected from the entries.

The model also keeps two behaviours of `players.len() as u32` at 2^32 players. They arise only in a build where `usize` is 64 bits. On the wasm32 target a Gear program is built for, `usize` is 32 bits and the cast loses nothing. 2^32 players would not fit in wasm memory anyway, so these branches model a state the deployed contract cannot reach:

- `enter` would store the next entrant under key 0, replacing the player stored there.
- `pick_winner` would panic on a remainder by zero.

## Model

| member | source | states |
|---|---|---|
| `LotteryContract.Lottery.Valid` | src/lib.rs:23 | the class invariant: the player keys are exactly `0 .. n-1` (at most 2^32 of them) and no actor is stored under two keys |
| `LotteryContract.Lottery.constructor` | src/lib.rs:229-237 | `init`: the caller becomes the owner, which is also copied into `lottery_state`. Everything else is default: no token, no players, no history, id 0. The invariant holds |
| `LotteryContract.Lottery.LotteryIsOn` | src/lib.rs:32-36 | the lottery is on exactly when a round has started and `start_time + duration > now` |
| `LotteryContract.Lottery.PlayerExists` | src/lib.rs:73-77 | the `any` over the players' values holds exactly when some key stores a player with that id |
| `LotteryContract.Lottery.BalanceOf` | src/lib.rs:249-255 | under the invariant, a query for a key below the player count returns that player's balance, and any other key returns 0 |
| `LotteryContract.Lottery.StartAllowed` | src/lib.rs:52 | the guard of `start_lottery`: the caller is the owner and the lottery is not on |
| `LotteryContract.Lottery.EnterAllowed` | src/lib.rs:113-115 | the guard of `enter`: the lottery is on, the caller is not yet a player, and the amount equals the participation cost |
| `LotteryContract.EntryPayment` | src/lib.rs:117-119 | a token round sends one transfer of the amount from the entrant to the contract; a native round sends nothing |
| `LotteryContract.Payout` | src/lib.rs:160-172 | the prize fund goes to the winner as a token transfer from the contract on a token round, or otherwise as a native send with payload `b"Winner"` |
| `LotteryContract.PayoutFault` | src/lib.rs:102 | a failed token payout panics with the transfer error (line 102); a failed native send panics in `unwrap` (line 171) |
| `LotteryContract.SaturatingInc` | src/lib.rs:60 | the round id grows by at most one, and stays put exactly when it is already `u32::MAX` |
| `LotteryContract.EntryKey` | src/lib.rs:129 | the key for the next player is the player count while that count fits in a `u32`, and 0 at exactly 2^32 |
| `LotteryContract.WinnerIndex` | src/lib.rs:156 | the draw panics exactly when the `u32` player count is zero. Otherwise the index is below the player count, at most `rand`, and equals `rand % n` when `0 < n < 2^32` |
| `LotteryContract.Lottery.StartLottery` | src/lib.rs:45-70 | succeeds exactly when the caller is the owner and the lottery is not on. On success: started at `now`; duration, cost, prize fund and token taken from the arguments; id incremented with saturation; nothing sent. The frame shows players and history are untouched. On failure: nothing changes, and the fault carries the two flags of the panic message |
| `LotteryContract.Lottery.Enter` | src/lib.rs:112-140 | succeeds exactly when the lottery is on, the caller is not a player, `amount` equals the cost and, on a token round, the transfer succeeds. On success exactly one `Player(caller, amount)` is stored, under key `players.len() as u32`, making one more player below 2^32. The handler sends the transfer (token rounds) and replies `PlayerAdded(key)`. Only `players` may change. A refused guard or a failed transfer changes nothing and names the panic |
| `LotteryContract.Lottery.PickWinner` | src/lib.rs:154-195 | succeeds exactly when the caller is the owner, there are players (no check of the time), their count fits the `u32` divisor, and the payout succeeds. Index `rand % n` is a current key and the key at that position in ascending order. The prize fund goes to that player by token transfer or native send, with reply `Winner(index)`. History gains exactly `lottery_id -> winner`. Players, token and `lottery_state` are reset, the id is kept, and the owner may start a new round at any time. Every refusal changes nothing and names the panic |
| `KeyOrder.NthKey` | src/lib.rs:157 | `keys().nth(index)` returns a key exactly when `index` is below the number of keys, and the key it returns is the `index`-th in ascending order |
| `KeyOrder.MinimumExists` | src/lib.rs:157 | every non-empty set of `u32` keys has a least element (the element `NthKey` picks at each step of its ascending walk) |
| `KeyOrder.NthKeyUnique` | src/lib.rs:157 | two keys at the same ascending position are equal, so the drawn key is determined by the index and the key set |
| `KeyOrder.DenseBelow` | src/lib.rs:129-130 | on the keys `0 .. n-1` that `enter` produces, exactly `i` keys lie below `i` |
| `KeyOrder.DenseNthKey` | src/lib.rs:156-158 | on the keys `0 .. n-1`, the `i`-th key in ascending order is `i` and no other key |
| `LotteryScenarios.OpenAndEnterThree` | src/lib.rs:112-131 | after the owner opens a native round of cost 10000 and players 4, 5 and 6 enter it, they are stored under keys 0, 1, 2 in entry order |

## Left out

- Asynchronous messaging: the awaited `send_and_wait_for_reply` in `transfer_tokens` becomes the boolean `transferOk`/`payoutOk`. Each handler is atomic. Interleaving of another message while a transfer is awaited (reentrancy) is not modelled.
- Sending a payload is recorded only for the native prize payment (`b"Winner"`); the encoded bodies of token transfers and replies are their datatype values.
- A failed `msg::reply(..).unwrap()` is not modelled; replies are recorded as sent.
- `get_random_number` hashes the timestamp with blake2-256, a foreign library. The resulting `u32` is the input `rand`.
- `LotteryContract.Lottery.LotteryIsOn`: does not model overflow of `start_time + duration` in `u64`; the sum is taken in unbounded integers.
- `ActorId` is a number rather than 32 bytes; only equality and the zero id matter to the contract.
- The other state queries of `meta_state` (`GetPlayers`, `GetWinners`, `LotteryState`) and the `LtAction::LotteryState` handle action only copy a field out. They are the fields themselves here.
- The `main` dispatcher, the global `static mut LOTTERY`, `metadata!` and `debug!` are left out; a client calls the methods directly.
- `src/io.rs` declares message types of a different, unused interface and holds no logic.
- The repository's tests drive a differently shaped contract and are not modelled.
