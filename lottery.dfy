/**
 * The lottery contract: one round at a time, opened by the owner, entered by
 * paying players, and closed by the owner drawing a winner who receives the
 * prize fund. Every handler either panics before it changes anything or runs
 * to completion; the environment (`msg::source()`, `exec::block_timestamp()`,
 * `exec::program_id()`, the random number and the outcome of each outgoing
 * transfer) is passed in explicitly.
 */
module LotteryContract {
  import opened Wrappers
  import opened LtIo
  import KeyOrder

  /** `lottery_id.saturating_add(1)`: one more, except that `u32::MAX` stays put. */
  function SaturatingInc(x: U32): (y: U32)
    ensures x <= y <= x + 1
    ensures y == x <==> x == U32_MAX
  {
    if x == U32_MAX then x else x + 1
  }

  /** `players.len() as u32`: the key the next player is stored under. */
  function EntryKey(playerCount: nat): (k: U32)
    ensures playerCount < U32_LIMIT ==> k == playerCount
    ensures playerCount == U32_LIMIT ==> k == 0
  {
    playerCount % U32_LIMIT
  }

  /**
   * `rand % (players.len() as u32)`: the position of the winner among the
   * players, or `None` where the truncated divisor is zero and Rust panics.
   */
  function WinnerIndex(rand: U32, playerCount: nat): (r: Option<U32>)
    ensures r.None? <==> playerCount % U32_LIMIT == 0
    ensures r.Some? ==> r.value < playerCount && r.value <= rand
    ensures 0 < playerCount < U32_LIMIT ==> r.Some? && r.value == rand % playerCount
  {
    var divisor := playerCount % U32_LIMIT;
    if divisor == 0 then None else Some(rand % divisor)
  }

  /** The token transfer that collects an entry, if the round is paid in tokens. */
  function EntryPayment(token: Option<ActorId>, player: ActorId, program: ActorId, amount: U128): seq<Message> {
    if token.Some? then [TokenTransfer(token.value, player, program, amount)] else []
  }

  /** The message that pays the prize fund to the winner. */
  function Payout(token: Option<ActorId>, program: ActorId, winner: ActorId, prize: U128): Message {
    if token.Some? then TokenTransfer(token.value, program, winner, prize) else NativeValue(winner, WinnerPayload, prize)
  }

  /** The panic a failed payout raises. */
  function PayoutFault(payout: Message): Fault {
    if payout.TokenTransfer? then TransferFailed(payout) else SendFailed(payout)
  }

  class Lottery {
    var lotteryState: LotteryState
    const lotteryOwner: ActorId
    var tokenAddress: Option<ActorId>
    var players: map<U32, Player>
    var lotteryHistory: map<U32, ActorId>
    var lotteryId: U32

    /**
     * The players are stored under the keys `0 .. n-1` (`n` the number of
     * players) and no actor is stored twice.
     */
    ghost predicate Valid()
      reads this`players
    {
      && |players| <= U32_LIMIT
      && (forall k: U32 :: k in players <==> k < |players|)
      && (forall k1, k2 :: k1 in players && k2 in players && players[k1].playerId == players[k2].playerId ==> k1 == k2)
    }

    /** `init`: the sender of the initialisation message owns the lottery. */
    constructor (owner: ActorId)
      ensures Valid()
      ensures lotteryOwner == owner
      ensures lotteryState == DefaultLotteryState.(lotteryOwner := owner)
      ensures tokenAddress == None && players == map[] && lotteryHistory == map[] && lotteryId == 0
    {
      lotteryOwner := owner;
      lotteryState := DefaultLotteryState.(lotteryOwner := owner);
      tokenAddress := None;
      players := map[];
      lotteryHistory := map[];
      lotteryId := 0;
    }

    /** `lottery_is_on`: a round has started and its time has not run out at `now`. */
    predicate LotteryIsOn(now: U64)
      reads this`lotteryState
    {
      lotteryState.lotteryStarted && lotteryState.lotteryStartTime + lotteryState.lotteryDuration > now
    }

    /** `player_exists`: some stored player has the id `id`. */
    predicate PlayerExists(id: ActorId)
      reads this`players
      ensures PlayerExists(id) <==> exists k :: k in players && players[k].playerId == id
    {
      exists p | p in players.Values :: p.playerId == id
    }

    /** The guard of `start_lottery`. */
    predicate StartAllowed(caller: ActorId, now: U64)
      reads this`lotteryState
    {
      caller == lotteryOwner && !LotteryIsOn(now)
    }

    /** The guard of `enter`. */
    predicate EnterAllowed(caller: ActorId, now: U64, amount: U128)
      reads this`lotteryState, this`players
    {
      LotteryIsOn(now) && !PlayerExists(caller) && amount == lotteryState.participationCost
    }

    /** The `BalanceOf(index)` state query: the balance stored under `index`, or 0. */
    function BalanceOf(index: U32): (b: U128)
      reads this`players
      ensures Valid() && index < |players| ==> b == players[index].balance
      ensures Valid() && index >= |players| ==> b == 0
    {
      if index in players then players[index].balance else 0
    }

    /**
     * `start_lottery`: the owner opens a round once the previous one is over.
     * The players and the history are left as they are.
     */
    method StartLottery(caller: ActorId, now: U64, duration: U64, token: Option<ActorId>,
                        participationCost: U128, prizeFund: U128)
      returns (r: Result<seq<Message>, Fault>)
      requires Valid()
      modifies this`lotteryState, this`tokenAddress, this`lotteryId
      ensures Valid()
      ensures r.Success? <==> old(StartAllowed(caller, now))
      ensures r.Success? ==>
        && r.value == []
        && lotteryState == LotteryState(true, now, duration, participationCost, prizeFund, lotteryOwner)
        && tokenAddress == token
        && lotteryId == SaturatingInc(old(lotteryId))
      ensures r.Failure? ==>
        && r.error == StartLotteryRefused(old(LotteryIsOn(now)), caller == lotteryOwner)
        && unchanged(this)
    {
      if caller == lotteryOwner && !LotteryIsOn(now) {
        lotteryState := lotteryState.(lotteryStarted := true);
        lotteryState := lotteryState.(lotteryStartTime := now);
        lotteryState := lotteryState.(lotteryDuration := duration);
        lotteryState := lotteryState.(participationCost := participationCost);
        lotteryState := lotteryState.(prizeFund := prizeFund);
        lotteryState := lotteryState.(lotteryOwner := lotteryOwner);
        tokenAddress := token;
        lotteryId := SaturatingInc(lotteryId);
        r := Success([]);
      } else {
        r := Failure(StartLotteryRefused(LotteryIsOn(now), caller == lotteryOwner));
      }
    }

    /**
     * `enter`: while the round is on, an actor that is not yet a player and
     * offers exactly the participation cost is stored as a new player under
     * the next key; on a token round the cost is first transferred from the
     * caller to the contract, and a failed transfer aborts the entry.
     */
    method Enter(caller: ActorId, now: U64, program: ActorId, amount: U128, transferOk: bool)
      returns (r: Result<seq<Message>, Fault>)
      requires Valid()
      modifies this`players
      ensures Valid()
      ensures r.Success? <==> old(EnterAllowed(caller, now, amount)) && (tokenAddress.Some? ==> transferOk)
      ensures r.Success? ==>
        var key := EntryKey(|old(players)|);
        && players == old(players)[key := Player(caller, amount)]
        && r.value == EntryPayment(tokenAddress, caller, program, amount) + [Reply(PlayerAdded(key))]
      ensures r.Success? && |old(players)| < U32_LIMIT ==>
        |old(players)| !in old(players) && |players| == |old(players)| + 1
      ensures !old(EnterAllowed(caller, now, amount)) ==>
        && r == Failure(EnterRefused(old(LotteryIsOn(now)), old(PlayerExists(caller)), amount))
        && unchanged(this)
      ensures old(EnterAllowed(caller, now, amount)) && tokenAddress.Some? && !transferOk ==>
        && r == Failure(TransferFailed(TokenTransfer(tokenAddress.value, caller, program, amount)))
        && unchanged(this)
    {
      if LotteryIsOn(now) && !PlayerExists(caller) && amount == lotteryState.participationCost {
        if tokenAddress.Some? && !transferOk {
          r := Failure(TransferFailed(TokenTransfer(tokenAddress.value, caller, program, amount)));
          return;
        }
        var player := Player(caller, amount);
        var playerIndex := EntryKey(|players|);
        players := players[playerIndex := player];
        r := Success(EntryPayment(tokenAddress, caller, program, amount) + [Reply(PlayerAdded(playerIndex))]);
      } else {
        r := Failure(EnterRefused(LotteryIsOn(now), PlayerExists(caller), amount));
      }
    }

    /**
     * `pick_winner`: the owner draws the player at position `rand % n` of the
     * `n` players in ascending key order, pays the prize fund to it, records
     * it as the winner of round `lottery_id` and resets the round. The end of
     * the round's time is not checked.
     */
    method PickWinner(caller: ActorId, now: U64, program: ActorId, rand: U32, payoutOk: bool)
      returns (r: Result<seq<Message>, Fault>)
      requires Valid()
      modifies this`lotteryState, this`tokenAddress, this`players, this`lotteryHistory
      ensures Valid()
      ensures r.Success? <==>
        caller == lotteryOwner && old(players) != map[] && |old(players)| < U32_LIMIT && payoutOk
      ensures r.Success? ==>
        var index := rand % |old(players)|;
        && index in old(players)
        && KeyOrder.IsNthKey(old(players).Keys, index, index)
        && var winner := old(players)[index].playerId;
        && r.value == [Payout(old(tokenAddress), program, winner, old(lotteryState).prizeFund), Reply(Winner(index))]
        && lotteryHistory == old(lotteryHistory)[lotteryId := winner]
        && players == map[]
        && tokenAddress == None
        && lotteryState == DefaultLotteryState
        && forall t :: StartAllowed(lotteryOwner, t)
      ensures !(caller == lotteryOwner && old(players) != map[]) ==>
        && r == Failure(PickWinnerRefused(caller == lotteryOwner,
                                          old(lotteryState).lotteryStartTime + old(lotteryState).lotteryDuration > now,
                                          old(players) == map[]))
        && unchanged(this)
      ensures caller == lotteryOwner && |old(players)| == U32_LIMIT ==>
        r == Failure(RemainderByZero) && unchanged(this)
      ensures caller == lotteryOwner && 0 < |old(players)| < U32_LIMIT && !payoutOk ==>
        && r.Failure?
        && r.error == PayoutFault(Payout(old(tokenAddress), program,
                                         old(players)[rand % |old(players)|].playerId, old(lotteryState).prizeFund))
        && unchanged(this)
    {
      if caller == lotteryOwner && players != map[] {
        var index := WinnerIndex(rand, |players|);
        if index.None? {
          r := Failure(RemainderByZero);
          return;
        }
        var key := KeyOrder.NthKey(players.Keys, index.value);
        if key.None? {
          assert false;  // `expect("Player not found")` cannot fire: the index is below the player count
        }
        var winIndex := key.value;
        KeyOrder.DenseNthKey(players.Keys, |players|, index.value);
        var player := players[winIndex];
        var payout := Payout(tokenAddress, program, player.playerId, lotteryState.prizeFund);
        if !payoutOk {
          r := Failure(PayoutFault(payout));
          return;
        }
        lotteryHistory := lotteryHistory[lotteryId := player.playerId];
        tokenAddress := None;
        lotteryState := DefaultLotteryState;
        players := map[];
        r := Success([payout, Reply(Winner(winIndex))]);
      } else {
        r := Failure(PickWinnerRefused(caller == lotteryOwner,
                                       lotteryState.lotteryStartTime + lotteryState.lotteryDuration > now,
                                       players == map[]));
      }
    }
  }
}
