/**
 * Clients of the lottery that show what the handlers' contracts let a caller
 * conclude about whole rounds.
 */
module LotteryScenarios {
  import opened Wrappers
  import opened LtIo
  import opened LotteryContract

  /**
   * The owner opens a native-value round of duration 2000 and cost 10000 at
   * time 1000, and players 4, 5 and 6 enter it.
   */
  method OpenAndEnterThree() returns (lottery: Lottery)
    ensures fresh(lottery) && lottery.Valid()
    ensures lottery.lotteryOwner == 3 && lottery.lotteryId == 1 && lottery.lotteryHistory == map[]
    ensures lottery.tokenAddress == None && lottery.lotteryState.prizeFund == 25000
    ensures lottery.players == map[0 := Player(4, 10000), 1 := Player(5, 10000), 2 := Player(6, 10000)]
  {
    var program: ActorId := 1;
    lottery := new Lottery(3);
    var r := lottery.StartLottery(3, 1000, 2000, None, 10000, 25000);
    assert r.Success? && lottery.lotteryId == 1;

    assert !lottery.PlayerExists(4);
    r := lottery.Enter(4, 1100, program, 10000, true);
    assert r.Success? && r.value == [Reply(PlayerAdded(0))];
    assert lottery.players == map[0 := Player(4, 10000)];
    assert !lottery.PlayerExists(5);
    r := lottery.Enter(5, 1200, program, 10000, true);
    assert r.Success? && r.value == [Reply(PlayerAdded(1))];
    assert lottery.players == map[0 := Player(4, 10000), 1 := Player(5, 10000)];
    assert !lottery.PlayerExists(6);
    r := lottery.Enter(6, 1300, program, 10000, true);
    assert r.Success? && r.value == [Reply(PlayerAdded(2))];
  }

  /**
   * After the round of OpenAndEnterThree, the owner's draw pays one of the
   * three players the prize fund, records it as the winner of round 1, and
   * the owner can open the next round at once.
   */
  method ThreePlayerRound(rand: U32)
  {
    var program: ActorId := 1;
    var lottery := OpenAndEnterThree();
    var r := lottery.PickWinner(3, 3100, program, rand, true);
    assert r.Success?;
    assert lottery.lotteryHistory[1] in {4, 5, 6};
    assert r.value[0] == NativeValue(lottery.lotteryHistory[1], WinnerPayload, 25000);

    r := lottery.StartLottery(3, 3200, 500, Some(9), 7, 70);
    assert r.Success? && lottery.lotteryId == 2 && lottery.lotteryHistory.Keys == {1};
  }

  /**
   * Entries that are refused: a second entry by the same player, an entry with
   * an amount other than the cost, one after the round's time, and a draw
   * asked for by someone other than the owner.
   */
  method RefusedRequests()
  {
    var program: ActorId := 1;
    var lottery := new Lottery(3);
    var r := lottery.StartLottery(3, 1000, 2000, None, 10000, 25000);
    r := lottery.Enter(4, 1100, program, 10000, true);
    assert lottery.players == map[0 := Player(4, 10000)];
    r := lottery.Enter(4, 1250, program, 10000, true);
    assert r == Failure(EnterRefused(true, true, 10000));
    r := lottery.Enter(6, 1300, program, 9999, true);
    assert r == Failure(EnterRefused(true, false, 9999));
    r := lottery.Enter(7, 3000, program, 10000, true);
    assert r == Failure(EnterRefused(false, false, 10000));
    r := lottery.PickWinner(5, 3100, program, 0, true);
    assert r == Failure(PickWinnerRefused(false, false, false));
    assert lottery.players == map[0 := Player(4, 10000)];
  }

  /**
   * A token round of cost 10 that player 8 enters: a failed transfer leaves
   * the players as they were, a second attempt whose transfer succeeds
   * records it together with the transfer request, and a failed payout
   * leaves the round undrawn.
   */
  method TokenEntry()
  {
    var program: ActorId := 1;
    var lottery := new Lottery(3);
    var r := lottery.StartLottery(3, 0, 100, Some(9), 10, 40);
    assert r.Success?;
    r := lottery.Enter(8, 10, program, 10, false);
    assert r == Failure(TransferFailed(TokenTransfer(9, 8, program, 10)));
    assert lottery.players == map[];
    r := lottery.Enter(8, 10, program, 10, true);
    assert r.Success?;
    assert r.value == [TokenTransfer(9, 8, program, 10)] + [Reply(PlayerAdded(0))];
    r := lottery.PickWinner(3, 20, program, 41, false);
    assert r == Failure(TransferFailed(TokenTransfer(9, program, 8, 40)));
    assert lottery.players == map[0 := Player(8, 10)];
  }

  /**
   * A round that ran out without a draw can be reopened with its players
   * still stored: they keep their old balances and cannot enter the new round.
   */
  method StalePlayers()
  {
    var program: ActorId := 1;
    var lottery := new Lottery(3);
    var r := lottery.StartLottery(3, 0, 100, None, 10, 0);
    r := lottery.Enter(4, 50, program, 10, true);
    assert r.Success?;
    r := lottery.StartLottery(3, 80, 100, None, 20, 0);
    assert r == Failure(StartLotteryRefused(true, true));
    r := lottery.StartLottery(3, 200, 100, None, 20, 0);
    assert r.Success? && lottery.players == map[0 := Player(4, 10)];
    assert lottery.BalanceOf(0) == 10 && lottery.BalanceOf(1) == 0;
    r := lottery.Enter(4, 250, program, 20, true);
    assert r == Failure(EnterRefused(true, true, 20));
  }

  /** The owner can draw a winner while the round's time is not yet over. */
  method EarlyDraw()
  {
    var program: ActorId := 1;
    var lottery := new Lottery(3);
    var r := lottery.StartLottery(3, 0, 100, None, 10, 0);
    r := lottery.Enter(5, 50, program, 10, true);
    assert r.Success? && lottery.players == map[0 := Player(5, 10)];
    assert lottery.LotteryIsOn(60);
    r := lottery.PickWinner(3, 60, program, 7, true);
    assert r.Success? && lottery.lotteryHistory[1] == 5;
  }
}
