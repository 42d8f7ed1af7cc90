/** A client of the service: one round of a two-player game, whose outcome follows from
    the contracts of the service alone. */
module ExampleGame {
  import opened Wrappers
  import opened Game
  import opened Registry
  import opened Ledger
  import opened TurnOrder
  import opened Service

  /** Alice opens session S1 and Bob joins; Alice rolls 3 and 4, buys card 7 (price 200,
      first fine 50), the turn passes to Bob, and Bob pays Alice the rent on card 7. */
  method TwoPlayerRound(getNewPosition: (int, int, int) -> int)
  {
    var service := new SessionServiceImpl(1500, 0);
    var card := CompanyCard(7, 200, [50, 100]);
    var alice := Player("Alice", "red", Admin, 1500, 0);
    var bob := Player("Bob", "blue", User, 1500, 0);
    service.SaveSession("S1", "Alice", "red", [CardState(card, 0, None, None)]);
    var added := service.AddPlayerToSession("S1", "Bob", "blue");
    assert added == Ok(bob);
    assert service.sessions["S1"].players == [alice, bob];

    var started := service.StartGame("S1", "Alice");
    assert service.sessions["S1"].currentPlayer == "Alice";
    assert service.GetCurrentMoveStatus("S1") == Ok(Start);

    var rolled := service.RollDices("S1", "Alice", 3, 4, getNewPosition);
    var position := getNewPosition(0, 3, 4);
    assert rolled == Ok(RollDiceResult([3, 4], "Alice", position));
    alice := alice.(position := position);
    assert service.sessions["S1"].players == [alice, bob];
    assert service.GetCurrentMoveStatus("S1") == Ok(Middle);

    var bought := service.BuyCard("S1", "Alice", 7);
    var owned := CardState(card, 1, Some(50), Some("Alice"));
    assert bought == Ok(BuyCardResult("Alice", 1300, owned));
    alice := alice.(balance := 1300);
    assert service.sessions["S1"].players == [alice, bob];
    assert service.sessions["S1"].cardStates == [owned];
    assert service.GetCurrentMoveStatus("S1") == Ok(End);

    var next := service.GetNextPlayer("S1", "Alice");
    assert next == Ok("Bob");
    assert service.GetCurrentMoveStatus("S1") == Ok(Start);

    var paid := service.PayForCard("S1", "Bob", 7);
    assert paid == Ok(PayForCardResult("Bob", 1450, "Alice", 1350));
  }
}
