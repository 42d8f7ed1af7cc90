/** The session service: every operation reads the session record, changes a working
    copy step by step and stores it back only when nothing has thrown, which is what
    the transaction around each operation guarantees. */
module Service {
  import opened Wrappers
  import opened Game
  import opened Registry
  import opened Ledger
  import opened TurnOrder

  /** The two dice, who rolled them and where that player now stands. */
  datatype RollDiceResult = RollDiceResult(digits: seq<int>, playerName: Name, newPosition: int)

  /** The buyer, the buyer's new balance and the card state after the purchase. */
  datatype BuyCardResult = BuyCardResult(playerName: Name, newBalance: int, cardState: CardState)

  /** Both balances after a rent payment. */
  datatype PayForCardResult = PayForCardResult(buyerName: Name, buyerBalance: int, ownerName: Name, ownerBalance: int)

  /** Every stored session keeps its player names unique. */
  ghost predicate ValidStore(m: map<SessionId, Session>) {
    forall id :: id in m ==> UniqueNames(m[id].players)
  }

  lemma StoreUpdate(m: map<SessionId, Session>, id: SessionId, s: Session)
    requires ValidStore(m) && UniqueNames(s.players)
    ensures ValidStore(m[id := s])
  {
  }

  class SessionServiceImpl {
    /** The stored sessions, each with its players in turn order and its card states. */
    var sessions: map<SessionId, Session>
    /** Balance and position the player service gives every player it saves. */
    const startBalance: int
    const startPosition: int

    ghost predicate Valid()
      reads this
    {
      ValidStore(sessions)
    }

    constructor (startBalance: int, startPosition: int)
      ensures Valid()
      ensures sessions == map[]
      ensures this.startBalance == startBalance && this.startPosition == startPosition
    {
      this.startBalance := startBalance;
      this.startPosition := startPosition;
      sessions := map[];
    }

    /** Looks a session up by id; a missing id is SessionNotFound. */
    function GetSession(sessionId: SessionId): (r: Result<Session, Error>)
      reads this
      ensures r.Ok? <==> sessionId in sessions
      ensures r.Ok? ==> r.value == sessions[sessionId]
      ensures r.Err? ==> r.error == SessionNotFound
    {
      if sessionId in sessions then Ok(sessions[sessionId]) else Err(SessionNotFound)
    }

    /** Fails with SessionAlreadyExists exactly when the id is taken. */
    function CheckSessionExists(sessionId: SessionId): (r: Result<(), Error>)
      reads this
      ensures r.Err? <==> sessionId in sessions
      ensures r.Err? ==> r.error == SessionAlreadyExists
    {
      if sessionId in sessions then Err(SessionAlreadyExists) else Ok(())
    }

    function GetCurrentMoveStatus(sessionId: SessionId): (r: Result<MoveStatus, Error>)
      reads this
      ensures r.Ok? <==> sessionId in sessions
      ensures r.Ok? ==> r.value == sessions[sessionId].moveStatus
      ensures r.Err? ==> r.error == SessionNotFound
    {
      match GetSession(sessionId)
      case Ok(session) => Ok(session.moveStatus)
      case Err(e) => Err(e)
    }

    /** Creates a session whose only player is its admin. */
    method SaveSession(sessionId: SessionId, playerName: Name, colour: string, cardStates: seq<CardState>)
      requires Valid()
      requires sessionId !in sessions
      modifies this
      ensures Valid()
      ensures sessions == old(sessions)[sessionId := Session(
        Lobby, INITIAL_MOVE_STATUS, INITIAL_CURRENT_PLAYER_NAME,
        [Player(playerName, colour, Admin, startBalance, startPosition)], cardStates)]
    {
      var player := Player(playerName, colour, Admin, startBalance, startPosition);
      var session := Session(Lobby, INITIAL_MOVE_STATUS, INITIAL_CURRENT_PLAYER_NAME, [], cardStates);
      session := session.(players := session.players + [player]);
      assert session.players == [player];
      sessions := sessions[sessionId := session];
    }

    /** Appends one new USER player to the session's players. */
    method AddPlayerToSession(sessionId: SessionId, playerName: Name, colour: string) returns (r: Result<Player, Error>)
      requires Valid()
      modifies this
      ensures Valid()
      ensures r.Err? ==> sessions == old(sessions)
      ensures sessionId !in old(sessions) ==> r == Err(SessionNotFound)
      ensures sessionId in old(sessions) ==>
        var s := old(sessions)[sessionId];
        if IndexOfName(s.players, playerName).Some? then r == Err(PlayerAlreadyExists)
        else
          var p := Player(playerName, colour, User, startBalance, startPosition);
          && r == Ok(p)
          && sessions == old(sessions)[sessionId := s.(players := s.players + [p])]
    {
      if sessionId !in sessions {
        return Err(SessionNotFound);
      }
      var session := sessions[sessionId];
      if IndexOfName(session.players, playerName).Some? {
        return Err(PlayerAlreadyExists);
      }
      var player := Player(playerName, colour, User, startBalance, startPosition);
      session := session.(players := session.players + [player]);
      sessions := sessions[sessionId := session];
      r := Ok(player);
    }

    /** Moves the roller by the two dice and puts the turn in its middle phase. The dice
        come in as parameters; `getNewPosition` is the board's position helper. */
    method RollDices(
      sessionId: SessionId, playerName: Name,
      firstRoll: int, secondRoll: int, getNewPosition: (int, int, int) -> int)
      returns (r: Result<RollDiceResult, Error>)
      requires Valid()
      requires MIN_BORDER <= firstRoll <= MAX_BORDER && MIN_BORDER <= secondRoll <= MAX_BORDER
      modifies this
      ensures Valid()
      ensures r.Err? ==> sessions == old(sessions)
      ensures r.Ok? ==> |r.value.digits| == 2 && forall d :: d in r.value.digits ==> MIN_BORDER <= d <= MAX_BORDER
      ensures sessionId !in old(sessions) ==> r == Err(PlayerNotFound)
      ensures sessionId in old(sessions) ==>
        var s := old(sessions)[sessionId];
        match IndexOfName(s.players, playerName)
        case None => r == Err(PlayerNotFound)
        case Some(i) =>
          var newPosition := getNewPosition(s.players[i].position, firstRoll, secondRoll);
          && r == Ok(RollDiceResult([firstRoll, secondRoll], playerName, newPosition))
          && sessions == old(sessions)[sessionId := s.(
               moveStatus := Middle,
               players := s.players[i := s.players[i].(position := newPosition)])]
    {
      if sessionId !in sessions {
        return Err(PlayerNotFound);
      }
      var session := sessions[sessionId];
      var index := IndexOfName(session.players, playerName);
      if index.None? {
        return Err(PlayerNotFound);
      }
      var player := session.players[index.value];
      var newPosition := getNewPosition(player.position, firstRoll, secondRoll);
      var digits := [firstRoll, secondRoll];
      UpdatePositionAt(session.players, index.value, newPosition);
      session := session.(players := UpdatePosition(session.players, playerName, newPosition));
      session := session.(moveStatus := Middle);
      sessions := sessions[sessionId := session];
      r := Ok(RollDiceResult(digits, playerName, newPosition));
    }

    /** Marks the session as started, hands the turn to `nextPlayer` and resets the phase. */
    method StartGame(sessionId: SessionId, nextPlayer: Name) returns (r: Result<(), Error>)
      requires Valid()
      modifies this
      ensures Valid()
      ensures sessionId !in old(sessions) ==> r == Err(SessionNotFound) && sessions == old(sessions)
      ensures sessionId in old(sessions) ==>
        && r == Ok(())
        && sessions == old(sessions)[sessionId := old(sessions)[sessionId].(
             state := InProgress, currentPlayer := nextPlayer, moveStatus := Start)]
    {
      if sessionId !in sessions {
        return Err(SessionNotFound);
      }
      var session := sessions[sessionId];
      session := session.(state := InProgress, currentPlayer := nextPlayer);
      session := session.(moveStatus := Start);
      sessions := sessions[sessionId := session];
      r := Ok(());
    }

    /** The buyer takes the card at its next level: the card records the buyer and the
        fine for the level it had, the buyer pays the price, the turn ends. */
    method BuyCard(sessionId: SessionId, playerName: Name, cardId: int) returns (r: Result<BuyCardResult, Error>)
      requires Valid()
      modifies this
      ensures Valid()
      ensures r.Err? ==> sessions == old(sessions)
      ensures sessionId !in old(sessions) ==> r == Err(SessionNotFound)
      ensures sessionId in old(sessions) ==>
        var s := old(sessions)[sessionId];
        match IndexOfCard(s.cardStates, cardId)
        case None => r == Err(CardNotFound)
        case Some(c) =>
          match IndexOfName(s.players, playerName)
          case None => r == Err(PlayerNotFound)
          case Some(p) =>
            var cs := s.cardStates[c];
            if !(0 <= cs.level < |cs.card.fines|) then r == Err(IndexOutOfBounds)
            else
              var newBalance := s.players[p].balance - cs.card.price;
              var bought := cs.(
                currentFine := Some(cs.card.fines[cs.level]),
                level := cs.level + 1,
                ownerName := Some(playerName));
              && r == Ok(BuyCardResult(playerName, newBalance, bought))
              && sessions == old(sessions)[sessionId := s.(
                   moveStatus := End,
                   cardStates := s.cardStates[c := bought],
                   players := s.players[p := s.players[p].(balance := newBalance)])]
      ensures r.Ok? ==>
        && sessionId in old(sessions) && sessionId in sessions
        && TotalBalance(sessions[sessionId].players)
           == TotalBalance(old(sessions)[sessionId].players) - r.value.cardState.card.price
      ensures r.Ok? ==> forall k :: 0 <= k < |old(sessions)[sessionId].cardStates| ==>
        OwnershipConsistent(old(sessions)[sessionId].cardStates[k]) ==> OwnershipConsistent(sessions[sessionId].cardStates[k])
    {
      if sessionId !in sessions {
        return Err(SessionNotFound);
      }
      var session := sessions[sessionId];
      session := session.(moveStatus := End);
      var c := IndexOfCard(session.cardStates, cardId);
      if c.None? {
        return Err(CardNotFound);
      }
      var cardState := session.cardStates[c.value];
      var card := cardState.card;
      var p := IndexOfName(session.players, playerName);
      if p.None? {
        return Err(PlayerNotFound);
      }
      var player := session.players[p.value];
      var level := cardState.level;
      var fine := FineAt(card, level);
      if fine.Err? {
        return Err(fine.error);
      }
      var newBalance := player.balance - card.price;
      cardState := Purchased(cardState, playerName, fine.value);
      session := session.(cardStates := session.cardStates[c.value := cardState]);
      UpdateBalanceAt(session.players, p.value, newBalance);
      TotalAfterUpdateBalance(session.players, p.value, newBalance);
      session := session.(players := UpdateBalance(session.players, playerName, newBalance));
      sessions := sessions[sessionId := session];
      r := Ok(BuyCardResult(playerName, newBalance, cardState));
    }

    /** Hands the turn to the player after `previousPlayer` in turn order. */
    method GetNextPlayer(sessionId: SessionId, previousPlayer: Name) returns (r: Result<Name, Error>)
      requires Valid()
      modifies this
      ensures Valid()
      ensures r.Err? ==> sessions == old(sessions)
      ensures sessionId !in old(sessions) ==> r == Err(SessionNotFound)
      ensures sessionId in old(sessions) ==>
        var s := old(sessions)[sessionId];
        match Successor(s.players, previousPlayer)
        case None => r == Err(NullPointer)
        case Some(next) =>
          && r == Ok(next.name)
          && sessions == old(sessions)[sessionId := s.(currentPlayer := next.name, moveStatus := Start)]
      ensures r.Ok? ==> sessionId in sessions && IndexOfName(sessions[sessionId].players, r.value).Some?
    {
      if sessionId !in sessions {
        return Err(SessionNotFound);
      }
      var session := sessions[sessionId];
      var nextPlayer := FindNextPlayer(session.players, previousPlayer);
      if nextPlayer.None? {
        return Err(NullPointer);
      }
      var nextPlayerName := nextPlayer.value.name;
      ghost var j :| 0 <= j < |session.players| && nextPlayer.value == session.players[j];
      assert session.players[j].name == nextPlayerName;
      session := session.(currentPlayer := nextPlayerName);
      session := session.(moveStatus := Start);
      sessions := sessions[sessionId := session];
      r := Ok(nextPlayerName);
    }

    /** The buyer pays the card's current fine to its owner and the next turn phase starts. */
    method PayForCard(sessionId: SessionId, buyerName: Name, cardId: int) returns (r: Result<PayForCardResult, Error>)
      requires Valid()
      modifies this
      ensures Valid()
      ensures r.Err? ==> sessions == old(sessions)
      ensures sessionId !in old(sessions) ==> r == Err(SessionNotFound)
      ensures sessionId in old(sessions) ==>
        var s := old(sessions)[sessionId];
        match IndexOfCard(s.cardStates, cardId)
        case None => r == Err(CardNotFound)
        case Some(c) =>
          var cs := s.cardStates[c];
          if || IndexOfName(s.players, buyerName).None?
             || cs.ownerName.None?
             || IndexOfName(s.players, cs.ownerName.value).None?
          then r == Err(PlayerNotFound)
          else if cs.currentFine.None? then r == Err(NullPointer)
          else
            var b := IndexOfName(s.players, buyerName).value;
            var o := IndexOfName(s.players, cs.ownerName.value).value;
            var fine := cs.currentFine.value;
            && r == Ok(PayForCardResult(buyerName, s.players[b].balance - fine, cs.ownerName.value, s.players[o].balance + fine))
            && sessions == old(sessions)[sessionId := s.(moveStatus := Start, players := SettleRent(s.players, b, o, fine))]
      ensures r.Ok? ==>
        && sessionId in old(sessions) && sessionId in sessions
        && sessions[sessionId].cardStates == old(sessions)[sessionId].cardStates
        && (r.value.buyerName != r.value.ownerName ==>
              TotalBalance(sessions[sessionId].players) == TotalBalance(old(sessions)[sessionId].players))
    {
      if sessionId !in sessions {
        return Err(SessionNotFound);
      }
      var session := sessions[sessionId];
      session := session.(moveStatus := Start);
      var c := IndexOfCard(session.cardStates, cardId);
      if c.None? {
        return Err(CardNotFound);
      }
      var cardState := session.cardStates[c.value];
      var ownerName := cardState.ownerName;
      var fine := cardState.currentFine;
      var buyer := IndexOfName(session.players, buyerName);
      if buyer.None? {
        return Err(PlayerNotFound);
      }
      if ownerName.None? {
        // the player lookup for a null owner name finds nobody
        return Err(PlayerNotFound);
      }
      var owner := IndexOfName(session.players, ownerName.value);
      if owner.None? {
        return Err(PlayerNotFound);
      }
      if fine.None? {
        // unboxing the null fine in the subtraction
        return Err(NullPointer);
      }
      var buyerBalance := session.players[buyer.value].balance - fine.value;
      var ownerBalance := session.players[owner.value].balance + fine.value;
      session := session.(players := UpdateBalance(session.players, buyerName, buyerBalance));
      session := session.(players := UpdateBalance(session.players, ownerName.value, ownerBalance));
      ghost var before := sessions[sessionId].players;
      assert session.players == SettleRent(before, buyer.value, owner.value, fine.value);
      SettleRentKeepsNames(before, buyer.value, owner.value, fine.value);
      if buyer.value != owner.value {
        RentConservesMoney(before, buyer.value, owner.value, fine.value);
      }
      assert session == sessions[sessionId].(moveStatus := Start, players := session.players);
      StoreUpdate(sessions, sessionId, session);
      sessions := sessions[sessionId := session];
      r := Ok(PayForCardResult(buyerName, buyerBalance, ownerName.value, ownerBalance));
    }
  }
}
