# Monopoly session engine — a Dafny model

This project models the session service of a multiplayer Monopoly-style game
(`SessionServiceImpl`). A session has a lifecycle state (lobby or in progress), a
current player, and a move status that gives the phase of that player's turn
(START, MIDDLE, END). It holds its players in turn order, each with a balance and a
board position. It also holds one state per company card: the card's level, its
current fine, its owner, and the catalog card with its price and per-level fines.

The service operations are modelled as methods of the class
`Service.SessionServiceImpl`. Its field `sessions` stands for the stored sessions,
and each session record holds that session's players and card states.

- Create a session, with the admin as its only player.
- Add a player.
- Start the game.
- Roll the dice.
- Buy a card.
- Pay rent on a card.
- Hand the turn to the next player.
- Look up a session or its move status.

Each operation is one transaction. It works on a copy of the session record and
stores the copy only if nothing has failed. Every error path therefore leaves
`sessions` unchanged, and each method's contract says so.

The pure parts of the service have their own modules, functions and lemmas:

- `Registry`: finding players by name, updating balances and positions by name, and
  the total money the players hold.
- `Ledger`: finding a card by id, the fine lookup, and what a purchase does to a card.
- `TurnOrder`: the turn rotation, as a scan and as a specification, and what
  repeated rotation does.

`ExampleGame.TwoPlayerRound` is a client of the service. It plays one round with
two players, Alice and Bob, using only the service's contracts. Alice buys card 7
for 200 and Bob pays her a rent of 50. The client proves the final balances:
Bob has 1450 and Alice has 1350.

Design choices, and places where the code checks less than the game's rules suggest:

- The code performs fewer checks than a rules-complete engine would, and the model follows the code:
  - No operation checks that the caller is the current player.
  - No operation checks the move phase. `buyCard` always sets END and `payForCard`
    always sets START.
  - `startGame` does not reject a game that has already started.
  - `buyCard` does not reject a card that already has an owner. It raises the
    level again.
- Rent on an unowned card fails because the code looks up a player with a null
  name. The model reports this as `PlayerNotFound`.
- A null current fine fails when the code unboxes it. The model reports this as
  `NullPointer`.
- `getNextPlayer` dereferences a null player when `previousPLayer` is not in the
  list. The model reports this as `NullPointer` instead of requiring the name to
  be present.
- `fines.get(level)` with a level outside the list throws. The model reports this
  as `IndexOutOfBounds`.
- Paying rent on your own card leaves that player with the old balance plus the
  fine. The owner's balance is written last, so that write is the one that stays.
- Player names are unique within a session, because a player's key is
  (session id, name). `Valid()` keeps this invariant.
- Balance and position updates go by name, as the player service's
  `updatePlayerBalance` and `updatePlayerPosition` do.
- `PlayerService` is not part of this model. The model gives it this contract:
  - `getPlayer` fails with `PlayerNotFound` when the name is absent.
  - `savePlayer` fails with `PlayerAlreadyExists` when the name is taken.
  - A saved player gets the balance and position the store was constructed with.
- `SortHelper.getSortedPlayers` is not part of this model. The stored player
  sequence is taken to be in sorted turn order already.
- `PlayerPositionHelper.getNewPosition` is not part of this model. `RollDices`
  takes it as a function parameter, and the model claims no formula for it.
- `RandomHelper` is not part of this model. The two dice are parameters that must
  lie in [MIN_BORDER, MAX_BORDER].
- `PlayingFieldParam` and `InitialGameValue` are not part of this model. The
  constants classes are not shown; the model assumes these values:
  - MIN_BORDER = 1 and MAX_BORDER = 6;
  - the initial current player is `"none"`;
  - the initial move status is START.
- The lifecycle value a new session starts in is not set by `saveSession`. The
  model uses `Lobby`.
- `findAny()` on the card stream is modelled as taking the first match.

## Model

| member | source | states |
|---|---|---|
| `Service.SessionServiceImpl.GetSession` | src/main/java/com/game/monopoly/service/impl/SessionServiceImpl.java:46-51 | the lookup succeeds exactly when the id is stored, returns that session, and otherwise fails with SessionNotFound |
| `Service.SessionServiceImpl.CheckSessionExists` | src/main/java/com/game/monopoly/service/impl/SessionServiceImpl.java:53-59 | fails with SessionAlreadyExists exactly when the id is already stored |
| `Service.SessionServiceImpl.SaveSession` | src/main/java/com/game/monopoly/service/impl/SessionServiceImpl.java:61-74 | adds one session whose only player is the ADMIN, with the initial current player name, the initial move status and the given card states; other sessions are unchanged and names stay unique |
| `Service.SessionServiceImpl.AddPlayerToSession` | src/main/java/com/game/monopoly/service/impl/SessionServiceImpl.java:76-89 | an unknown session fails with SessionNotFound and a taken name with PlayerAlreadyExists, with no change; otherwise exactly one USER player is appended and returned |
| `Service.SessionServiceImpl.RollDices` | src/main/java/com/game/monopoly/service/impl/SessionServiceImpl.java:91-110 | an unknown player fails with no change; otherwise only the roller's position changes, to getNewPosition(old position, dice), the move status becomes MIDDLE, and the two returned dice lie in [MIN_BORDER, MAX_BORDER] |
| `Service.SessionServiceImpl.StartGame` | src/main/java/com/game/monopoly/service/impl/SessionServiceImpl.java:112-122 | the state becomes IN_PROGRESS, the current player becomes the given one and the move status START; players and cards unchanged; an unknown session fails with no change |
| `Service.SessionServiceImpl.BuyCard` | src/main/java/com/game/monopoly/service/impl/SessionServiceImpl.java:124-152 | on success the card's level rises by one, its owner is the buyer and its fine is fines[old level]; the buyer pays the price, so the total money drops by the price; the move status is END and nothing else changes; an unknown session, card or player, or a level outside the fine list, fails with no change; ownership consistency of every card is preserved |
| `Service.SessionServiceImpl.GetNextPlayer` | src/main/java/com/game/monopoly/service/impl/SessionServiceImpl.java:154-174 | on success the current player becomes the successor of the previous player, who is a player of the session, and the move status is START, with players and cards unchanged; an unknown session or a previous player not in the list fails with no change |
| `Service.SessionServiceImpl.PayForCard` | src/main/java/com/game/monopoly/service/impl/SessionServiceImpl.java:185-211 | on success the payer loses the card's current fine and the owner gains it, the total money is unchanged when payer and owner differ, the card states are unchanged and the move status is START; an unknown card or player, an unowned card or a null fine fails with no change |
| `Service.SessionServiceImpl.GetCurrentMoveStatus` | src/main/java/com/game/monopoly/service/impl/SessionServiceImpl.java:213-216 | returns the stored move status of a known session and fails with SessionNotFound otherwise |
| `Registry.IndexOfName` | src/main/java/com/game/monopoly/service/impl/SessionServiceImpl.java:202-203 | finds the first player with the name, and finds none exactly when no player has it |
| `Registry.UpdateBalanceAt` | src/main/java/com/game/monopoly/service/impl/SessionServiceImpl.java:149 | with unique names, a balance update by name changes exactly that player's balance and keeps names unique |
| `Registry.UpdatePositionAt` | src/main/java/com/game/monopoly/service/impl/SessionServiceImpl.java:101 | with unique names, a position update by name changes exactly that player's position and keeps names unique |
| `Registry.TotalAfterUpdateBalance` | src/main/java/com/game/monopoly/service/impl/SessionServiceImpl.java:143-149 | setting one player's balance moves the total money by the same amount, so a purchase removes the price from the players' total |
| `Registry.SettleRentKeepsNames` | src/main/java/com/game/monopoly/service/impl/SessionServiceImpl.java:207-208 | the rent payment changes only balances, so player names stay unique |
| `Registry.SettleRentEffect` | src/main/java/com/game/monopoly/service/impl/SessionServiceImpl.java:199-208 | the payer loses the fine and the owner gains it; when payer and owner are one player, that player ends at old balance + fine; everyone else, and all names and positions, are unchanged |
| `Registry.RentConservesMoney` | src/main/java/com/game/monopoly/service/impl/SessionServiceImpl.java:204-208 | rent between two different players leaves the total money of the session unchanged |
| `Registry.SelfRentAddsFine` | src/main/java/com/game/monopoly/service/impl/SessionServiceImpl.java:204-208 | rent paid to oneself raises the total money by the fine, because the second balance write wins |
| `Ledger.IndexOfCard` | src/main/java/com/game/monopoly/service/impl/SessionServiceImpl.java:133-137 | finds the first card state whose card has the id, and finds none exactly when no card has it |
| `Ledger.IndexOfCardAsWritten` | src/main/java/com/game/monopoly/service/impl/SessionServiceImpl.java:133-137 | the lookup with reference comparison of boxed ids finds a card only for ids in [-128, 127], and misses every id outside that range |
| `Ledger.BoxedLookupMissesCard` | src/main/java/com/game/monopoly/service/impl/SessionServiceImpl.java:135 | a session holding card 200 is told CARD_NOT_FOUND by the lookup as written, while the lookup by value finds the card |
| `Ledger.LookupsAgreeInCache` | src/main/java/com/game/monopoly/service/impl/SessionServiceImpl.java:135 | for ids in [-128, 127] the lookup as written and the lookup by value agree |
| `Ledger.FineAt` | src/main/java/com/game/monopoly/service/impl/SessionServiceImpl.java:141-142 | the fine is fines[level] when the level indexes the fine list, and IndexOutOfBounds otherwise |
| `Ledger.Purchased` | src/main/java/com/game/monopoly/service/impl/SessionServiceImpl.java:145-148 | a purchased card is one level higher, belongs to the buyer and carries the fine for the level it had, so its ownership record is consistent |
| `TurnOrder.Successor` | src/main/java/com/game/monopoly/service/impl/SessionServiceImpl.java:157-168 | a successor exists exactly when some player has the previous player's name, and it is one of the players |
| `TurnOrder.FindNextPlayer` | src/main/java/com/game/monopoly/service/impl/SessionServiceImpl.java:157-168 | the linear scan with break returns exactly the successor |
| `TurnOrder.SuccessorAt` | src/main/java/com/game/monopoly/service/impl/SessionServiceImpl.java:161-165 | with unique names, player i is followed by player i + 1, and the last player by the first |
| `TurnOrder.SuccessorWraps` | src/main/java/com/game/monopoly/service/impl/SessionServiceImpl.java:161-165 | with unique names, player i is followed by player (i + 1) mod n |
| `TurnOrder.TurnsAheadModular` | src/main/java/com/game/monopoly/service/impl/SessionServiceImpl.java:154-174 | k rotations from player i reach player (i + k) mod n |
| `TurnOrder.FullRoundReturns` | src/main/java/com/game/monopoly/service/impl/SessionServiceImpl.java:154-174 | n rotations bring the turn back to the same player |
| `TurnOrder.EveryoneGetsATurn` | src/main/java/com/game/monopoly/service/impl/SessionServiceImpl.java:154-174 | from any player, every player gets the turn within fewer than n rotations |

## Findings

| source | as written | input that shows it | evidently intended | confidence | as-written member | corrected member |
|---|---|---|---|---|---|---|
| src/main/java/com/game/monopoly/service/impl/SessionServiceImpl.java:135 | `cs.getCard().getId() == cardId` compares two boxed `Long` objects by reference. Two separately boxed values are the same object only inside the `Long.valueOf` cache, [-128, 127]. Line 196 has the same comparison. | a session holding a card with id 200: `buyCard` or `payForCard` with card id 200 throws CARD_NOT_FOUND | compare the ids by value | medium, not executed; it assumes `CompanyCard`'s id is a `Long`, as `ChanceCard`'s is | `Ledger.IndexOfCardAsWritten` | `Ledger.IndexOfCard` |

The service methods use the corrected lookup.

## Left out

- Chat and message history are left out. This covers `addCommonMessageToChatHistory`, the messages each operation saves and appends, and `messageDAO`. They are a log and change no game state.
- `SessionController`, `SessionProcessController` and `ChanceCard` are left out. They are transport and a field-only entity.
- The persistence layer, the transaction machinery and per-session locking are left out. Each operation is modelled as one atomic, sequential update.
- `PlayerService`, `SortHelper`, `PlayerPositionHelper`, `RandomHelper` and the constants classes are not part of this model. What replaces each of them is stated above.
- Service.SessionServiceImpl.SaveSession: requires that the id is not stored yet. The source leaves that check to `checkSessionExists`. What the persistence layer does when it saves over an existing id is outside this model.
- Service.SessionServiceImpl.BuyCard: balances are unbounded integers, so Java `long` wrap-around at 2^63 is not modelled.
- Service.SessionServiceImpl.PayForCard: balances are unbounded integers, so Java `long` wrap-around at 2^63 is not modelled.
- Service.SessionServiceImpl.BuyCard: the card id is compared by value, through `Ledger.IndexOfCard`, so the miss for ids outside [-128, 127] described under Findings does not happen in this method.
- Service.SessionServiceImpl.PayForCard: the card id is compared by value, through `Ledger.IndexOfCard`, so the miss for ids outside [-128, 127] described under Findings does not happen in this method.
- The id of a card state row, and a null `level` or null fine value in the catalog, are not modelled.
