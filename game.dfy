/** The entities of one game session, as values, and the constants of the game. */
module Game {
  import opened Wrappers

  type SessionId = string
  type Name = string

  /** Phase of the current player's turn. */
  datatype MoveStatus = Start | Middle | End

  /** Lifecycle of a session: waiting for players, then playing. */
  datatype SessionState = Lobby | InProgress

  datatype PlayerRole = Admin | User

  /** A player of one session; (session id, name) is its key. */
  datatype Player = Player(name: Name, colour: string, role: PlayerRole, balance: int, position: int)

  /** A catalog company card: its id, its price and the fine for each level. */
  datatype CompanyCard = CompanyCard(id: int, price: int, fines: seq<int>)

  /** The per-session state of one card. `currentFine` and `ownerName` are nullable
      columns: they stay null until someone buys the card. */
  datatype CardState = CardState(card: CompanyCard, level: int, currentFine: Option<int>, ownerName: Option<Name>)

  /** The session row together with its players (in turn order) and its card states. */
  datatype Session = Session(
    state: SessionState,
    moveStatus: MoveStatus,
    currentPlayer: Name,
    players: seq<Player>,
    cardStates: seq<CardState>)

  /** The exceptions the service lets escape, each rolling its transaction back. */
  datatype Error =
    | SessionNotFound
    | SessionAlreadyExists
    | PlayerNotFound
    | PlayerAlreadyExists
    | CardNotFound
    | IndexOutOfBounds   // fines.get(level) with a level outside the fine list
    | NullPointer        // dereferencing or unboxing a null

  /** Smallest and largest value of one die. */
  const MIN_BORDER: int := 1
  const MAX_BORDER: int := 6

  /** The current player and move status of a session nobody has started yet. */
  const INITIAL_CURRENT_PLAYER_NAME: Name := "none"
  const INITIAL_MOVE_STATUS: MoveStatus := Start
}
