/** Values shared by the quiz room engine: identities, questions, the
    messages the server broadcasts and the records it persists. */
module QuizTypes {

  /** A client id doubles as the player id and as the player's display name. */
  type PlayerId = string
  type RoomId = string

  /** An opaque handle standing for one live WebSocket connection. */
  datatype Conn = Conn(handle: nat)

  /** Seconds a turn lasts, as reported in `timeRemaining`. */
  const TIME_PER_QUESTION: int := 30
  /** A score at or above this ends the game at the start of the next turn. */
  const WINNING_SCORE: int := 120
  /** Subtracted for a wrong answer or an expired turn (floored at zero). */
  const PENALTY_POINTS: int := 5
  /** Added for a correct answer. */
  const CORRECT_REWARD: int := 10

  /** Winner text when the pool runs out and nobody has a score. */
  const TIE_WINNER: string := "Empate"
  /** Winner text when a started game loses its quorum. */
  const DISCONNECT_WINNER: string := "Jogo encerrado por desconexão"

  datatype Option<T> = None | Some(value: T)

  /** One multiple-choice question; only `correctAnswer` matters to the engine. */
  datatype Question = Question(
    question: string,
    options: seq<string>,
    correctAnswer: string,
    difficulty: string)

  /** The public projection of a room sent in every `gameStateUpdate`. */
  datatype PublicState = PublicState(
    players: seq<PlayerId>,
    scores: map<PlayerId, int>,
    currentQuestion: Option<Question>,
    currentPlayerIndex: int,
    timeRemaining: Option<int>)

  /** The outbound messages of the protocol. */
  datatype Message =
    | GameStateUpdate(state: PublicState)
    | AnswerResult(correctAnswer: string, selectedAnswer: string)
    | GameOver(winner: string)

  /** One broadcast: the message and every connection of the room it went to. */
  datatype Delivery = Delivery(room: RoomId, recipients: map<PlayerId, Conn>, message: Message)

  /** One call of the ranking store: `update_player_score(player, score, host)`. */
  datatype ScoreRecord = ScoreRecord(player: PlayerId, score: int, host: PlayerId)
}
