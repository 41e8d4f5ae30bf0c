# Quiz room engine — a verified model

This project models the multiplayer quiz back end's room/turn engine
(`PROJETO_QUIZ/quiz-backend/main.py`). The server keeps one record per room
in `game_states`: the host, the players in join order, their scores, the
question pool, the current question, the index of the turn-holder, a pending
turn timer and a started flag. The record changes in place when a client
joins, when the game starts, when a turn advances, when the timer expires,
when the turn-holder answers and when a client disconnects. Finished games
are flushed to the ranking store and deleted. A small connection registry
(`ConnectionManager`) maps each room to its open connections. Messages are
broadcast only to rooms that still have a game record.

The model has four modules:

- `QuizTypes` (`types.dfy`): ids, questions, the public state, the three
  outgoing message kinds, and the constants `TIME_PER_QUESTION = 30`,
  `WINNING_SCORE = 120`, `PENALTY_POINTS = 5` and the reward of 10.
- `Scoring` (`scoring.dfy`): the decisions the engine makes, as functions
  with lemmas about them. These cover the score updates, turn rotation, the
  win check, the exhaustion winner (Python's `max`, which keeps the first
  maximal key), the random draw, the custom-question merge, the end-of-game
  flush, and how the roster and turn index change when a player leaves.
  `FindWinner` is the source's loop at main.py:668-671 and `FindLeader` a
  scan standing for the builtin `max(scores, key=scores.get)` at
  main.py:675; each is proved equal to its function.
- `Connections` (`connections.dfy`): the `ConnectionManager` class. It holds
  the nested registry map and an outbox. `Broadcast` appends one delivery
  to the outbox, naming the room's connections and the message.
- `Engine` (`engine.dfy`): the `Room` class, whose fields are updated in
  place, and the `QuizServer` class. `QuizServer` holds `games` (the
  `game_states` dict), the manager and `ledger`. The ledger is the list of
  `update_player_score` calls made so far. Each handler is a method. Its
  `ensures` gives the handler's new state in terms of the old state and
  the `Scoring` functions.

Each room keeps its own invariant, `Room.Valid()`:

- the roster has no duplicates;
- `players` and `scores` have the same keys;
- no score is negative;
- the turn index is in range whenever anyone is left;
- a started game has at least two players, a current question and a
  30-second countdown;
- a lobby has index 0, no timer, no question and only zero scores.

Every handler keeps this invariant for the room it touches. Its
`modifies` clause leaves every other room object untouched, and its
`ensures` says that `games` changes at most at that room's key (a room
added, replaced by its own object, or deleted), so every other room keeps
its entry and its invariant.

The random draw at main.py:678 is a caller-supplied `pick`. The model uses
the index `pick % |pool|`, so every index in the pool can be chosen. The
ranking store's `get_questions_by_player` is a caller-supplied function
`fetch`. The asyncio timer is the flag `Room.timerArmed`: cancelling clears
the flag, and `TimerExpires` does nothing when the flag is clear or the room
is gone.

## Model

| member | source | states |
|---|---|---|
| Scoring.Penalized | PROJETO_QUIZ/quiz-backend/main.py:691 | `max(0, s - 5)` is never negative, never raises a non-negative score, strictly lowers a positive one, takes exactly 5 from a score of at least 5, and floors any score below 5 at exactly 0 |
| Scoring.Judged | PROJETO_QUIZ/quiz-backend/main.py:745-748 | from a non-negative score the result stays non-negative; it rises exactly when the answer was right, and then by exactly 10; a wrong answer gives exactly the penalty `Penalized(s)` |
| Scoring.IsCorrect | PROJETO_QUIZ/quiz-backend/main.py:742 | an answer is right exactly when it matches `correctAnswer` character for character, with the same length |
| Scoring.NextIndex | PROJETO_QUIZ/quiz-backend/main.py:673 | the rotated index is in range; it is `i + 1` below the last player and wraps to 0 after the last |
| Scoring.RotatedIsOffset | PROJETO_QUIZ/quiz-backend/main.py:673 | `k <= n` rotations from `i` land on `i + k`, wrapped once |
| Scoring.EveryPlayerGetsATurn | PROJETO_QUIZ/quiz-backend/main.py:673 | within `n` consecutive rotations every one of `n` players holds the turn, and the `n`-th rotation returns to the start |
| Scoring.FirstWinnerIsFirstReaching | PROJETO_QUIZ/quiz-backend/main.py:668-671 | the win check finds nobody exactly when every score is below 120; otherwise it names the first player in join order at or above 120 |
| Scoring.LobbyHasNoWinner | PROJETO_QUIZ/quiz-backend/main.py:717 | with every score at its joining value 0, the win check finds nobody |
| Scoring.FindWinner | PROJETO_QUIZ/quiz-backend/main.py:668-671 | the loop over `scores.items()` returns the first player at or above 120, or none |
| Scoring.FirstMaxIndexIsFirstMaximum | PROJETO_QUIZ/quiz-backend/main.py:675 | the left-to-right scan that replaces its candidate only on a strictly greater score ends on a maximal score, and every earlier player scores strictly less |
| Scoring.Leader | PROJETO_QUIZ/quiz-backend/main.py:675 | with no scores the result is "Empate"; otherwise it is one of the players |
| Scoring.LeaderIsFirstTopScorer | PROJETO_QUIZ/quiz-backend/main.py:675 | `max(scores, key=scores.get)` names a player whose score no one beats and whom every earlier player scores strictly below |
| Scoring.FindLeader | PROJETO_QUIZ/quiz-backend/main.py:675 | the scan for the exhaustion winner, as a loop, returns exactly `Leader` |
| Scoring.Draw | PROJETO_QUIZ/quiz-backend/main.py:678 | popping the drawn index removes exactly one question: the pool shrinks by one and the drawn question plus the remaining pool is the old pool as a multiset; an in-range pick is the question at that index |
| Scoring.CustomQuestionsComeFromPlayers | PROJETO_QUIZ/quiz-backend/main.py:646-648 | a question is in the merged custom questions exactly when some player's fetch returned it |
| Scoring.PositiveRecords | PROJETO_QUIZ/quiz-backend/main.py:657-658 | the flush writes no more records than there are players; every record is keyed with the host, names a player of the room and carries that player's positive score |
| Scoring.PositiveScoresAreFlushedOnce | PROJETO_QUIZ/quiz-backend/main.py:657-658 | every player with a positive score is flushed, and no player is flushed twice |
| Scoring.NoRecordsForZeroScores | PROJETO_QUIZ/quiz-backend/main.py:657-658 | a game in which nobody scored flushes nothing |
| Scoring.AdvanceTurn | PROJETO_QUIZ/quiz-backend/main.py:664-681 | the turn ends the game exactly when someone has reached 120 or the pool is empty; a winner ends it before any rotation or draw, with the index unchanged; an empty pool ends it with `Leader` as winner; otherwise the index rotates (not on the opening turn), stays in range, and exactly one question leaves the pool |
| Scoring.Without | PROJETO_QUIZ/quiz-backend/main.py:762 | deleting a player keeps every other player and nobody else, and shrinks a roster that contained them |
| Scoring.WithoutKeepsDistinct | PROJETO_QUIZ/quiz-backend/main.py:762 | deleting a player keeps the roster free of duplicates |
| Scoring.WithoutAt | PROJETO_QUIZ/quiz-backend/main.py:762 | in a roster without duplicates, deleting the player at position `j` leaves the players before and after `j`, in order |
| Scoring.Clamped | PROJETO_QUIZ/quiz-backend/main.py:774-775 | with players left the clamped index is in range, an in-range index is kept, and an index one past the end wraps to 0 |
| Scoring.DepartingHolderPassesTurn | PROJETO_QUIZ/quiz-backend/main.py:761-775 | when the turn-holder leaves a room of two or more, the clamped index lands on the player who would have held the turn next |
| Scoring.DepartureKeepsHolderIff | PROJETO_QUIZ/quiz-backend/main.py:761-775 | when another player leaves a room that keeps at least two, the turn-holder keeps the turn exactly when the leaver joined after them |
| Connections.Fanout | PROJETO_QUIZ/quiz-backend/main.py:68-72 | a broadcast yields one delivery, to the room's connections, exactly when the room has connections, and nothing otherwise |
| Connections.Dropped | PROJETO_QUIZ/quiz-backend/main.py:64-67 | dropping a connection removes only that client from that room, deletes the room entry once it is empty, and changes nothing for an unknown room or client |
| Connections.ConnectionManager.constructor | PROJETO_QUIZ/quiz-backend/main.py:59 | the registry starts empty |
| Connections.ConnectionManager.Connect | PROJETO_QUIZ/quiz-backend/main.py:60-63 | the room entry is created if missing and the client's connection is stored under it; no room entry is ever empty |
| Connections.ConnectionManager.Disconnect | PROJETO_QUIZ/quiz-backend/main.py:64-67 | the registry becomes `Dropped` of the old one, so the client is no longer registered in the room |
| Connections.ConnectionManager.Broadcast | PROJETO_QUIZ/quiz-backend/main.py:68-72 | a room without game state receives nothing; otherwise the message goes to the room's connections; the registry is unchanged |
| Engine.Room.constructor | PROJETO_QUIZ/quiz-backend/main.py:636-641 | a new room has the given host, no players, no scores, a copy of the default pool, no question, index 0, no timer, and is not started, which is `NewRoom`; it satisfies the room invariant |
| Engine.Room.MergeCustomQuestions | PROJETO_QUIZ/quiz-backend/main.py:646-648 | every player's custom questions are appended to the pool, in join order, and nothing else changes |
| Engine.Room.Start | PROJETO_QUIZ/quiz-backend/main.py:646-649 | a lobby with a quorum gets the merged pool and is marked started, ready for the opening turn with all scores 0 |
| Engine.Room.Enroll | PROJETO_QUIZ/quiz-backend/main.py:715-718 | a newcomer is appended to the roster with score 0, which is `Enrolled` of the old fields, and the room invariant is kept |
| Engine.Room.PassTurn | PROJETO_QUIZ/quiz-backend/main.py:672-673 | only the index changes, to the next player in join order |
| Engine.Room.Remove | PROJETO_QUIZ/quiz-backend/main.py:761-763 | the player leaves the roster and the scores in the same step; the two keep the same keys; unless a started game lost its quorum, the room is valid apart from the turn index |
| Engine.Room.ClampTurn | PROJETO_QUIZ/quiz-backend/main.py:774-775 | only the index changes, to `Clamped`, which is in range whenever anyone is left |
| Engine.Room.Projection | PROJETO_QUIZ/quiz-backend/main.py:695-701 | the public state of a valid room has a roster without duplicates, a score for exactly the listed players, no negative score and an in-range index; it equals the ghost `Shown` of the room's fields, which the join contracts use |
| Engine.QuizServer.constructor | PROJETO_QUIZ/quiz-backend/main.py:74-75 | the server starts with no rooms, an empty registry and an empty score log |
| Engine.QuizServer.GetPublicState | PROJETO_QUIZ/quiz-backend/main.py:695-701 | an unknown room reads as empty players and scores, no question, index 0 and no countdown; a valid room's projection is well formed |
| Engine.QuizServer.CreateNewGameState | PROJETO_QUIZ/quiz-backend/main.py:636-641 | an existing room is never overwritten; otherwise a fresh room with the given host and the default pool is added and no other room changes |
| Engine.QuizServer.EndGameAndSaveScores | PROJETO_QUIZ/quiz-backend/main.py:652-662 | for an existing room: the positive scores are logged under the host, `gameOver` goes out while the room still exists, the timer is cancelled and the room is deleted; an unknown room changes nothing |
| Engine.QuizServer.SaveScores | PROJETO_QUIZ/quiz-backend/main.py:657-658 | the loop appends exactly `PositiveRecords` to the score log |
| Engine.QuizServer.ServeQuestion | PROJETO_QUIZ/quiz-backend/main.py:678-681 | the drawn question becomes current and leaves the pool, the countdown is 30, the new state is broadcast and a timer is armed; nothing else in the room changes |
| Engine.QuizServer.NextTurn | PROJETO_QUIZ/quiz-backend/main.py:664-681 | the room ends up exactly as `AdvanceTurn` decides: either torn down with its winner, or given the new turn-holder, the drawn question, a 30-second countdown, a broadcast and an armed timer; an unknown room changes nothing |
| Engine.QuizServer.RotateAndServe | PROJETO_QUIZ/quiz-backend/main.py:672-681 | when nobody has reached 120, the room advances as `AdvanceTurn` decides |
| Engine.QuizServer.EndExhausted | PROJETO_QUIZ/quiz-backend/main.py:674-677 | an exhausted pool tears the room down with `Leader` as the winner |
| Engine.QuizServer.StartGame | PROJETO_QUIZ/quiz-backend/main.py:643-650 | a no-op unless the room exists, is in the lobby and has at least two players; otherwise the merged pool is used, the game is marked started and the opening turn runs without rotating, so the index stays 0; the room is gone afterwards exactly when the merged pool was empty; nothing is logged |
| Engine.QuizServer.AddPlayer | PROJETO_QUIZ/quiz-backend/main.py:708-722 | a new room gets this client as host and the default pool; the room's fields become `Enrolled` of the old ones, so the client is appended with score 0 exactly when not already a player and the other scores are kept; a lobby that gained a player is shown the new roster; no other room changes |
| Engine.QuizServer.Enter | PROJETO_QUIZ/quiz-backend/main.py:708-725 | `games` changes at most at this room; the newcomer gets score 0 and every other score is kept; `Entered`: a lobby that reaches two players runs the opening turn at index 0 with one question drawn from the merged pool (or is torn down on an empty pool), otherwise the room only gains the client and the lobby broadcast; the host is kept and a surviving room is started exactly when it has at least two players |
| Engine.QuizServer.Join | PROJETO_QUIZ/quiz-backend/main.py:703-725 | the connection is registered under the room, and then everything `Enter` states holds of the rooms, the ledger and the outbox |
| Engine.QuizServer.TimerExpires | PROJETO_QUIZ/quiz-backend/main.py:683-693 | a cancelled timer or a deleted room changes nothing; otherwise the turn-holder's score becomes `Penalized` and the turn advances as `AdvanceTurn` decides from that score |
| Engine.QuizServer.SubmitAnswer | PROJETO_QUIZ/quiz-backend/main.py:731-751 | a deleted room, an empty roster, a sender who is not the turn-holder and a lobby answer change nothing, each reported as its own outcome; the turn-holder's answer during a game is handled as `Answer` |
| Engine.QuizServer.Answer | PROJETO_QUIZ/quiz-backend/main.py:739-751 | the timer is cancelled, `answerResult` is broadcast, the score becomes `Judged` (+10 on an exact match, `max(0, s - 5)` otherwise) and the turn advances as `AdvanceTurn` decides from that score |
| Engine.QuizServer.Disconnect | PROJETO_QUIZ/quiz-backend/main.py:753-778 | the registry drops the connection; a client who is not a player of an existing room changes no game state; a player's departure is `Departed` |
| Engine.QuizServer.RemovePlayer | PROJETO_QUIZ/quiz-backend/main.py:756-778 | the game-state half of the disconnect path, with the same guarantees as `Disconnect` minus the registry |
| Engine.QuizServer.Depart | PROJETO_QUIZ/quiz-backend/main.py:761-778 | the player leaves roster and scores together; a started game left with fewer than two players is torn down with "Jogo encerrado por desconexão"; otherwise the index is clamped and the remaining players are shown the new state |
| Engine.QuizServer.Abandon | PROJETO_QUIZ/quiz-backend/main.py:761-770 | the player is removed and the room is torn down with the disconnect verdict, flushing the remaining players' positive scores |
| Engine.QuizServer.Stay | PROJETO_QUIZ/quiz-backend/main.py:761-778 | the player is removed, the index is clamped and the new state is broadcast, with the room still valid |
| Engine.QuizServer.ShowRoster | PROJETO_QUIZ/quiz-backend/main.py:774-778 | only the turn index changes, to `Clamped`; the room becomes valid again and the new state is broadcast |

## Left out

- asyncio: `create_task`, `sleep` and `CancelledError` are not modelled. The pending timer task is the flag `Room.timerArmed`. The timer firing is the separate event `TimerExpires`, which does nothing when the flag is clear.
- Engine.QuizServer.TimerExpires: on the timer path, `next_turn` cancels the very task that is running it. Whether the pending `CancelledError` interrupts that task at its next await depends on whether the WebSocket send suspends, so it is not modelled. The model completes the turn, including the broadcast and the new timer.
- The 2-second reveal delay after an answer (main.py:750) is dropped. No other event can interleave with an answer in the model. In the source, `next_turn` looks the room up again by its id after the delay (main.py:665). Meanwhile the other player of a two-player game can disconnect, which deletes the room (main.py:766-770), and a new client can re-create the id as a one-player lobby (main.py:708-709). The late `next_turn` would then rotate with `% 1` and serve a question into that lobby (main.py:673, 678-681), leaving a room that is not started but has a question and an armed timer. If that lobby has emptied again, it would raise ZeroDivisionError at main.py:673. The model does not capture this interleaving.
- Transport: WebSocket accept/send/receive, JSON parsing, the FastAPI routes, CORS and the startup hook are not modelled. A broadcast is one `Delivery` appended to the outbox, naming the recipients. The order of sends among the recipients is not modelled.
- Message types other than `submitAnswer`, and malformed messages, are not modelled. The source ignores the first and raises out of the loop on the second.
- Engine.QuizServer.SubmitAnswer: a lobby answer makes the source raise at main.py:742, and that ends the handler without the disconnect clean-up. The model returns `NoActiveQuestion` and changes nothing. The client's stale registry entry and roster slot are not modelled.
- Engine.QuizServer.SubmitAnswer: when the room is gone, the source leaves the receive loop (main.py:732) without the disconnect clean-up. The model reports `RoomGone`, and the registry entry left behind is not modelled.
- Randomness: `random.randrange` is replaced by the caller's `pick`, used as `pick % |pool|`.
- The default question list (main.py:77-633) is data. Questions are opaque records with a `correctAnswer`.
- `database.py` is not part of this model. Persistence is the `ledger` of `(player, score, host)` records, one per call at main.py:658. Custom questions come from the `fetch` parameter.
- The persistence calls do not match `database.py`. `update_player_score` takes two arguments (database.py:27) but is called with three at main.py:658. `get_questions_by_player`, called at main.py:647, is not defined there. The ranking route passes a host name as `get_ranking`'s `limit` (main.py:56). The model records the call as the engine makes it. It does not model the failures these mismatches would cause.
- Engine.QuizServer.NextTurn: requires a started room with at least two players and an in-range index. With zero players the source would divide by zero at main.py:673. Every call site in the model meets it: `start_game`, an armed timer, and the turn-holder's answer. The last holds only because the model drops the 2-second delay. In the source, the answer path can reach a re-created room after that delay (see the delay line above).
- The public state includes the current question with its `correctAnswer` (main.py:699), so clients can see the answer. The model keeps this behaviour.
- A lobby room whose players have all left is never deleted. The model keeps it too.
- The `players` dict values (`{"name": client_id}`) carry nothing beyond the id. The roster is a sequence of ids.
