/** The room/turn engine: one `Room` per entry of the server's `game_states`
    dict, mutated in place by the turn procedure, the timer, answers, joins
    and disconnects; the connection registry; and the ranking store's log of
    score records. */
module Engine {
  import opened QuizTypes
  import opened Scoring
  import opened Connections

  /** The values of a room's fields at one moment. */
  datatype RoomSnapshot = RoomSnapshot(
    host: PlayerId,
    players: seq<PlayerId>,
    scores: map<PlayerId, int>,
    questions: seq<Question>,
    currentQuestion: Option<Question>,
    currentPlayerIndex: int,
    timerArmed: bool,
    gameStarted: bool,
    timeRemaining: Option<int>)

  /** The fields `create_new_game_state` gives a new room; `Room`'s
      constructor ensures exactly these. */
  ghost function NewRoom(host: PlayerId, pool: seq<Question>): RoomSnapshot {
    RoomSnapshot(host, [], map[], pool, None, 0, false, false, None)
  }

  /** A room's fields once `clientId` has connected: appended to the roster
      with a score of 0, unless already a player (`Room.Enroll` is the update
      in place). */
  ghost function Enrolled(s: RoomSnapshot, clientId: PlayerId): RoomSnapshot {
    if clientId in s.players then s
    else s.(players := s.players + [clientId], scores := s.scores[clientId := 0])
  }

  /** `get_public_state` of a room with fields `s`. */
  ghost function Shown(s: RoomSnapshot): PublicState {
    PublicState(s.players, s.scores, s.currentQuestion, s.currentPlayerIndex, s.timeRemaining)
  }

  /** A public projection a client can rely on: the roster has no duplicate,
      every player has a non-negative score and the turn index is in range. */
  ghost predicate WellFormedState(s: PublicState) {
    && Distinct(s.players)
    && (forall p :: p in s.scores <==> p in s.players)
    && NonNegative(s.scores)
    && 0 <= s.currentPlayerIndex
    && (|s.players| > 0 ==> s.currentPlayerIndex < |s.players|)
  }

  datatype AnswerOutcome =
    | RoomGone          // the room no longer exists: the receive loop ends
    | NoPlayers         // nobody is left to hold the turn: ignored
    | NotYourTurn       // the sender is not the turn-holder: ignored
    | NoActiveQuestion  // the turn-holder answering in the lobby: the handler raises
    | Answered(correct: bool)

  /** The per-room record created by `create_new_game_state`. */
  class Room {
    var host: PlayerId
    /** The keys of the `players` dict, in join order. */
    var players: seq<PlayerId>
    var scores: map<PlayerId, int>
    var questions: seq<Question>
    var currentQuestion: Option<Question>
    var currentPlayerIndex: int
    /** Stands for a pending, not yet cancelled `timer_task`. */
    var timerArmed: bool
    var gameStarted: bool
    /** Absent until the first question is drawn. */
    var timeRemaining: Option<int>

    ghost function Snapshot(): RoomSnapshot
      reads this
    {
      RoomSnapshot(host, players, scores, questions, currentQuestion,
                   currentPlayerIndex, timerArmed, gameStarted, timeRemaining)
    }

    /** The roster and the score ledger agree, and no score is negative. */
    ghost predicate Consistent()
      reads this
    {
      && Distinct(players)
      && (forall p :: p in scores <==> p in players)
      && NonNegative(scores)
    }

    /** What `next_turn` needs: a started game with a quorum and a turn index
        in range. */
    ghost predicate ReadyForTurn()
      reads this
    {
      Consistent() && gameStarted && |players| >= 2 && 0 <= currentPlayerIndex < |players|
    }

    /** The room invariant kept between any two events. */
    ghost predicate Valid()
      reads this
    {
      ValidUpToTurn() && (|players| > 0 ==> currentPlayerIndex < |players|)
    }

    /** `Valid()` but for the turn index, which may have run past a roster
        that just shrank. */
    ghost predicate ValidUpToTurn()
      reads this
    {
      && Consistent()
      && 0 <= currentPlayerIndex
      && (gameStarted ==>
            |players| >= 2 && currentQuestion.Some? && timeRemaining == Some(TIME_PER_QUESTION))
      && (!gameStarted ==>
            currentPlayerIndex == 0 && !timerArmed && currentQuestion == None
            && timeRemaining == None && AllZero(scores))
    }

    constructor (host: PlayerId, pool: seq<Question>)
      ensures Valid()
      ensures this.host == host && players == [] && scores == map[] && questions == pool
      ensures currentQuestion == None && currentPlayerIndex == 0
      ensures !timerArmed && !gameStarted && timeRemaining == None
      ensures Snapshot() == NewRoom(host, pool)
    {
      this.host := host;
      players := [];
      scores := map[];
      questions := pool;
      currentQuestion := None;
      currentPlayerIndex := 0;
      timerArmed := false;
      gameStarted := false;
      timeRemaining := None;
    }

    /** The merge in `start_game`: append every player's custom questions,
        in roster order, to the pool. */
    method MergeCustomQuestions(fetch: PlayerId -> seq<Question>)
      modifies this`questions
      ensures Snapshot() == old(Snapshot()).(questions := old(questions) + CustomQuestions(players, fetch))
    {
      var i := 0;
      while i < |players|
        invariant 0 <= i <= |players|
        invariant questions == old(questions) + CustomQuestions(players[..i], fetch)
      {
        assert players[..i + 1][..i] == players[..i];
        questions := questions + fetch(players[i]);
        i := i + 1;
      }
      assert players[..i] == players;
    }

    /** The lobby-to-game transition of `start_game`: merge the players'
        custom questions into the pool and mark the game started. */
    method Start(fetch: PlayerId -> seq<Question>)
      requires Valid() && !gameStarted && |players| >= 2
      modifies this`questions, this`gameStarted
      ensures ReadyForTurn() && AllZero(scores)
      ensures Snapshot() == old(Snapshot()).(questions := old(questions) + CustomQuestions(players, fetch),
                                             gameStarted := true)
    {
      MergeCustomQuestions(fetch);
      gameStarted := true;
    }

    /** The disconnect path's removal: delete the player from the roster and
        the scores, keeping the two in agreement. */
    method Remove(clientId: PlayerId)
      requires Valid() && clientId in players
      modifies this`players, this`scores
      ensures Consistent()
      ensures !(gameStarted && |players| < 2) ==> ValidUpToTurn()
      ensures Snapshot() == old(Snapshot()).(players := Without(old(players), clientId),
                                             scores := old(scores) - {clientId})
    {
      WithoutKeepsDistinct(players, clientId);
      players := Without(players, clientId);
      scores := scores - {clientId};
    }

    /** A newcomer joins the roster, after everyone already there, with a
        score of 0. */
    method Enroll(clientId: PlayerId)
      requires Valid() && clientId !in players
      modifies this`players, this`scores
      ensures Valid()
      ensures Snapshot() == old(Snapshot()).(players := old(players) + [clientId],
                                             scores := old(scores)[clientId := 0])
      ensures Snapshot() == Enrolled(old(Snapshot()), clientId)
    {
      players := players + [clientId];
      scores := scores[clientId := 0];
    }

    /** The rotation in `next_turn`: the turn passes to the next player in
        join order, wrapping around. */
    method PassTurn()
      requires 0 <= currentPlayerIndex < |players|
      modifies this`currentPlayerIndex
      ensures Snapshot() == old(Snapshot()).(currentPlayerIndex := NextIndex(old(currentPlayerIndex), |players|))
      ensures 0 <= currentPlayerIndex < |players|
    {
      currentPlayerIndex := NextIndex(currentPlayerIndex, |players|);
    }

    /** The disconnect path's clamp: bring the turn index back into the
        shrunken roster. */
    method ClampTurn()
      requires 0 <= currentPlayerIndex
      modifies this`currentPlayerIndex
      ensures Snapshot() == old(Snapshot()).(currentPlayerIndex := Clamped(old(currentPlayerIndex), |players|))
      ensures |players| > 0 ==> 0 <= currentPlayerIndex < |players|
    {
      if |players| > 0 {
        currentPlayerIndex := currentPlayerIndex % |players|;
      }
    }

    /** `get_public_state` of this room. */
    function Projection(): (s: PublicState)
      reads this
      ensures Valid() ==> WellFormedState(s)
      ensures s.currentQuestion == currentQuestion
      ensures s == Shown(Snapshot())
    {
      PublicState(players, scores, currentQuestion, currentPlayerIndex, timeRemaining)
    }
  }

  class QuizServer {
    /** `game_states`: the rooms that have not reached a terminal state. */
    var games: map<RoomId, Room>
    const manager: ConnectionManager
    /** Every `update_player_score` call made so far, in order. */
    var ledger: seq<ScoreRecord>
    /** `default_questions`, copied into every new room. */
    const defaultQuestions: seq<Question>

    ghost function Slot(roomId: RoomId): set<Room>
      reads this
    {
      if roomId in games then {games[roomId]} else {}
    }

    ghost function PlayersOf(roomId: RoomId): seq<PlayerId>
      reads this, Slot(roomId)
    {
      if roomId in games then games[roomId].players else []
    }

    ghost function ScoresOf(roomId: RoomId): map<PlayerId, int>
      reads this, Slot(roomId)
    {
      if roomId in games then games[roomId].scores else map[]
    }

    ghost predicate DistinctRooms()
      reads this
    {
      forall a, b :: a in games && b in games && a != b ==> games[a] != games[b]
    }

    /** The server's own invariant; each room keeps its own `Valid()`, and
        every event touches the one room it names. */
    ghost predicate Valid()
      reads this, manager
    {
      manager.Valid() && DistinctRooms()
    }

    /** The room `roomId`, if it exists, satisfies its invariant. */
    ghost predicate RoomValid(roomId: RoomId)
      reads this, Slot(roomId)
    {
      roomId in games ==> games[roomId].Valid()
    }

    /** The room `roomId`, with the given host, roster and scores, has been
        flushed to the ranking store, announced `winner` and been deleted. */
    ghost predicate TornDown(roomId: RoomId, games0: map<RoomId, Room>, ledger0: seq<ScoreRecord>,
                             outbox0: seq<Delivery>, host: PlayerId, players: seq<PlayerId>,
                             scores: map<PlayerId, int>, winner: string)
      reads this, manager
    {
      && Scored(players, scores)
      && games == games0 - {roomId}
      && ledger == ledger0 + PositiveRecords(players, scores, host)
      && manager.outbox == outbox0 + Fanout(manager.rooms, roomId, GameOver(winner))
    }

    /** `room`, which held `before` when `next_turn(roomId, newGame)` began,
        has been advanced as `AdvanceTurn` decides: torn down, or given the
        drawn question, the new turn-holder, a fresh countdown and a timer. */
    ghost predicate Advanced(roomId: RoomId, room: Room, before: RoomSnapshot,
                             games0: map<RoomId, Room>, ledger0: seq<ScoreRecord>,
                             outbox0: seq<Delivery>, newGame: bool, pick: nat)
      reads this, manager, room
    {
      && Scored(before.players, before.scores)
      && 0 <= before.currentPlayerIndex < |before.players|
      && match AdvanceTurn(before.players, before.scores, before.currentPlayerIndex,
                           before.questions, newGame, pick)
         case Ended(w, i) =>
           && room.Snapshot() == before.(currentPlayerIndex := i, timerArmed := false)
           && TornDown(roomId, games0, ledger0, outbox0, before.host, before.players, before.scores, w)
         case Drawn(i, q, rest) =>
           && games == games0 && ledger == ledger0
           && room.Snapshot() == before.(currentPlayerIndex := i, currentQuestion := Some(q), questions := rest,
                                         timeRemaining := Some(TIME_PER_QUESTION), timerArmed := true)
           && manager.outbox == outbox0 + Fanout(manager.rooms, roomId, GameStateUpdate(room.Projection()))
    }

    constructor (defaults: seq<Question>)
      ensures Valid() && forall id :: RoomValid(id)
      ensures games == map[] && ledger == [] && defaultQuestions == defaults
      ensures fresh(manager) && manager.rooms == map[] && manager.outbox == []
    {
      games := map[];
      manager := new ConnectionManager();
      ledger := [];
      defaultQuestions := defaults;
    }

    /** `get_public_state(room_id)`: the projection of the room, or the
        defaults of an absent one. */
    function GetPublicState(roomId: RoomId): (s: PublicState)
      reads this, Slot(roomId)
      ensures roomId !in games ==> s == PublicState([], map[], None, 0, None)
      ensures roomId in games && games[roomId].Valid() ==> WellFormedState(s)
    {
      if roomId in games then games[roomId].Projection()
      else PublicState([], map[], None, 0, None)
    }

    /** `create_new_game_state`: never overwrites an existing room. */
    method CreateNewGameState(roomId: RoomId, host: PlayerId)
      requires Valid() && RoomValid(roomId)
      modifies this
      ensures Valid() && RoomValid(roomId)
      ensures roomId in games && ledger == old(ledger)
      ensures roomId in old(games) ==> games == old(games)
      ensures roomId !in old(games) ==>
                && fresh(games[roomId]) && games == old(games)[roomId := games[roomId]]
                && games[roomId].Snapshot() == NewRoom(host, defaultQuestions)
    {
      if roomId !in games {
        var room := new Room(host, defaultQuestions);
        games := games[roomId := room];
      }
    }

    /** `end_game_and_save_scores`: flush the positive scores under the host,
        announce the winner while the room still exists, cancel the timer and
        delete the room. */
    method EndGameAndSaveScores(roomId: RoomId, winner: string)
      requires Valid()
      requires roomId in games ==> games[roomId].Consistent()
      modifies this, manager, Slot(roomId)`timerArmed
      ensures Valid() && roomId !in games
      ensures manager.rooms == old(manager.rooms)
      ensures roomId !in old(games) ==>
                games == old(games) && ledger == old(ledger) && manager.outbox == old(manager.outbox)
      ensures roomId in old(games) ==>
                var room := old(games[roomId]);
                && !room.timerArmed
                && TornDown(roomId, old(games), old(ledger), old(manager.outbox),
                            room.host, room.players, room.scores, winner)
    {
      if roomId !in games {
        return;
      }
      var room: Room := games[roomId];
      SaveScores(room.players, room.scores, room.host);
      manager.Broadcast(roomId, GameOver(winner), roomId in games);
      room.timerArmed := false;
      games := games - {roomId};
    }

    /** The flush loop of `end_game_and_save_scores`: one
        `update_player_score` call per player with a positive score, in
        roster order. */
    method SaveScores(players: seq<PlayerId>, scores: map<PlayerId, int>, host: PlayerId)
      requires Scored(players, scores)
      modifies this`ledger
      ensures ledger == old(ledger) + PositiveRecords(players, scores, host)
    {
      var i := 0;
      while i < |players|
        invariant 0 <= i <= |players|
        invariant Scored(players[..i], scores)
        invariant ledger == old(ledger) + PositiveRecords(players[..i], scores, host)
      {
        var p := players[i];
        assert players[..i + 1][..i] == players[..i];
        if scores[p] > 0 {
          ledger := ledger + [ScoreRecord(p, scores[p], host)];
        }
        i := i + 1;
      }
      assert players[..i] == players;
    }

    /** The last steps of `next_turn`: pop the drawn question into
        `current_question`, reset the countdown, broadcast the room and arm
        a new timer. */
    method ServeQuestion(roomId: RoomId, pick: nat)
      requires Valid()
      requires roomId in games && games[roomId].ReadyForTurn() && games[roomId].questions != []
      modifies manager, games[roomId]
      ensures Valid() && RoomValid(roomId)
      ensures manager.rooms == old(manager.rooms)
      ensures var room := games[roomId];
              var (q, rest) := Draw(old(room.questions), pick);
              && room.Snapshot() == old(room.Snapshot()).(currentQuestion := Some(q), questions := rest,
                                                          timeRemaining := Some(TIME_PER_QUESTION), timerArmed := true)
              && manager.outbox == old(manager.outbox)
                   + Fanout(manager.rooms, roomId, GameStateUpdate(room.Projection()))
    {
      var room: Room := games[roomId];
      var (q, rest) := Draw(room.questions, pick);
      room.currentQuestion := Some(q);
      room.questions := rest;
      room.timeRemaining := Some(TIME_PER_QUESTION);
      manager.Broadcast(roomId, GameStateUpdate(room.Projection()), roomId in games);
      room.timerArmed := true;
    }

    /** `next_turn`: cancel the timer, run the win check, then rotate and
        draw (see `RotateAndServe`). */
    method NextTurn(roomId: RoomId, newGame: bool, pick: nat)
      requires Valid()
      requires roomId in games ==> games[roomId].ReadyForTurn()
      modifies this, manager, Slot(roomId)
      ensures Valid() && RoomValid(roomId)
      ensures manager.rooms == old(manager.rooms)
      ensures roomId !in old(games) ==>
                games == old(games) && ledger == old(ledger) && manager.outbox == old(manager.outbox)
      ensures roomId in old(games) ==>
                Advanced(roomId, old(games[roomId]), old(games[roomId].Snapshot()), old(games),
                         old(ledger), old(manager.outbox), newGame, pick)
    {
      if roomId !in games {
        return;
      }
      var room: Room := games[roomId];
      room.timerArmed := false;
      var winner := FindWinner(room.players, room.scores);
      if winner.Some? {
        EndGameAndSaveScores(roomId, winner.value);
        return;
      }
      RotateAndServe(roomId, newGame, pick);
    }

    /** The rest of `next_turn` once nobody has reached the winning score:
        rotate (not on the opening turn), end on an exhausted pool, or draw
        a question, broadcast the room and arm a new timer. */
    method RotateAndServe(roomId: RoomId, newGame: bool, pick: nat)
      requires Valid()
      requires roomId in games && games[roomId].ReadyForTurn() && !games[roomId].timerArmed
      requires FirstWinner(games[roomId].players, games[roomId].scores) == None
      modifies this, manager, Slot(roomId)
      ensures Valid() && RoomValid(roomId)
      ensures manager.rooms == old(manager.rooms)
      ensures Advanced(roomId, old(games[roomId]), old(games[roomId].Snapshot()), old(games),
                       old(ledger), old(manager.outbox), newGame, pick)
    {
      var room: Room := games[roomId];
      if !newGame {
        room.PassTurn();
      }
      if |room.questions| == 0 {
        EndExhausted(roomId);
        return;
      }
      ServeQuestion(roomId, pick);
    }

    /** `next_turn` on an exhausted pool: the first top scorer wins. */
    method EndExhausted(roomId: RoomId)
      requires Valid() && roomId in games && games[roomId].ReadyForTurn()
      modifies this, manager, Slot(roomId)`timerArmed
      ensures Valid() && roomId !in games
      ensures manager.rooms == old(manager.rooms) && !old(games[roomId]).timerArmed
      ensures var room := old(games[roomId]);
              TornDown(roomId, old(games), old(ledger), old(manager.outbox),
                       room.host, room.players, room.scores, Leader(room.players, room.scores))
    {
      var room: Room := games[roomId];
      var leader := FindLeader(room.players, room.scores);
      EndGameAndSaveScores(roomId, leader);
    }

    /** `start_game`: a no-op unless the room exists, is in the lobby and has
        at least two players; otherwise merge every player's custom questions
        into the pool, mark the game started and run the opening turn. */
    method StartGame(roomId: RoomId, fetch: PlayerId -> seq<Question>, pick: nat)
      requires Valid() && RoomValid(roomId)
      modifies this, manager, Slot(roomId)
      ensures Valid() && RoomValid(roomId)
      ensures manager.rooms == old(manager.rooms)
      ensures roomId !in old(games) || old(games[roomId].gameStarted) || |old(games[roomId].players)| < 2 ==>
                && games == old(games) && ledger == old(ledger) && manager.outbox == old(manager.outbox)
                && (roomId in games ==> unchanged(games[roomId]))
      ensures roomId in old(games) && !old(games[roomId].gameStarted) && |old(games[roomId].players)| >= 2 ==>
                var room := old(games[roomId]);
                var before := old(room.Snapshot());
                var pool := before.questions + CustomQuestions(before.players, fetch);
                && Advanced(roomId, room, before.(questions := pool, gameStarted := true),
                            old(games), old(ledger), old(manager.outbox), true, pick)
                && room.gameStarted && room.currentPlayerIndex == 0
                && (roomId !in games <==> pool == [])
      ensures ledger == old(ledger)
      ensures roomId in games ==>
                && roomId in old(games) && games[roomId] == old(games[roomId])
                && games[roomId].host == old(games[roomId].host)
                && games[roomId].players == old(games[roomId].players)
                && (games[roomId].gameStarted <==> |games[roomId].players| >= 2)
    {
      if roomId !in games {
        return;
      }
      var room: Room := games[roomId];
      if room.gameStarted || |room.players| < 2 {
        return;
      }
      room.Start(fetch);
      LobbyHasNoWinner(room.players, room.scores);
      NoRecordsForZeroScores(room.players, room.scores, room.host);
      NextTurn(roomId, true, pick);
    }

    /** The part of the WebSocket handler that runs on connection, after the
        registry: create the room with this client as host if it is new, add
        the client as a player with score 0 if it is not one yet, and show a
        lobby the new roster. Returns whether a player was added. */
    method AddPlayer(roomId: RoomId, clientId: PlayerId) returns (joined: bool)
      requires Valid() && RoomValid(roomId)
      modifies this, manager, Slot(roomId)
      ensures Valid() && RoomValid(roomId)
      ensures roomId in games && manager.rooms == old(manager.rooms) && ledger == old(ledger)
      ensures roomId in old(games) ==> games == old(games)
      ensures roomId !in old(games) ==>
                && fresh(games[roomId]) && games == old(games)[roomId := games[roomId]]
                && games[roomId].host == clientId && games[roomId].questions == defaultQuestions
      ensures joined <==> clientId !in old(PlayersOf(roomId))
      ensures games[roomId].players == old(PlayersOf(roomId)) + (if joined then [clientId] else [])
      ensures games[roomId].scores == (if joined then old(ScoresOf(roomId))[clientId := 0] else old(ScoresOf(roomId)))
      ensures var before := if roomId in old(games) then old(games[roomId].Snapshot())
                            else NewRoom(clientId, defaultQuestions);
              && games[roomId].Snapshot() == Enrolled(before, clientId)
              && manager.outbox == old(manager.outbox)
                   + (if joined && !before.gameStarted
                      then Fanout(manager.rooms, roomId, GameStateUpdate(Shown(Enrolled(before, clientId)))) else [])
    {
      if roomId !in games {
        CreateNewGameState(roomId, clientId);
      }
      var room: Room := games[roomId];
      joined := false;
      if clientId !in room.players {
        room.Enroll(clientId);
        joined := true;
      }
      if joined && !room.gameStarted {
        manager.Broadcast(roomId, GameStateUpdate(room.Projection()), roomId in games);
      }
    }

    /** `roomId`, whose fields were `before` when `clientId` connected, has
        taken the client in, shown a lobby its new roster and, once the lobby
        has a quorum, run `start_game`'s opening turn. */
    ghost predicate Entered(roomId: RoomId, clientId: PlayerId, before: RoomSnapshot,
                            games0: map<RoomId, Room>, ledger0: seq<ScoreRecord>, outbox0: seq<Delivery>,
                            fetch: PlayerId -> seq<Question>, pick: nat)
      reads this, manager, Slot(roomId), if roomId in games0 then {games0[roomId]} else {}
    {
      var entered := Enrolled(before, clientId);
      var lobby := if clientId !in before.players && !before.gameStarted
                   then Fanout(manager.rooms, roomId, GameStateUpdate(Shown(entered))) else [];
      if roomId in games0 && !before.gameStarted && |entered.players| >= 2 then
        var pool := entered.questions + CustomQuestions(entered.players, fetch);
        && Advanced(roomId, games0[roomId], entered.(questions := pool, gameStarted := true),
                    games0, ledger0, outbox0 + lobby, true, pick)
        && games0[roomId].gameStarted && games0[roomId].currentPlayerIndex == 0
        && (roomId !in games <==> pool == [])
      else
        && roomId in games && games == games0[roomId := games[roomId]]
        && games[roomId].Snapshot() == entered
        && ledger == ledger0 && manager.outbox == outbox0 + lobby
    }

    /** A client connecting to `/ws/{roomId}/{clientId}`: register the
        connection, join the room and try to start the game. */
    method Join(roomId: RoomId, clientId: PlayerId, conn: Conn,
                fetch: PlayerId -> seq<Question>, pick: nat)
      requires Valid() && RoomValid(roomId)
      modifies this, manager, Slot(roomId)
      ensures Valid() && RoomValid(roomId)
      ensures manager.rooms == old(manager.rooms)[roomId := (if roomId in old(manager.rooms)
                                                             then old(manager.rooms)[roomId] else map[])[clientId := conn]]
      ensures roomId in games ==> games == old(games)[roomId := games[roomId]]
      ensures roomId !in games ==> games == old(games) - {roomId}
      ensures roomId !in old(games) ==> roomId in games && fresh(games[roomId])
      ensures roomId in games ==>
                games[roomId].scores == (if clientId in old(PlayersOf(roomId)) then old(ScoresOf(roomId))
                                         else old(ScoresOf(roomId))[clientId := 0])
      ensures Entered(roomId, clientId,
                      if roomId in old(games) then old(games[roomId].Snapshot()) else NewRoom(clientId, defaultQuestions),
                      old(games), old(ledger), old(manager.outbox), fetch, pick)
      ensures ledger == old(ledger)
      ensures roomId in old(games) && roomId in games ==> games[roomId].host == old(games[roomId].host)
      ensures roomId !in old(games) && roomId in games ==> games[roomId].host == clientId
      ensures roomId in games ==>
                && games[roomId].players == old(PlayersOf(roomId))
                     + (if clientId in old(PlayersOf(roomId)) then [] else [clientId])
                && (games[roomId].gameStarted <==> |games[roomId].players| >= 2)
    {
      manager.Connect(roomId, clientId, conn);
      Enter(roomId, clientId, fetch, pick);
    }

    /** The handler's steps after the registry: join the room, then try to
        start the game. */
    method Enter(roomId: RoomId, clientId: PlayerId, fetch: PlayerId -> seq<Question>, pick: nat)
      requires Valid() && RoomValid(roomId)
      modifies this, manager, Slot(roomId)
      ensures Valid() && RoomValid(roomId)
      ensures manager.rooms == old(manager.rooms)
      ensures roomId in games ==> games == old(games)[roomId := games[roomId]]
      ensures roomId !in games ==> games == old(games) - {roomId}
      ensures roomId !in old(games) ==> roomId in games && fresh(games[roomId])
      ensures roomId in games ==>
                games[roomId].scores == (if clientId in old(PlayersOf(roomId)) then old(ScoresOf(roomId))
                                         else old(ScoresOf(roomId))[clientId := 0])
      ensures Entered(roomId, clientId,
                      if roomId in old(games) then old(games[roomId].Snapshot()) else NewRoom(clientId, defaultQuestions),
                      old(games), old(ledger), old(manager.outbox), fetch, pick)
      ensures ledger == old(ledger)
      ensures roomId in old(games) && roomId in games ==> games[roomId].host == old(games[roomId].host)
      ensures roomId !in old(games) && roomId in games ==> games[roomId].host == clientId
      ensures roomId in games ==>
                && games[roomId].players == old(PlayersOf(roomId))
                     + (if clientId in old(PlayersOf(roomId)) then [] else [clientId])
                && (games[roomId].gameStarted <==> |games[roomId].players| >= 2)
    {
      var _ := AddPlayer(roomId, clientId);
      StartGame(roomId, fetch, pick);
    }

    /** Expiry of the turn timer: a cancelled (disarmed) timer does nothing;
        otherwise the turn-holder is penalised and the turn rotates. */
    method TimerExpires(roomId: RoomId, pick: nat)
      requires Valid() && RoomValid(roomId)
      modifies this, manager, Slot(roomId)
      ensures Valid() && RoomValid(roomId)
      ensures manager.rooms == old(manager.rooms)
      ensures roomId !in old(games) || !old(games[roomId].timerArmed) ==>
                && games == old(games) && ledger == old(ledger) && manager.outbox == old(manager.outbox)
                && (roomId in games ==> unchanged(games[roomId]))
      ensures roomId in old(games) && old(games[roomId].timerArmed) ==>
                var room := old(games[roomId]);
                var before := old(room.Snapshot());
                && 0 <= before.currentPlayerIndex < |before.players|
                && var holder := before.players[before.currentPlayerIndex];
                && holder in before.scores
                && Advanced(roomId, room,
                            before.(scores := before.scores[holder := Penalized(before.scores[holder])]),
                            old(games), old(ledger), old(manager.outbox), false, pick)
    {
      if roomId !in games {
        return;
      }
      var room: Room := games[roomId];
      if !room.timerArmed {
        return;
      }
      room.timerArmed := false;
      var playersList := room.players;
      if |playersList| > 0 {
        var holder := playersList[room.currentPlayerIndex];
        room.scores := room.scores[holder := Penalized(room.scores[holder])];
      }
      NextTurn(roomId, false, pick);
    }

    /** A `submitAnswer` message from `clientId`: only the turn-holder's
        answer counts; it cancels the timer, reveals the answer, scores it and
        rotates the turn. */
    method SubmitAnswer(roomId: RoomId, clientId: PlayerId, answer: string, pick: nat)
      returns (outcome: AnswerOutcome)
      requires Valid() && RoomValid(roomId)
      modifies this, manager, Slot(roomId)
      ensures Valid() && RoomValid(roomId)
      ensures manager.rooms == old(manager.rooms)
      ensures outcome == RoomGone <==> roomId !in old(games)
      ensures outcome == NoPlayers <==> roomId in old(games) && old(games[roomId].players) == []
      ensures outcome == NotYourTurn <==>
                roomId in old(games) && old(games[roomId].players) != []
                && clientId != old(games[roomId].players[games[roomId].currentPlayerIndex])
      ensures outcome == NoActiveQuestion ==> roomId in old(games) && !old(games[roomId].gameStarted)
      ensures !outcome.Answered? ==>
                && games == old(games) && ledger == old(ledger) && manager.outbox == old(manager.outbox)
                && (roomId in games ==> unchanged(games[roomId]))
      ensures outcome.Answered? ==>
                roomId in old(games) &&
                var room := old(games[roomId]);
                var before := old(room.Snapshot());
                && before.currentQuestion.Some? && clientId in before.scores
                && var q := before.currentQuestion.value;
                && outcome.correct == (answer == q.correctAnswer)
                && Advanced(roomId, room,
                            before.(scores := before.scores[clientId := Judged(before.scores[clientId], outcome.correct)]),
                            old(games), old(ledger),
                            old(manager.outbox) + Fanout(manager.rooms, roomId, AnswerResult(q.correctAnswer, answer)),
                            false, pick)
    {
      if roomId !in games {
        return RoomGone;
      }
      var room: Room := games[roomId];
      var playersList := room.players;
      if |playersList| == 0 {
        return NoPlayers;
      }
      var current := playersList[room.currentPlayerIndex];
      if clientId != current {
        return NotYourTurn;
      }
      if room.currentQuestion.None? {
        return NoActiveQuestion;
      }
      var correct := Answer(roomId, clientId, answer, pick);
      return Answered(correct);
    }

    /** The turn-holder's answer to the active question: cancel the timer,
        reveal the answer, score it and rotate the turn. */
    method Answer(roomId: RoomId, clientId: PlayerId, answer: string, pick: nat)
      returns (correct: bool)
      requires Valid() && RoomValid(roomId)
      requires roomId in games && games[roomId].gameStarted
      requires games[roomId].players[games[roomId].currentPlayerIndex] == clientId
      modifies this, manager, Slot(roomId)
      ensures Valid() && RoomValid(roomId)
      ensures manager.rooms == old(manager.rooms)
      ensures var room := old(games[roomId]);
              var before := old(room.Snapshot());
              && before.currentQuestion.Some? && clientId in before.scores
              && var q := before.currentQuestion.value;
              && correct == (answer == q.correctAnswer)
              && Advanced(roomId, room,
                          before.(scores := before.scores[clientId := Judged(before.scores[clientId], correct)]),
                          old(games), old(ledger),
                          old(manager.outbox) + Fanout(manager.rooms, roomId, AnswerResult(q.correctAnswer, answer)),
                          false, pick)
    {
      var room: Room := games[roomId];
      room.timerArmed := false;
      var q := room.currentQuestion.value;
      correct := IsCorrect(q, answer);
      manager.Broadcast(roomId, AnswerResult(q.correctAnswer, answer), roomId in games);
      room.scores := room.scores[clientId := Judged(room.scores[clientId], correct)];
      NextTurn(roomId, false, pick);
    }

    /** `room`, which held `before`, has lost player `clientId`: removed from
        the roster and the scores; a started game left without a quorum was
        torn down with the disconnect verdict, otherwise the turn index was
        clamped and the room shown the new state. */
    ghost predicate Departed(roomId: RoomId, clientId: PlayerId, room: Room, before: RoomSnapshot,
                             games0: map<RoomId, Room>, ledger0: seq<ScoreRecord>,
                             outbox0: seq<Delivery>)
      reads this, manager, room
    {
      var players := Without(before.players, clientId);
      var scores := before.scores - {clientId};
      if before.gameStarted && |players| < 2 then
        && room.Snapshot() == before.(players := players, scores := scores, timerArmed := false)
        && TornDown(roomId, games0, ledger0, outbox0, before.host, players, scores, DISCONNECT_WINNER)
      else
        && games == games0 && ledger == ledger0
        && room.Snapshot() == before.(players := players, scores := scores,
                                      currentPlayerIndex := Clamped(before.currentPlayerIndex, |players|))
        && manager.outbox == outbox0 + Fanout(manager.rooms, roomId, GameStateUpdate(room.Projection()))
    }

    /** The WebSocket handler's disconnect path: drop the connection, then
        remove the client from its room (see `RemovePlayer`). */
    method Disconnect(roomId: RoomId, clientId: PlayerId)
      requires Valid() && RoomValid(roomId)
      modifies this, manager, Slot(roomId)
      ensures Valid() && RoomValid(roomId)
      ensures manager.rooms == Dropped(old(manager.rooms), roomId, clientId)
      ensures roomId !in old(games) || clientId !in old(games[roomId].players) ==>
                && games == old(games) && ledger == old(ledger) && manager.outbox == old(manager.outbox)
                && (roomId in games ==> unchanged(games[roomId]))
      ensures roomId in old(games) && clientId in old(games[roomId].players) ==>
                Departed(roomId, clientId, old(games[roomId]), old(games[roomId].Snapshot()),
                         old(games), old(ledger), old(manager.outbox))
    {
      manager.Disconnect(roomId, clientId);
      RemovePlayer(roomId, clientId);
    }

    /** Everything the disconnect path does after the registry: a client that
        is not a player of an existing room changes nothing. */
    method RemovePlayer(roomId: RoomId, clientId: PlayerId)
      requires Valid() && RoomValid(roomId)
      modifies this, manager, Slot(roomId)
      ensures Valid() && RoomValid(roomId)
      ensures manager.rooms == old(manager.rooms)
      ensures roomId !in old(games) || clientId !in old(games[roomId].players) ==>
                && games == old(games) && ledger == old(ledger) && manager.outbox == old(manager.outbox)
                && (roomId in games ==> unchanged(games[roomId]))
      ensures roomId in old(games) && clientId in old(games[roomId].players) ==>
                Departed(roomId, clientId, old(games[roomId]), old(games[roomId].Snapshot()),
                         old(games), old(ledger), old(manager.outbox))
    {
      if roomId !in games {
        return;
      }
      if clientId in games[roomId].players {
        Depart(roomId, clientId);
      }
    }

    /** The disconnect path for a client that is a player of the room. */
    method Depart(roomId: RoomId, clientId: PlayerId)
      requires Valid() && RoomValid(roomId)
      requires roomId in games && clientId in games[roomId].players
      modifies this, manager, Slot(roomId)
      ensures Valid() && RoomValid(roomId)
      ensures manager.rooms == old(manager.rooms)
      ensures Departed(roomId, clientId, old(games[roomId]), old(games[roomId].Snapshot()),
                       old(games), old(ledger), old(manager.outbox))
    {
      var room: Room := games[roomId];
      if room.gameStarted && |Without(room.players, clientId)| < 2 {
        Abandon(roomId, clientId);
      } else {
        Stay(roomId, clientId);
      }
    }

    /** A departure that leaves a started game without a quorum: remove the
        player, then end the game with the disconnect verdict. */
    method Abandon(roomId: RoomId, clientId: PlayerId)
      requires Valid() && RoomValid(roomId)
      requires roomId in games && clientId in games[roomId].players
      requires games[roomId].gameStarted && |Without(games[roomId].players, clientId)| < 2
      modifies this, manager, Slot(roomId)
      ensures Valid() && roomId !in games
      ensures manager.rooms == old(manager.rooms)
      ensures var room := old(games[roomId]);
              var before := old(room.Snapshot());
              var players := Without(before.players, clientId);
              var scores := before.scores - {clientId};
              && room.Snapshot() == before.(players := players, scores := scores, timerArmed := false)
              && TornDown(roomId, old(games), old(ledger), old(manager.outbox),
                          before.host, players, scores, DISCONNECT_WINNER)
    {
      var room: Room := games[roomId];
      room.Remove(clientId);
      // `end_game_and_save_scores` cancels the timer itself
      EndGameAndSaveScores(roomId, DISCONNECT_WINNER);
    }

    /** A departure that leaves the room going: remove the player, clamp the
        turn index and show the room the new roster. */
    method Stay(roomId: RoomId, clientId: PlayerId)
      requires Valid() && RoomValid(roomId)
      requires roomId in games && clientId in games[roomId].players
      requires !(games[roomId].gameStarted && |Without(games[roomId].players, clientId)| < 2)
      modifies manager, Slot(roomId)
      ensures Valid() && RoomValid(roomId)
      ensures manager.rooms == old(manager.rooms)
      ensures var room := games[roomId];
              var before := old(room.Snapshot());
              var players := Without(before.players, clientId);
              && room.Snapshot() == before.(players := players, scores := before.scores - {clientId},
                                            currentPlayerIndex := Clamped(before.currentPlayerIndex, |players|))
              && manager.outbox == old(manager.outbox)
                   + Fanout(manager.rooms, roomId, GameStateUpdate(room.Projection()))
    {
      var room: Room := games[roomId];
      room.Remove(clientId);
      ShowRoster(roomId);
    }

    /** The end of the disconnect path for a room that keeps going: clamp
        the turn index and show the room the new roster. */
    method ShowRoster(roomId: RoomId)
      requires Valid() && roomId in games
      requires games[roomId].ValidUpToTurn()
      modifies manager, Slot(roomId)`currentPlayerIndex
      ensures Valid() && RoomValid(roomId)
      ensures manager.rooms == old(manager.rooms)
      ensures games[roomId].Snapshot()
              == old(games[roomId].Snapshot()).(currentPlayerIndex :=
                   Clamped(old(games[roomId].currentPlayerIndex), |games[roomId].players|))
      ensures manager.outbox == old(manager.outbox)
                + Fanout(manager.rooms, roomId, GameStateUpdate(games[roomId].Projection()))
    {
      var room: Room := games[roomId];
      room.ClampTurn();
      manager.Broadcast(roomId, GameStateUpdate(room.Projection()), roomId in games);
    }
  }
}
