/** The decisions the turn engine takes over a room's players, scores and
    question pool: the score updates, turn rotation, the win check, the
    exhaustion winner, the draw, the end-of-game flush and the reconciliation
    of the turn index after a departure.  Player order is the join order,
    which is also the iteration order of the room's `scores` dict. */
module Scoring {
  import opened QuizTypes

  /** No player id occurs twice (the keys of an insertion-ordered dict). */
  predicate Distinct(players: seq<PlayerId>) {
    forall i, j :: 0 <= i < j < |players| ==> players[i] != players[j]
  }

  /** Every listed player has a score. */
  predicate Scored(players: seq<PlayerId>, scores: map<PlayerId, int>) {
    forall i :: 0 <= i < |players| ==> players[i] in scores
  }

  predicate NonNegative(scores: map<PlayerId, int>) {
    forall p :: p in scores ==> scores[p] >= 0
  }

  predicate AllZero(scores: map<PlayerId, int>) {
    forall p :: p in scores ==> scores[p] == 0
  }

  // ---------------------------------------------------------------------
  // Score updates

  /** `max(0, s - PENALTY_POINTS)`: the penalty of a wrong answer or of an
      expired turn. */
  function Penalized(s: int): (r: int)
    ensures r >= 0
    ensures s >= 0 ==> r <= s
    ensures s > 0 ==> r < s
    ensures s >= PENALTY_POINTS ==> s - r == PENALTY_POINTS
    ensures s < PENALTY_POINTS ==> r == 0
  {
    if s - PENALTY_POINTS > 0 then s - PENALTY_POINTS else 0
  }

  /** The turn-holder's new score after answering: the reward when the
      answer was right, the penalty otherwise. */
  function Judged(s: int, correct: bool): (r: int)
    ensures s >= 0 ==> r >= 0
    ensures s >= 0 ==> (r > s <==> correct)
    ensures correct ==> r - s == CORRECT_REWARD
    ensures !correct ==> r == Penalized(s)
  {
    if correct then s + CORRECT_REWARD else Penalized(s)
  }

  /** Exact, case-sensitive comparison of the chosen answer with the
      question's correct answer. */
  function IsCorrect(q: Question, answer: string): (r: bool)
    ensures r <==> |answer| == |q.correctAnswer| && forall i :: 0 <= i < |answer| ==> answer[i] == q.correctAnswer[i]
  {
    answer == q.correctAnswer
  }

  // ---------------------------------------------------------------------
  // Turn rotation

  /** `(i + 1) % n`: the next turn-holder in join order. */
  function NextIndex(i: int, n: int): (r: int)
    requires n > 0
    ensures 0 <= r < n
    ensures 0 <= i < n - 1 ==> r == i + 1
    ensures i == n - 1 ==> r == 0
  {
    (i + 1) % n
  }

  /** The index after `k` rotations starting from `i`. */
  function Rotated(i: int, k: nat, n: int): int
    requires n > 0
  {
    if k == 0 then i else NextIndex(Rotated(i, k - 1, n), n)
  }

  lemma {:induction false} RotatedIsOffset(i: int, k: nat, n: int)
    requires 0 <= i < n && k <= n
    ensures Rotated(i, k, n) == if i + k < n then i + k else i + k - n
  {
    if k > 0 {
      RotatedIsOffset(i, k - 1, n);
    }
  }

  /** Player `j` holds the turn within `n` rotations from `i`. */
  ghost predicate HoldsTurnWithin(i: int, n: int, j: int)
    requires n > 0
  {
    exists k :: 0 <= k < n && Rotated(i, k, n) == j
  }

  /** Rotation is fair: within `n` consecutive turns every one of `n`
      players holds the turn, and after `n` turns it is back at the start. */
  lemma EveryPlayerGetsATurn(i: int, n: int)
    requires 0 <= i < n
    ensures Rotated(i, n, n) == i
    ensures forall j :: 0 <= j < n ==> HoldsTurnWithin(i, n, j)
  {
    RotatedIsOffset(i, n, n);
    forall j | 0 <= j < n
      ensures HoldsTurnWithin(i, n, j)
    {
      var k := if i <= j then j - i else j - i + n;
      RotatedIsOffset(i, k, n);
    }
  }

  // ---------------------------------------------------------------------
  // Win check: the first player, in join order, at or above WINNING_SCORE

  function FirstWinner(players: seq<PlayerId>, scores: map<PlayerId, int>): Option<PlayerId>
    requires Scored(players, scores)
  {
    if players == [] then None
    else if scores[players[0]] >= WINNING_SCORE then Some(players[0])
    else FirstWinner(players[1..], scores)
  }

  lemma {:induction false} FirstWinnerIsFirstReaching(players: seq<PlayerId>, scores: map<PlayerId, int>)
    requires Scored(players, scores)
    ensures FirstWinner(players, scores).None? <==>
              forall i :: 0 <= i < |players| ==> scores[players[i]] < WINNING_SCORE
    ensures FirstWinner(players, scores).Some? ==>
              exists k :: 0 <= k < |players| && players[k] == FirstWinner(players, scores).value
                          && scores[players[k]] >= WINNING_SCORE
                          && forall j :: 0 <= j < k ==> scores[players[j]] < WINNING_SCORE
  {
    if players != [] && scores[players[0]] < WINNING_SCORE {
      var tail := players[1..];
      FirstWinnerIsFirstReaching(tail, scores);
      if FirstWinner(tail, scores).Some? {
        var k :| 0 <= k < |tail| && tail[k] == FirstWinner(tail, scores).value
                 && scores[tail[k]] >= WINNING_SCORE
                 && forall j :: 0 <= j < k ==> scores[tail[j]] < WINNING_SCORE;
        assert players[k + 1] == tail[k];
        assert forall j :: 0 <= j < k + 1 ==> scores[players[j]] < WINNING_SCORE by {
          forall j | 0 <= j < k + 1 ensures scores[players[j]] < WINNING_SCORE {
            if j > 0 { assert players[j] == tail[j - 1]; }
          }
        }
      } else {
        assert forall i :: 0 <= i < |players| ==> scores[players[i]] < WINNING_SCORE by {
          forall i | 0 <= i < |players| ensures scores[players[i]] < WINNING_SCORE {
            if i > 0 { assert players[i] == tail[i - 1]; }
          }
        }
      }
    } else if players != [] {
      assert players[0] == FirstWinner(players, scores).value;
    }
  }

  /** Nobody can win at the start of a game: the lobby's scores are all zero. */
  lemma {:induction false} LobbyHasNoWinner(players: seq<PlayerId>, scores: map<PlayerId, int>)
    requires Scored(players, scores) && AllZero(scores)
    ensures FirstWinner(players, scores) == None
  {
    FirstWinnerIsFirstReaching(players, scores);
  }

  /** The loop of `next_turn` over `scores.items()` that looks for a winner. */
  method FindWinner(players: seq<PlayerId>, scores: map<PlayerId, int>) returns (w: Option<PlayerId>)
    requires Scored(players, scores)
    ensures w == FirstWinner(players, scores)
  {
    var i := 0;
    while i < |players|
      invariant 0 <= i <= |players|
      invariant FirstWinner(players, scores) == FirstWinner(players[i..], scores)
    {
      if scores[players[i]] >= WINNING_SCORE {
        return Some(players[i]);
      }
      assert players[i..][1..] == players[i + 1..];
      i := i + 1;
    }
    return None;
  }

  // ---------------------------------------------------------------------
  // Exhaustion: `max(scores, key=scores.get)`, the first maximal scorer

  /** Index of the first maximal score, scanning left to right and replacing
      the candidate only on a strictly greater score, as Python's `max` does. */
  function FirstMaxIndex(players: seq<PlayerId>, scores: map<PlayerId, int>): (k: nat)
    requires |players| > 0 && Scored(players, scores)
    ensures k < |players|
    decreases |players|
  {
    if |players| == 1 then 0
    else
      var k := FirstMaxIndex(players[..|players| - 1], scores);
      if scores[players[|players| - 1]] > scores[players[k]] then |players| - 1 else k
  }

  lemma {:induction false} FirstMaxIndexIsFirstMaximum(players: seq<PlayerId>, scores: map<PlayerId, int>)
    requires |players| > 0 && Scored(players, scores)
    ensures var k := FirstMaxIndex(players, scores);
            (forall j :: 0 <= j < |players| ==> scores[players[j]] <= scores[players[k]])
            && (forall j :: 0 <= j < k ==> scores[players[j]] < scores[players[k]])
    decreases |players|
  {
    if |players| > 1 {
      var init := players[..|players| - 1];
      FirstMaxIndexIsFirstMaximum(init, scores);
      assert forall j :: 0 <= j < |init| ==> init[j] == players[j];
    }
  }

  /** The winner announced when the pool is exhausted. */
  function Leader(players: seq<PlayerId>, scores: map<PlayerId, int>): (w: string)
    requires Scored(players, scores)
    ensures |players| == 0 ==> w == TIE_WINNER
    ensures |players| > 0 ==> w in players
  {
    if |players| == 0 then TIE_WINNER else players[FirstMaxIndex(players, scores)]
  }

  /** The exhaustion winner is a top scorer, and no earlier player ties it. */
  lemma LeaderIsFirstTopScorer(players: seq<PlayerId>, scores: map<PlayerId, int>)
    requires |players| > 0 && Scored(players, scores)
    ensures exists k :: 0 <= k < |players| && players[k] == Leader(players, scores)
              && (forall j :: 0 <= j < |players| ==> scores[players[j]] <= scores[players[k]])
              && (forall j :: 0 <= j < k ==> scores[players[j]] < scores[players[k]])
  {
    FirstMaxIndexIsFirstMaximum(players, scores);
    var k := FirstMaxIndex(players, scores);
    assert players[k] == Leader(players, scores);
  }

  /** The `max(...)` scan of `next_turn` as a loop. */
  method FindLeader(players: seq<PlayerId>, scores: map<PlayerId, int>) returns (winner: string)
    requires Scored(players, scores)
    ensures winner == Leader(players, scores)
  {
    if |players| == 0 {
      return TIE_WINNER;
    }
    var best := 0;
    var i := 1;
    while i < |players|
      invariant 1 <= i <= |players|
      invariant best == FirstMaxIndex(players[..i], scores)
    {
      var prefix := players[..i + 1];
      assert prefix[..i] == players[..i];
      assert prefix[i] == players[i];
      if scores[players[i]] > scores[players[best]] {
        best := i;
      }
      i := i + 1;
    }
    assert players[..|players|] == players;
    return players[best];
  }

  // ---------------------------------------------------------------------
  // The question pool

  /** `pool.pop(randrange(len(pool)))`, the random index supplied as `pick`. */
  function Draw(pool: seq<Question>, pick: nat): (r: (Question, seq<Question>))
    requires |pool| > 0
    ensures |r.1| == |pool| - 1
    ensures multiset(pool) == multiset(r.1) + multiset{r.0}
    ensures pick < |pool| ==> r.0 == pool[pick]
  {
    var k := pick % |pool|;
    RemoveAt(pool, k);
    (pool[k], pool[..k] + pool[k + 1..])
  }

  lemma RemoveAt(pool: seq<Question>, k: nat)
    requires k < |pool|
    ensures multiset(pool) == multiset(pool[..k] + pool[k + 1..]) + multiset{pool[k]}
  {
    assert pool == pool[..k] + [pool[k]] + pool[k + 1..];
  }

  /** The custom questions of every player, in join order, as `start_game`
      extends the pool with them. */
  function CustomQuestions(players: seq<PlayerId>, fetch: PlayerId -> seq<Question>): seq<Question>
  {
    if players == [] then []
    else CustomQuestions(players[..|players| - 1], fetch) + fetch(players[|players| - 1])
  }

  lemma {:induction false} CustomQuestionsComeFromPlayers(players: seq<PlayerId>, fetch: PlayerId -> seq<Question>)
    ensures forall q :: q in CustomQuestions(players, fetch) <==>
              exists i :: 0 <= i < |players| && q in fetch(players[i])
  {
    if players != [] {
      var init := players[..|players| - 1];
      CustomQuestionsComeFromPlayers(init, fetch);
      forall q ensures q in CustomQuestions(players, fetch) <==>
                 exists i :: 0 <= i < |players| && q in fetch(players[i])
      {
        if q in CustomQuestions(players, fetch) {
          if q in CustomQuestions(init, fetch) {
            var i :| 0 <= i < |init| && q in fetch(init[i]);
            assert players[i] == init[i];
          } else {
            assert q in fetch(players[|players| - 1]);
          }
        } else {
          forall i | 0 <= i < |players| ensures q !in fetch(players[i]) {
            if i < |init| { assert players[i] == init[i]; }
          }
        }
      }
    }
  }

  // ---------------------------------------------------------------------
  // The end-of-game flush

  /** The `update_player_score(player, score, host)` calls of the flush:
      one per player with a positive score, in join order. */
  function PositiveRecords(players: seq<PlayerId>, scores: map<PlayerId, int>, host: PlayerId): (r: seq<ScoreRecord>)
    requires Scored(players, scores)
    ensures |r| <= |players|
    ensures forall i :: 0 <= i < |r| ==>
              r[i].host == host && r[i].player in players
              && r[i].score == scores[r[i].player] && r[i].score > 0
  {
    if players == [] then []
    else
      var last := players[|players| - 1];
      PositiveRecords(players[..|players| - 1], scores, host)
        + (if scores[last] > 0 then [ScoreRecord(last, scores[last], host)] else [])
  }

  /** Every positive score is flushed, and each player at most once. */
  lemma {:induction false} PositiveScoresAreFlushedOnce(players: seq<PlayerId>, scores: map<PlayerId, int>, host: PlayerId)
    requires Scored(players, scores) && Distinct(players)
    ensures var r := PositiveRecords(players, scores, host);
            (forall i :: 0 <= i < |players| && scores[players[i]] > 0 ==>
               ScoreRecord(players[i], scores[players[i]], host) in r)
            && (forall i, j :: 0 <= i < j < |r| ==> r[i].player != r[j].player)
  {
    if players != [] {
      var init := players[..|players| - 1];
      var last := players[|players| - 1];
      PositiveScoresAreFlushedOnce(init, scores, host);
      var r0 := PositiveRecords(init, scores, host);
      var r := PositiveRecords(players, scores, host);
      assert r == r0 + (if scores[last] > 0 then [ScoreRecord(last, scores[last], host)] else []);
      assert last !in init by {
        forall k | 0 <= k < |init| ensures init[k] != last {
          assert init[k] == players[k];
        }
      }
      forall i | 0 <= i < |players| && scores[players[i]] > 0
        ensures ScoreRecord(players[i], scores[players[i]], host) in r
      {
        if i < |init| {
          assert players[i] == init[i];
          assert ScoreRecord(init[i], scores[init[i]], host) in r0;
        }
      }
      forall i, j | 0 <= i < j < |r| ensures r[i].player != r[j].player {
        assert r[i] == r0[i];
        if j < |r0| {
          assert r[j] == r0[j];
        } else {
          assert r0[i].player in init;
        }
      }
    }
  }

  /** A flush after a game in which nobody scored records nothing. */
  lemma {:induction false} NoRecordsForZeroScores(players: seq<PlayerId>, scores: map<PlayerId, int>, host: PlayerId)
    requires Scored(players, scores) && AllZero(scores)
    ensures PositiveRecords(players, scores, host) == []
  {
    if players != [] {
      NoRecordsForZeroScores(players[..|players| - 1], scores, host);
    }
  }

  // ---------------------------------------------------------------------
  // One turn advance of `next_turn`

  datatype TurnResult =
    | Ended(winner: string, index: int)
    | Drawn(index: int, question: Question, pool: seq<Question>)

  /** What `next_turn` decides: the win check before anything else, then the
      rotation (not on the opening turn), then exhaustion or a draw. */
  function AdvanceTurn(players: seq<PlayerId>, scores: map<PlayerId, int>, index: int,
                       pool: seq<Question>, newGame: bool, pick: nat): (r: TurnResult)
    requires Scored(players, scores) && 0 <= index < |players|
    ensures r.Ended? <==> FirstWinner(players, scores).Some? || pool == []
    ensures FirstWinner(players, scores).Some? ==> r == Ended(FirstWinner(players, scores).value, index)
    ensures FirstWinner(players, scores).None? && pool == [] ==> r.winner == Leader(players, scores)
    ensures FirstWinner(players, scores).None? ==> r.index == if newGame then index else NextIndex(index, |players|)
    ensures 0 <= r.index < |players|
    ensures r.Drawn? ==> |r.pool| == |pool| - 1 && multiset(pool) == multiset(r.pool) + multiset{r.question}
  {
    match FirstWinner(players, scores)
    case Some(w) => Ended(w, index)
    case None =>
      var next := if newGame then index else NextIndex(index, |players|);
      if pool == [] then Ended(Leader(players, scores), next)
      else
        var (q, rest) := Draw(pool, pick);
        Drawn(next, q, rest)
  }

  // ---------------------------------------------------------------------
  // Departures

  /** `del players[p]`: the order of the others is kept. */
  function Without(players: seq<PlayerId>, x: PlayerId): (r: seq<PlayerId>)
    ensures forall p :: p in r <==> p in players && p != x
    ensures |r| <= |players|
    ensures x in players ==> |r| < |players|
  {
    if players == [] then []
    else if players[0] == x then Without(players[1..], x)
    else [players[0]] + Without(players[1..], x)
  }

  lemma {:induction false} WithoutKeepsDistinct(players: seq<PlayerId>, x: PlayerId)
    requires Distinct(players)
    ensures Distinct(Without(players, x))
  {
    if players != [] {
      WithoutKeepsDistinct(players[1..], x);
      assert players[0] !in players[1..];
    }
  }

  lemma {:induction false} WithoutAt(players: seq<PlayerId>, j: nat)
    requires Distinct(players) && j < |players|
    ensures Without(players, players[j]) == players[..j] + players[j + 1..]
  {
    var x := players[j];
    if j == 0 {
      assert x !in players[1..];
      WithoutAbsent(players[1..], x);
    } else {
      WithoutAt(players[1..], j - 1);
      assert players[1..][j - 1] == x;
      assert [players[0]] + (players[1..][..j - 1] + players[1..][j..]) == players[..j] + players[j + 1..];
    }
  }

  lemma {:induction false} WithoutAbsent(players: seq<PlayerId>, x: PlayerId)
    requires x !in players
    ensures Without(players, x) == players
  {
    if players != [] {
      WithoutAbsent(players[1..], x);
    }
  }

  /** `current_player_index %= len(players)` when players remain. */
  function Clamped(index: int, n: int): (r: int)
    ensures 0 <= index ==> 0 <= r
    ensures n > 0 ==> 0 <= r < n
    ensures 0 <= index < n ==> r == index
    ensures 0 < n == index ==> r == 0
  {
    if n > 0 then index % n else index
  }

  /** When the turn-holder leaves, the turn passes to the player who would
      have held it next. */
  lemma DepartingHolderPassesTurn(players: seq<PlayerId>, index: nat)
    requires Distinct(players) && index < |players| && |players| >= 2
    ensures var rest := Without(players, players[index]);
            |rest| == |players| - 1
            && rest[Clamped(index, |rest|)] == players[NextIndex(index, |players|)]
  {
    WithoutAt(players, index);
  }

  /** When another player leaves a room that keeps at least two players,
      the turn-holder keeps the turn exactly when the leaver joined after
      them: a departure earlier in join order hands the turn on. */
  lemma DepartureKeepsHolderIff(players: seq<PlayerId>, index: nat, j: nat)
    requires Distinct(players) && index < |players| && j < |players| && j != index
    requires |players| > 2
    ensures var rest := Without(players, players[j]);
            |rest| == |players| - 1
            && (rest[Clamped(index, |rest|)] == players[index] <==> index < j)
  {
    WithoutAt(players, j);
    var rest := players[..j] + players[j + 1..];
    var n := |players|;
    if index < j {
      assert rest[index] == players[index];
    } else if index < n - 1 {
      assert rest[index] == players[index + 1];
    } else {
      assert Clamped(index, |rest|) == 0;
      if j == 0 {
        assert rest[0] == players[1];
      } else {
        assert rest[0] == players[0];
      }
    }
  }
}
