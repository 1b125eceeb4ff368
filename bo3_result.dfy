/**
 * The best-of-three result display: a result is read back into the games
 * each side won, shown as that many win dots followed by loss dots, with an
 * empty third slot when the match ended after two games.
 */
module BO3Result {
  import opened Text
  import opened Types
  import opened Utils

  datatype Game = Win | Loss

  /** What `parseResult` returns. */
  datatype ParsedResult = ParsedResult(player: nat, opponent: nat, games: seq<Game>)

  /** The games won by the player and by the opponent in each result. */
  function Score(m: MatchResult): (nat, nat) {
    match m
    case TwoZero => (2, 0)
    case TwoOne => (2, 1)
    case OneTwo => (1, 2)
    case ZeroTwo => (0, 2)
  }

  /** Every result is a finished best of three: one side has two games, the other fewer. */
  lemma ScoreIsBestOfThree(m: MatchResult)
    ensures var (p, o) := Score(m); (p == 2 && o < 2) || (o == 2 && p < 2)
  {
  }

  /** A result's text prints its score as "player-opponent". */
  lemma ResultTextIsScore(m: MatchResult)
    ensures ResultText(m) == NatText(Score(m).0) + "-" + NatText(Score(m).1)
  {
    assert NatText(0) == "0" && NatText(1) == "1" && NatText(2) == "2";
  }

  /** Splitting a result's text at '-' and reading each side as a number gives its score. */
  lemma ScoreReadsBack(m: MatchResult)
    ensures var parts := Split(ResultText(m), '-');
      && |parts| == 2 && AllDigits(parts[0]) && AllDigits(parts[1])
      && DigitsValue(parts[0]) == Score(m).0 && DigitsValue(parts[1]) == Score(m).1
  {
    var p, o := NatText(Score(m).0), NatText(Score(m).1);
    ResultTextIsScore(m);
    NotInDigits('-', p);
    NotInDigits('-', o);
    SplitAtOnlySeparator(p, '-', o);
    DigitsValueOfNatText(Score(m).0);
    DigitsValueOfNatText(Score(m).1);
  }

  /** `player` wins followed by `opponent` losses. */
  function Games(player: nat, opponent: nat): (g: seq<Game>)
    ensures |g| == player + opponent
    ensures forall k | 0 <= k < |g| :: g[k] == (if k < player then Win else Loss)
  {
    if player > 0 then [Win] + Games(player - 1, opponent)
    else if opponent > 0 then [Loss] + Games(0, opponent - 1)
    else []
  }

  /**
   * `parseResult`: the number before '-' is the player's games, the number
   * after it the opponent's; the games list pushes the wins, then the losses.
   */
  method ParseResult(result: MatchResult) returns (parsed: ParsedResult)
    ensures ResultText(result) == NatText(parsed.player) + "-" + NatText(parsed.opponent)
    ensures (parsed.player, parsed.opponent) == Score(result)
    ensures parsed.games == Games(parsed.player, parsed.opponent)
  {
    var parts := Split(ResultText(result), '-');
    ScoreReadsBack(result);
    ResultTextIsScore(result);
    var player, opponent := DigitsValue(parts[0]), DigitsValue(parts[1]);
    var games: seq<Game> := [];
    for i := 0 to player
      invariant games == Games(i, 0)
    {
      games := games + [Win];
    }
    for i := 0 to opponent
      invariant games == Games(player, i)
    {
      games := games + [Loss];
    }
    parsed := ParsedResult(player, opponent, games);
  }

  /** The display's win test: the player won more games. */
  predicate ShownAsWin(parsed: ParsedResult) {
    parsed.player > parsed.opponent
  }

  /** The dots drawn: one per game, plus an empty slot when there are exactly two. */
  function SlotCount(games: seq<Game>): nat {
    |games| + (if |games| == 2 then 1 else 0)
  }

  /**
   * The display's win test agrees with `isWin` and with the result table,
   * for every result.
   */
  lemma ShownWinAgreesWithIsWin(m: MatchResult)
    ensures ShownAsWin(ParsedResult(Score(m).0, Score(m).1, Games(Score(m).0, Score(m).1))) <==> IsWin(ResultText(m))
    ensures IsWin(ResultText(m)) <==> ResultInfo(ResultText(m)).Some? && ResultInfo(ResultText(m)).value.isWin
  {
    TableAgreesWithIsWin(ResultText(m));
  }

  /**
   * The empty slot is drawn exactly for 2-0 and 0-2, so every result shows
   * three slots.
   */
  lemma EmptySlotCompletesThree(m: MatchResult)
    ensures var games := Games(Score(m).0, Score(m).1);
      && (|games| == 2 <==> m == TwoZero || m == ZeroTwo)
      && SlotCount(games) == 3
  {
  }
}
