/**
 * The domain vocabulary: tournament formats, best-of-three results, round
 * types, and the round and tournament records the session reducer builds.
 */
module Types {
  import opened Wrappers

  /** `TournamentFormat`: the six supported structures. */
  datatype Format = Standard | Ffa3 | Ffa4 | TwoVersusTwo | OneVersusOneDuel | OneVersusOneMatch

  /** The key each format is stored under. */
  function FormatKey(f: Format): string {
    match f
    case Standard => "standard"
    case Ffa3 => "ffa3"
    case Ffa4 => "ffa4"
    case TwoVersusTwo => "2v2"
    case OneVersusOneDuel => "1v1-duel"
    case OneVersusOneMatch => "1v1-match"
  }

  /** `MatchResult`: the four best-of-three outcomes. */
  datatype MatchResult = TwoZero | TwoOne | OneTwo | ZeroTwo

  /** The text a result is written as: games won, '-', games lost. */
  function ResultText(m: MatchResult): string {
    match m
    case TwoZero => "2-0"
    case TwoOne => "2-1"
    case OneTwo => "1-2"
    case ZeroTwo => "0-2"
  }

  /** One row of the `MATCH_RESULTS` table (`display` is its `label`). */
  datatype MatchResultInfo = MatchResultInfo(value: MatchResult, display: string, isWin: bool)

  const MATCH_RESULTS: seq<MatchResultInfo> := [
    MatchResultInfo(TwoZero, "W 2-0", true),
    MatchResultInfo(TwoOne, "W 2-1", true),
    MatchResultInfo(OneTwo, "L 1-2", false),
    MatchResultInfo(ZeroTwo, "L 0-2", false)
  ]

  /**
   * The category of a round. `Swiss` and `Topcut` are the two values the
   * type declares; `Unset` is the field left undefined and `Other(tag)` any
   * other text the field may receive. The datatype itself admits
   * `Other("swiss")`; the one place that builds round types from text,
   * `RoundEntry.RoundTypeOf`, never produces it.
   */
  datatype RoundType = Swiss | Topcut | Unset | Other(tag: string)

  /** A round as the reducer builds it. */
  datatype Round = Round(
    id: string,
    roundNumber: int,
    roundType: RoundType,
    opponentLeaderId: string,
    result: string,
    topcutLevel: Option<string>,
    diceWon: Option<bool>,
    notes: Option<string>)

  /** A tournament as the reducer builds it. */
  datatype Tournament = Tournament(
    id: string,
    title: string,
    format: Format,
    playerLeaderId: string,
    rounds: seq<Round>,
    date: string,
    playerCount: Option<int>,
    createdAt: string,
    updatedAt: string)
}
