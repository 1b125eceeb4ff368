/**
 * Result classification, tournament statistics and the local-storage slot
 * the session is mirrored to.
 */
module Utils {
  import opened Wrappers
  import opened Sequences
  import opened Text
  import opened Types

  /** `isWin`: a result text is a win exactly when it is "2-0" or "2-1". */
  predicate IsWin(result: string) {
    result == "2-0" || result == "2-1"
  }

  /** `MATCH_RESULTS.find(r => r.value === value)`. */
  function ResultInfo(value: string): Option<MatchResultInfo> {
    Find(MATCH_RESULTS, (info: MatchResultInfo) => ResultText(info.value) == value)
  }

  /**
   * The test `calculateTournamentStats` filters with: the result's table
   * entry says win. It agrees with `isWin` on every result text.
   */
  predicate CountsAsWin(round: Round): (b: bool)
    ensures b <==> IsWin(round.result)
  {
    TableAgreesWithIsWin(round.result);
    var info := ResultInfo(round.result);
    info.Some? && info.value.isWin
  }

  /** The table and `isWin` classify every result text the same way. */
  lemma TableAgreesWithIsWin(result: string)
    ensures (ResultInfo(result).Some? && ResultInfo(result).value.isWin) <==> IsWin(result)
  {
    var table := MATCH_RESULTS;
    assert table[1..][1..][1..][1..] == [];
  }

  /** Statistics as the application shows them; `winRate` is in tenths of a percent. */
  datatype TournamentStats = TournamentStats(wins: nat, losses: nat, record: string, winRate: nat)

  /** `d * q` grows with `q` when `d` is positive. */
  lemma {:induction false} MulMonotone(d: int, q: int, k: int)
    requires d > 0 && q < k
    ensures d * q + d <= d * k
    decreases k - q
  {
    if k > q + 1 {
      MulMonotone(d, q, k - 1);
      assert d * (k - 1) + d == d * k;
    } else {
      assert d * (q + 1) == d * q + d;
    }
  }

  /**
   * The quotient `q` of a floor division is the only number with
   * `d * q <= x < d * q + d`.
   */
  lemma FloorDivUnique(x: int, d: int, q: int)
    requires d > 0 && d * q <= x < d * q + d
    ensures x / d == q
  {
    var r := x / d;
    assert d * r <= x < d * r + d;
    if r < q {
      MulMonotone(d, r, q);
    } else if q < r {
      MulMonotone(d, q, r);
    }
  }

  /**
   * `Math.round(wins / n * 100 * 10) / 10` as a whole number of tenths:
   * the nearest tenth, halves rounded up, and 0 for an empty list.
   */
  function WinRateTenths(wins: nat, n: nat): (r: nat)
    requires wins <= n
    ensures n == 0 ==> r == 0
    ensures n > 0 ==> 2 * n * r <= 2000 * wins + n < 2 * n * r + 2 * n
    ensures r <= 1000
    ensures n > 0 && wins == n ==> r == 1000
    ensures wins == 0 ==> r == 0
  {
    if n == 0 then 0
    else
      var x, d := 2000 * wins + n, 2 * n;
      var r := x / d;
      assert d * r <= x < d * r + d;
      assert x < d * 1000 + d;
      assert r <= 1000 by {
        if r > 1000 {
          MulMonotone(d, 1000, r);
        }
      }
      assert wins == n ==> r == 1000 by {
        if wins == n {
          FloorDivUnique(x, d, 1000);
        }
      }
      assert wins == 0 ==> r == 0 by {
        if wins == 0 {
          FloorDivUnique(x, d, 0);
        }
      }
      r
  }

  /** The rounds the statistics count as wins, in list order. */
  function WinningRounds(rounds: seq<Round>): seq<Round> {
    Filter(rounds, CountsAsWin)
  }

  /** `calculateTournamentStats`. */
  function CalculateTournamentStats(rounds: seq<Round>): (s: TournamentStats)
    ensures s.wins + s.losses == |rounds|
    ensures s.winRate <= 1000
    ensures |rounds| == 0 ==> s.winRate == 0
    ensures |rounds| > 0 ==> 2 * |rounds| * s.winRate <= 2000 * s.wins + |rounds| < 2 * |rounds| * s.winRate + 2 * |rounds|
  {
    var wins := |WinningRounds(rounds)|;
    var losses := |rounds| - wins;
    TournamentStats(wins, losses, NatText(wins) + "-" + NatText(losses), WinRateTenths(wins, |rounds|))
  }

  /** A round is counted as a win exactly when `isWin` holds of its result; every other result is a loss. */
  lemma WinsAreIsWinResults(rounds: seq<Round>)
    ensures CalculateTournamentStats(rounds).wins == |Filter(rounds, (r: Round) => IsWin(r.result))|
    ensures CalculateTournamentStats(rounds).losses == |Filter(rounds, (r: Round) => !IsWin(r.result))|
  {
    forall i | 0 <= i < |rounds|
      ensures CountsAsWin(rounds[i]) == IsWin(rounds[i].result)
    {
      TableAgreesWithIsWin(rounds[i].result);
    }
    FilterSameTest(rounds, CountsAsWin, (r: Round) => IsWin(r.result));
    FilterSplitsLength(rounds, (r: Round) => IsWin(r.result), (r: Round) => !IsWin(r.result));
  }

  /** When every round is won the win rate is exactly 100%. */
  lemma AllWinsIsHundredPercent(rounds: seq<Round>)
    requires |rounds| > 0
    requires forall i | 0 <= i < |rounds| :: IsWin(rounds[i].result)
    ensures CalculateTournamentStats(rounds).winRate == 1000
    ensures CalculateTournamentStats(rounds).losses == 0
  {
    forall i | 0 <= i < |rounds|
      ensures CountsAsWin(rounds[i])
    {
      TableAgreesWithIsWin(rounds[i].result);
    }
    FilterAll(rounds, CountsAsWin);
  }

  /** The statistics depend only on which rounds there are, not on their order. */
  lemma StatsIgnoreOrder(a: seq<Round>, b: seq<Round>)
    requires multiset(a) == multiset(b)
    ensures CalculateTournamentStats(a) == CalculateTournamentStats(b)
  {
    FilterCountIgnoresOrder(a, b, CountsAsWin);
    assert |a| == |multiset(a)| == |multiset(b)| == |b|;
  }

  /** "w-l" splits at '-' into two digit strings that read back as `w` and `l`. */
  lemma RecordTextReadsBack(w: nat, l: nat)
    ensures var parts := Split(NatText(w) + "-" + NatText(l), '-');
            |parts| == 2 && AllDigits(parts[0]) && AllDigits(parts[1]) &&
            DigitsValue(parts[0]) == w && DigitsValue(parts[1]) == l
  {
    var wt, lt := NatText(w), NatText(l);
    NotInDigits('-', wt);
    NotInDigits('-', lt);
    SplitAtOnlySeparator(wt, '-', lt);
    assert wt + "-" + lt == wt + ['-'] + lt;
    DigitsValueOfNatText(w);
    DigitsValueOfNatText(l);
  }

  /** The record is the decimal win count, '-', the decimal loss count, and reads back as both. */
  lemma RecordReadsBack(rounds: seq<Round>)
    ensures var s := CalculateTournamentStats(rounds);
            var parts := Split(s.record, '-');
            |parts| == 2 && AllDigits(parts[0]) && AllDigits(parts[1]) &&
            DigitsValue(parts[0]) == s.wins && DigitsValue(parts[1]) == s.losses
  {
    var s := CalculateTournamentStats(rounds);
    RecordTextReadsBack(s.wins, s.losses);
  }

  function ExampleRound(id: string, result: string): Round {
    Round(id, 1, Swiss, "ahri", result, None, None, None)
  }

  lemma ExampleWinningRounds(a: Round, b: Round, c: Round)
    requires CountsAsWin(a) && CountsAsWin(b) && !CountsAsWin(c)
    ensures WinningRounds([a, b, c]) == [a, b]
  {
    FilterOfThree(a, b, c, CountsAsWin);
  }

  /** Any two wins and a loss, in that order, give the record "2-1" and 66.7%. */
  lemma TwoWinsOneLoss(a: Round, b: Round, c: Round)
    requires a.result == "2-0" && b.result == "2-1" && c.result == "0-2"
    ensures CalculateTournamentStats([a, b, c]) == TournamentStats(2, 1, "2-1", 667)
  {
    ExampleWinningRounds(a, b, c);
    assert |WinningRounds([a, b, c])| == 2;
    TwoInThree();
  }

  /** Two wins in three rounds print as "2-1" at 66.7%. */
  lemma TwoInThree()
    ensures WinRateTenths(2, 3) == 667
    ensures NatText(2) + "-" + NatText(1) == "2-1"
  {
    FloorDivUnique(2000 * 2 + 3, 6, 667);
  }

  /** Two wins and a loss give "2-1" at 66.7%; no rounds give "0-0" at 0%. */
  lemma StatsExamples()
    ensures CalculateTournamentStats([ExampleRound("a", "2-0"), ExampleRound("b", "2-1"), ExampleRound("c", "0-2")])
            == TournamentStats(2, 1, "2-1", 667)
    ensures CalculateTournamentStats([]) == TournamentStats(0, 0, "0-0", 0)
  {
    TwoWinsOneLoss(ExampleRound("a", "2-0"), ExampleRound("b", "2-1"), ExampleRound("c", "0-2"));
    assert NatText(0) + "-" + NatText(0) == "0-0";
  }

  // ---------------------------------------------------------------- storage

  /** `localStorage` key the session is kept under. */
  const STORAGE_KEY := "riftrecord_tournament"

  /**
   * What the storage slot can hold: the JSON text of a tournament, text that
   * `JSON.parse` rejects, or the empty string.
   */
  datatype StoredText = Encoded(tournament: Tournament) | Malformed | Blank

  /** `loadTournamentFromStorage` on a slot's content: absent, empty or unparsable text reads as null. */
  function Decode(slot: Option<StoredText>): (r: Option<Tournament>)
    ensures r.Some? <==> slot.Some? && slot.value.Encoded?
    ensures r.Some? ==> slot == Some(Encoded(r.value))
  {
    match slot
    case None => None
    case Some(Blank) => None
    case Some(Malformed) => None
    case Some(Encoded(t)) => Some(t)
  }

  /** The browser's `localStorage` entry under `STORAGE_KEY`; `inBrowser` is `typeof window !== 'undefined'`. */
  class TournamentStorage {
    const inBrowser: bool
    var slot: Option<StoredText>

    constructor (inBrowser: bool, slot: Option<StoredText>)
      ensures this.inBrowser == inBrowser && this.slot == slot
    {
      this.inBrowser := inBrowser;
      this.slot := slot;
    }

    /** `saveTournamentToStorage`. */
    method Save(t: Tournament)
      modifies this
      ensures slot == if inBrowser then Some(Encoded(t)) else old(slot)
    {
      if inBrowser {
        slot := Some(Encoded(t));
      }
    }

    /** `loadTournamentFromStorage`: never fails, reads null outside a browser. */
    method Load() returns (r: Option<Tournament>)
      ensures r.Some? ==> inBrowser && slot == Some(Encoded(r.value))
      ensures inBrowser && slot.Some? && slot.value.Encoded? ==> r == Some(slot.value.tournament)
    {
      if inBrowser {
        r := Decode(slot);
      } else {
        r := None;
      }
    }

    /** `clearTournamentStorage`. */
    method Clear()
      modifies this
      ensures slot == if inBrowser then None else old(slot)
    {
      if inBrowser {
        slot := None;
      }
    }
  }

  /** Saving and then loading in a browser gives back the saved tournament. */
  method SaveThenLoad(storage: TournamentStorage, t: Tournament) returns (r: Option<Tournament>)
    requires storage.inBrowser
    modifies storage
    ensures r == Some(t)
  {
    storage.Save(t);
    r := storage.Load();
  }

  /** Clearing and then loading gives null. */
  method ClearThenLoad(storage: TournamentStorage) returns (r: Option<Tournament>)
    requires storage.inBrowser
    modifies storage
    ensures r == None
  {
    storage.Clear();
    r := storage.Load();
  }
}
