/**
 * The tournament session store: the reducer over `{tournament, isLoading}`,
 * per-round-type numbering, and the provider that mirrors the session to
 * local storage.
 */
module TournamentContext {
  import opened Wrappers
  import opened Sequences
  import opened Types
  import opened Utils

  /** `TournamentState`. */
  datatype State = State(tournament: Option<Tournament>, isLoading: bool)

  /** `initialState`: no tournament, and loading until the saved session is read. */
  const InitialState: State := State(None, true)

  /** `Partial<Tournament>`: a `Some` field overrides, a `None` field is absent. */
  datatype TournamentPatch = TournamentPatch(
    id: Option<string>,
    title: Option<string>,
    format: Option<Format>,
    playerLeaderId: Option<string>,
    rounds: Option<seq<Round>>,
    date: Option<string>,
    playerCount: Option<int>,
    createdAt: Option<string>,
    updatedAt: Option<string>)

  /** `Partial<TournamentRound>`: a `Some` field overrides, a `None` field is absent. */
  datatype RoundPatch = RoundPatch(
    id: Option<string>,
    roundNumber: Option<int>,
    roundType: Option<RoundType>,
    opponentLeaderId: Option<string>,
    result: Option<string>,
    topcutLevel: Option<string>,
    diceWon: Option<bool>,
    notes: Option<string>)

  /** `TournamentAction`: the eight actions the reducer handles. */
  datatype Action =
    | LoadTournament(payload: Option<Tournament>)
    | CreateTournament(title: string, format: Format, playerLeaderId: string, date: Option<string>, playerCount: Option<int>)
    | UpdateTournament(patch: TournamentPatch)
    | AddRound(opponentLeaderId: string, result: string, roundType: RoundType,
               topcutLevel: Option<string>, diceWon: Option<bool>, notes: Option<string>)
    | UpdateRound(roundId: string, updates: RoundPatch)
    | DeleteRound(roundId: string)
    | ResetTournament
    | SetLoading(loading: bool)

  /** `{...t, ...patch}`. */
  function MergeTournament(t: Tournament, p: TournamentPatch): Tournament {
    Tournament(
      p.id.GetOr(t.id), p.title.GetOr(t.title), p.format.GetOr(t.format),
      p.playerLeaderId.GetOr(t.playerLeaderId), p.rounds.GetOr(t.rounds), p.date.GetOr(t.date),
      if p.playerCount.Some? then p.playerCount else t.playerCount,
      p.createdAt.GetOr(t.createdAt), p.updatedAt.GetOr(t.updatedAt))
  }

  /** `{...round, ...patch}`. */
  function MergeRound(r: Round, p: RoundPatch): Round {
    Round(
      p.id.GetOr(r.id), p.roundNumber.GetOr(r.roundNumber), p.roundType.GetOr(r.roundType),
      p.opponentLeaderId.GetOr(r.opponentLeaderId), p.result.GetOr(r.result),
      if p.topcutLevel.Some? then p.topcutLevel else r.topcutLevel,
      if p.diceWon.Some? then p.diceWon else r.diceWon,
      if p.notes.Some? then p.notes else r.notes)
  }

  // ---------------------------------------------------------------- numbering

  /** The rounds whose type is exactly `t`, in list order. */
  function OfType(rounds: seq<Round>, t: RoundType): seq<Round> {
    Filter(rounds, (r: Round) => r.roundType == t)
  }

  /** `getNextRoundNumber`: one more than the number of rounds of the same type. */
  function NextRoundNumber(rounds: seq<Round>, t: RoundType): (n: int)
    ensures 1 <= n <= |rounds| + 1
  {
    |OfType(rounds, t)| + 1
  }

  /**
   * The renumbering on delete sorts rounds into two groups only: swiss
   * (`swiss == true`) and every other type (`swiss == false`).
   */
  predicate InGroup(r: Round, swiss: bool) {
    (r.roundType == Swiss) == swiss
  }

  function Group(rounds: seq<Round>, swiss: bool): seq<Round> {
    Filter(rounds, (r: Round) => InGroup(r, swiss))
  }

  /** The rounds of `xs` carry the numbers 1, 2, ..., |xs| in list order. */
  predicate NumberedInOrder(xs: seq<Round>) {
    forall k | 0 <= k < |xs| :: xs[k].roundNumber == k + 1
  }

  /** For every round type, the rounds of that type are numbered 1..N in list order. */
  ghost predicate Dense(rounds: seq<Round>) {
    forall t :: NumberedInOrder(OfType(rounds, t))
  }

  /** A round type the type declaration allows. */
  predicate IsKnownType(t: RoundType) {
    t.Swiss? || t.Topcut?
  }

  /** Every round is a swiss or a top-cut round. */
  predicate KnownTypes(rounds: seq<Round>) {
    forall i | 0 <= i < |rounds| :: IsKnownType(rounds[i].roundType)
  }

  /** `xs` renumbered 1, 2, ..., |xs| in list order. */
  function Sequential(xs: seq<Round>): seq<Round> {
    seq(|xs|, k requires 0 <= k < |xs| => xs[k].(roundNumber := k + 1))
  }

  /**
   * The numbering `DELETE_ROUND` gives the remaining rounds: each round gets
   * one more than the number of rounds of its group before it.
   */
  function Renumbered(rounds: seq<Round>): (r: seq<Round>)
    ensures |r| == |rounds|
    ensures forall i | 0 <= i < |rounds| :: r[i].(roundNumber := rounds[i].roundNumber) == rounds[i]
  {
    if |rounds| == 0 then []
    else
      var init, last := rounds[..|rounds| - 1], rounds[|rounds| - 1];
      Renumbered(init) + [last.(roundNumber := |Group(init, last.roundType == Swiss)| + 1)]
  }

  /** Appending one round extends its group by that round and leaves the other group alone. */
  lemma GroupSnoc(xs: seq<Round>, x: Round, swiss: bool)
    ensures Group(xs + [x], swiss) == Group(xs, swiss) + (if InGroup(x, swiss) then [x] else [])
  {
    assert (xs + [x])[..|xs|] == xs;
  }

  /** Renumbering a list with one more round numbers that round after its group. */
  lemma RenumberedSnoc(xs: seq<Round>, x: Round)
    ensures Renumbered(xs + [x]) == Renumbered(xs) + [x.(roundNumber := |Group(xs, x.roundType == Swiss)| + 1)]
  {
    assert (xs + [x])[..|xs|] == xs;
  }

  /** One step of the renumbering loop: the counters and the result grow by the next round. */
  lemma RenumberStep(rounds: seq<Round>, i: int)
    requires 0 <= i < |rounds|
    ensures var round, swiss := rounds[i], rounds[i].roundType == Swiss;
      && |Group(rounds[..i + 1], true)| == |Group(rounds[..i], true)| + (if swiss then 1 else 0)
      && |Group(rounds[..i + 1], false)| == |Group(rounds[..i], false)| + (if swiss then 0 else 1)
      && Renumbered(rounds[..i + 1]) == Renumbered(rounds[..i]) + [round.(roundNumber := |Group(rounds[..i], swiss)| + 1)]
  {
    assert rounds[..i + 1] == rounds[..i] + [rounds[i]];
    GroupSnoc(rounds[..i], rounds[i], true);
    GroupSnoc(rounds[..i], rounds[i], false);
    RenumberedSnoc(rounds[..i], rounds[i]);
  }

  /**
   * The renumbering loop of `DELETE_ROUND` with its two counters, one for
   * swiss rounds and one for all other rounds.
   */
  method RenumberRounds(rounds: seq<Round>) returns (renumbered: seq<Round>)
    ensures renumbered == Renumbered(rounds)
  {
    var swissCount, topcutCount := 0, 0;
    renumbered := [];
    for i := 0 to |rounds|
      invariant renumbered == Renumbered(rounds[..i])
      invariant swissCount == |Group(rounds[..i], true)|
      invariant topcutCount == |Group(rounds[..i], false)|
    {
      var round := rounds[i];
      RenumberStep(rounds, i);
      if round.roundType == Swiss {
        swissCount := swissCount + 1;
        renumbered := renumbered + [round.(roundNumber := swissCount)];
      } else {
        topcutCount := topcutCount + 1;
        renumbered := renumbered + [round.(roundNumber := topcutCount)];
      }
    }
    assert rounds[..|rounds|] == rounds;
  }

  /** The rounds `DELETE_ROUND` keeps: those whose id differs, in list order. */
  function WithoutId(rounds: seq<Round>, id: string): seq<Round> {
    Filter(rounds, (r: Round) => r.id != id)
  }

  /** `rounds.find(r => r.id === id)`. */
  function FindRound(rounds: seq<Round>, id: string): Option<Round> {
    Find(rounds, (r: Round) => r.id == id)
  }

  /** The `map` of `UPDATE_ROUND`: merge the patch into every round with that id. */
  function UpdatedRounds(rounds: seq<Round>, id: string, p: RoundPatch): seq<Round> {
    seq(|rounds|, i requires 0 <= i < |rounds| => if rounds[i].id == id then MergeRound(rounds[i], p) else rounds[i])
  }

  /** The round `ADD_ROUND` appends. */
  function NewRound(rounds: seq<Round>, freshId: string, opponentLeaderId: string, result: string,
                    roundType: RoundType, topcutLevel: Option<string>, diceWon: Option<bool>,
                    notes: Option<string>): Round
  {
    Round(freshId, NextRoundNumber(rounds, roundType), roundType, opponentLeaderId, result,
          topcutLevel, diceWon, notes)
  }

  // ---------------------------------------------------------------- reducer

  /**
   * `tournamentReducer`. The clock (`new Date().toISOString()`) and the id
   * generator are inputs: `now` and `freshId`. Only a load and `SET_LOADING`
   * touch the loading flag, and only a load, a create and a reset decide
   * whether a tournament is present.
   */
  function Reduce(state: State, action: Action, now: string, freshId: string): (r: State)
    ensures r.isLoading == (match action
      case LoadTournament(_) => false
      case SetLoading(loading) => loading
      case _ => state.isLoading)
    ensures r.tournament.Some? <==> (match action
      case LoadTournament(payload) => payload.Some?
      case CreateTournament(_, _, _, _, _) => true
      case ResetTournament => false
      case _ => state.tournament.Some?)
  {
    match action
    case LoadTournament(payload) =>
      state.(tournament := payload, isLoading := false)
    case CreateTournament(title, format, playerLeaderId, date, playerCount) =>
      var when := if date.Some? && date.value != "" then date.value else now;
      state.(tournament := Some(Tournament(freshId, title, format, playerLeaderId, [], when, playerCount, now, now)))
    case UpdateTournament(patch) =>
      if state.tournament.None? then state
      else state.(tournament := Some(MergeTournament(state.tournament.value, patch).(updatedAt := now)))
    case AddRound(opponentLeaderId, result, roundType, topcutLevel, diceWon, notes) =>
      if state.tournament.None? then state
      else
        var t := state.tournament.value;
        var round := NewRound(t.rounds, freshId, opponentLeaderId, result, roundType, topcutLevel, diceWon, notes);
        state.(tournament := Some(t.(rounds := t.rounds + [round], updatedAt := now)))
    case UpdateRound(roundId, updates) =>
      if state.tournament.None? then state
      else
        var t := state.tournament.value;
        state.(tournament := Some(t.(rounds := UpdatedRounds(t.rounds, roundId, updates), updatedAt := now)))
    case DeleteRound(roundId) =>
      if state.tournament.None? then state
      else if FindRound(state.tournament.value.rounds, roundId).None? then state
      else
        var t := state.tournament.value;
        state.(tournament := Some(t.(rounds := Renumbered(WithoutId(t.rounds, roundId)), updatedAt := now)))
    case ResetTournament =>
      state.(tournament := None)
    case SetLoading(loading) =>
      state.(isLoading := loading)
  }

  // ---------------------------------------------------------------- numbering lemmas

  lemma SequentialSnoc(xs: seq<Round>, x: Round)
    ensures Sequential(xs + [x]) == Sequential(xs) + [x.(roundNumber := |xs| + 1)]
  {
  }

  /** A list already numbered 1..N is its own renumbering. */
  lemma SequentialOfNumbered(xs: seq<Round>)
    requires NumberedInOrder(xs)
    ensures Sequential(xs) == xs
  {
  }

  /**
   * The renumbering gives each group, read in list order, the numbers
   * 1..N and leaves its rounds otherwise unchanged.
   */
  lemma {:induction false} RenumberedGroups(rounds: seq<Round>, swiss: bool)
    ensures Group(Renumbered(rounds), swiss) == Sequential(Group(rounds, swiss))
    decreases |rounds|
  {
    if |rounds| > 0 {
      var init, last := rounds[..|rounds| - 1], rounds[|rounds| - 1];
      assert rounds == init + [last];
      RenumberedGroups(init, swiss);
      var numbered := last.(roundNumber := |Group(init, last.roundType == Swiss)| + 1);
      RenumberedSnoc(init, last);
      GroupSnoc(Renumbered(init), numbered, swiss);
      GroupSnoc(init, last, swiss);
      if InGroup(last, swiss) {
        SequentialSnoc(Group(init, swiss), last);
      }
    }
  }

  lemma RenumberedGroupsInOrder(rounds: seq<Round>, swiss: bool)
    ensures NumberedInOrder(Group(Renumbered(rounds), swiss))
  {
    RenumberedGroups(rounds, swiss);
  }

  /**
   * Every round is a swiss round or of the one type `other`: the sessions
   * in which the two groups of the delete renumbering are two round types.
   */
  predicate SwissOr(rounds: seq<Round>, other: RoundType) {
    forall i | 0 <= i < |rounds| :: rounds[i].roundType == Swiss || rounds[i].roundType == other
  }

  /**
   * When every non-swiss round has the type `other`, the per-type lists are
   * the two groups and every further type has no rounds.
   */
  lemma OneOtherTypeGroups(rounds: seq<Round>, other: RoundType)
    requires SwissOr(rounds, other)
    ensures OfType(rounds, Swiss) == Group(rounds, true)
    ensures other != Swiss ==> OfType(rounds, other) == Group(rounds, false)
    ensures forall t | t != Swiss && t != other :: OfType(rounds, t) == []
  {
    FilterSameTest(rounds, (r: Round) => r.roundType == Swiss, (r: Round) => InGroup(r, true));
    if other != Swiss {
      FilterSameTest(rounds, (r: Round) => r.roundType == other, (r: Round) => InGroup(r, false));
    }
    forall t | t != Swiss && t != other ensures OfType(rounds, t) == [] {
      FilterNone(rounds, (r: Round) => r.roundType == t);
    }
  }

  /** With one non-swiss type, numbering both groups in order makes every type dense. */
  lemma DenseOfGroups(rounds: seq<Round>, other: RoundType)
    requires SwissOr(rounds, other)
    requires NumberedInOrder(Group(rounds, true)) && NumberedInOrder(Group(rounds, false))
    ensures Dense(rounds)
  {
    OneOtherTypeGroups(rounds, other);
    forall t ensures NumberedInOrder(OfType(rounds, t)) {
      if t != Swiss && t != other {
        assert OfType(rounds, t) == [];
      }
    }
  }

  /** Appending a round numbered by `getNextRoundNumber` keeps every type dense. */
  lemma AppendKeepsDense(rounds: seq<Round>, r: Round)
    requires Dense(rounds)
    requires r.roundNumber == NextRoundNumber(rounds, r.roundType)
    ensures Dense(rounds + [r])
  {
    assert (rounds + [r])[..|rounds|] == rounds;
    forall t ensures NumberedInOrder(OfType(rounds + [r], t)) {
      assert NumberedInOrder(OfType(rounds, t));
    }
  }

  /** Two lists that agree on every round's type and number. */
  predicate SameNumbering(a: seq<Round>, b: seq<Round>) {
    |a| == |b| &&
    forall i | 0 <= i < |a| :: a[i].roundType == b[i].roundType && a[i].roundNumber == b[i].roundNumber
  }

  lemma {:induction false} OfTypeSameNumbering(a: seq<Round>, b: seq<Round>, t: RoundType)
    requires SameNumbering(a, b)
    ensures SameNumbering(OfType(a, t), OfType(b, t))
    decreases |a|
  {
    if |a| > 0 {
      OfTypeSameNumbering(a[..|a| - 1], b[..|b| - 1], t);
    }
  }

  /** Removing the rounds with one id, and renumbering, keeps every round swiss or `other`. */
  lemma WithoutIdSwissOr(rounds: seq<Round>, id: string, other: RoundType)
    requires SwissOr(rounds, other)
    ensures SwissOr(WithoutId(rounds, id), other)
    ensures SwissOr(Renumbered(WithoutId(rounds, id)), other)
  {
    var kept := WithoutId(rounds, id);
    FilterMembers(rounds, (r: Round) => r.id != id);
    forall i | 0 <= i < |kept| ensures kept[i].roundType == Swiss || kept[i].roundType == other {
      assert kept[i] in rounds;
    }
  }

  // ---------------------------------------------------------------- reducer lemmas

  /** `LOAD_TOURNAMENT` installs the payload (possibly null) and ends loading. */
  lemma LoadInstallsPayload(state: State, payload: Option<Tournament>, now: string, freshId: string)
    ensures Reduce(state, LoadTournament(payload), now, freshId) == State(payload, false)
  {
  }

  /**
   * `CREATE_TOURNAMENT` replaces any tournament with a fresh one with no
   * rounds, stamped now, dated now unless a non-empty date was given.
   */
  lemma CreateStartsEmpty(state: State, title: string, format: Format, playerLeaderId: string,
                          date: Option<string>, playerCount: Option<int>, now: string, freshId: string)
    ensures var s := Reduce(state, CreateTournament(title, format, playerLeaderId, date, playerCount), now, freshId);
      && s.isLoading == state.isLoading
      && s.tournament.Some?
      && s.tournament.value.id == freshId
      && s.tournament.value.rounds == []
      && s.tournament.value.createdAt == now && s.tournament.value.updatedAt == now
      && (date.Some? && date.value != "" ==> s.tournament.value.date == date.value)
      && (date.None? || date.value == "" ==> s.tournament.value.date == now)
      && s.tournament.value.title == title && s.tournament.value.format == format
      && s.tournament.value.playerLeaderId == playerLeaderId && s.tournament.value.playerCount == playerCount
  {
  }

  /** Without a tournament, the actions that edit one leave the state unchanged. */
  lemma EditsNeedTournament(state: State, action: Action, now: string, freshId: string)
    requires state.tournament.None?
    requires action.UpdateTournament? || action.AddRound? || action.UpdateRound? || action.DeleteRound?
    ensures Reduce(state, action, now, freshId) == state
  {
  }

  /** `RESET_TOURNAMENT` drops the tournament and `SET_LOADING` sets the flag; neither touches the other field. */
  lemma ResetAndSetLoading(state: State, loading: bool, now: string, freshId: string)
    ensures Reduce(state, Action.ResetTournament, now, freshId) == State(None, state.isLoading)
    ensures Reduce(state, SetLoading(loading), now, freshId) == State(state.tournament, loading)
  {
  }

  /**
   * `UPDATE_TOURNAMENT` overrides the fields the patch carries and always
   * stamps `updatedAt` with now, even when the patch carries its own.
   */
  lemma UpdateTournamentStampsNow(state: State, patch: TournamentPatch, now: string, freshId: string)
    requires state.tournament.Some?
    ensures var s := Reduce(state, UpdateTournament(patch), now, freshId);
      var t, t' := state.tournament.value, s.tournament.value;
      && s.isLoading == state.isLoading
      && t'.updatedAt == now
      && t'.id == (if patch.id.Some? then patch.id.value else t.id)
      && t'.title == (if patch.title.Some? then patch.title.value else t.title)
      && t'.format == (if patch.format.Some? then patch.format.value else t.format)
      && t'.playerLeaderId == (if patch.playerLeaderId.Some? then patch.playerLeaderId.value else t.playerLeaderId)
      && t'.rounds == (if patch.rounds.Some? then patch.rounds.value else t.rounds)
      && t'.date == (if patch.date.Some? then patch.date.value else t.date)
      && t'.playerCount == (if patch.playerCount.Some? then patch.playerCount else t.playerCount)
      && t'.createdAt == (if patch.createdAt.Some? then patch.createdAt.value else t.createdAt)
      && (patch == TournamentPatch(None, None, None, None, None, None, None, None, None) ==> t' == t.(updatedAt := now))
  {
  }

  /**
   * `ADD_ROUND` appends exactly one round, with a fresh id and numbered one
   * past the rounds of its type, and changes nothing else but the stamp.
   */
  lemma AddRoundAppends(state: State, opponentLeaderId: string, result: string, roundType: RoundType,
                        topcutLevel: Option<string>, diceWon: Option<bool>, notes: Option<string>,
                        now: string, freshId: string)
    requires state.tournament.Some?
    ensures var s := Reduce(state, AddRound(opponentLeaderId, result, roundType, topcutLevel, diceWon, notes), now, freshId);
      var rs := state.tournament.value.rounds;
      && s.isLoading == state.isLoading
      && s.tournament.Some?
      && |s.tournament.value.rounds| == |rs| + 1
      && s.tournament.value.rounds[..|rs|] == rs
      && s.tournament.value == state.tournament.value.(rounds := s.tournament.value.rounds, updatedAt := now)
      && var r := s.tournament.value.rounds[|rs|];
         && r.id == freshId && r.roundType == roundType
         && r.roundNumber == |OfType(rs, roundType)| + 1
         && r.opponentLeaderId == opponentLeaderId && r.result == result
         && r.topcutLevel == topcutLevel && r.diceWon == diceWon && r.notes == notes
  {
    var rs := state.tournament.value.rounds;
    var s := Reduce(state, AddRound(opponentLeaderId, result, roundType, topcutLevel, diceWon, notes), now, freshId);
    assert s.tournament.value.rounds[..|rs|] == rs;
  }

  /** An empty round patch changes nothing; applying the same patch twice is applying it once. */
  lemma MergeRoundLaws(r: Round, p: RoundPatch)
    ensures MergeRound(r, RoundPatch(None, None, None, None, None, None, None, None)) == r
    ensures MergeRound(MergeRound(r, p), p) == MergeRound(r, p)
  {
  }

  /**
   * `UPDATE_ROUND` shallow-merges the patch into the rounds with that id,
   * keeps the list's length and order, and renumbers nothing: a patch that
   * does not carry a number leaves every number as it was.
   */
  lemma UpdateRoundMerges(state: State, roundId: string, updates: RoundPatch, now: string, freshId: string)
    requires state.tournament.Some?
    ensures var s := Reduce(state, UpdateRound(roundId, updates), now, freshId);
      var rs, rs' := state.tournament.value.rounds, s.tournament.value.rounds;
      && s.isLoading == state.isLoading
      && s.tournament.value == state.tournament.value.(rounds := rs', updatedAt := now)
      && |rs'| == |rs|
      && (forall i | 0 <= i < |rs| && rs[i].id != roundId :: rs'[i] == rs[i])
      && (forall i | 0 <= i < |rs| && rs[i].id == roundId :: rs'[i] == MergeRound(rs[i], updates))
      && (updates.roundNumber.None? ==> forall i | 0 <= i < |rs| :: rs'[i].roundNumber == rs[i].roundNumber)
  {
  }

  /** A patch that touches neither number nor type keeps the numbering dense. */
  lemma UpdateRoundKeepsDense(rounds: seq<Round>, roundId: string, updates: RoundPatch, other: RoundType)
    requires Dense(rounds) && SwissOr(rounds, other)
    requires updates.roundNumber.None? && updates.roundType.None?
    ensures Dense(UpdatedRounds(rounds, roundId, updates))
    ensures SwissOr(UpdatedRounds(rounds, roundId, updates), other)
  {
    var updated := UpdatedRounds(rounds, roundId, updates);
    assert SameNumbering(rounds, updated);
    forall t ensures NumberedInOrder(OfType(updated, t)) {
      OfTypeSameNumbering(rounds, updated, t);
      assert NumberedInOrder(OfType(rounds, t));
    }
  }

  /** `UPDATE_ROUND` does not renumber, so a patch carrying a number can break density. */
  lemma UpdateRoundCanBreakDense()
    ensures var r := Round("a", 1, Swiss, "Jinx", "2-0", None, None, None);
      var patch := RoundPatch(None, Some(5), None, None, None, None, None, None);
      && Dense([r])
      && !Dense(UpdatedRounds([r], "a", patch))
  {
    var r := Round("a", 1, Swiss, "Jinx", "2-0", None, None, None);
    var patch := RoundPatch(None, Some(5), None, None, None, None, None, None);
    forall t ensures NumberedInOrder(OfType([r], t)) {
      assert OfType([r], t) == OfType([], t) + (if r.roundType == t then [r] else []);
    }
    var updated := UpdatedRounds([r], "a", patch);
    assert updated == [r.(roundNumber := 5)];
    var swiss := OfType(updated, Swiss);
    assert swiss == OfType([], Swiss) + [updated[0]];
    assert |swiss| == 1 && swiss[0].roundNumber == 5;
  }

  /** `DELETE_ROUND` of an id that no round has returns the state unchanged. */
  lemma DeleteMissingIsNoOp(state: State, roundId: string, now: string, freshId: string)
    requires state.tournament.Some? ==>
      forall i | 0 <= i < |state.tournament.value.rounds| :: state.tournament.value.rounds[i].id != roundId
    ensures Reduce(state, DeleteRound(roundId), now, freshId) == state
  {
  }

  /** `DELETE_ROUND` of a present id installs the renumbered survivors and stamps now. */
  lemma DeleteRoundResult(state: State, roundId: string, now: string, freshId: string)
    requires state.tournament.Some?
    requires FindRound(state.tournament.value.rounds, roundId).Some?
    ensures Reduce(state, DeleteRound(roundId), now, freshId).tournament ==
      Some(state.tournament.value.(rounds := Renumbered(WithoutId(state.tournament.value.rounds, roundId)), updatedAt := now))
    ensures Reduce(state, DeleteRound(roundId), now, freshId).isLoading == state.isLoading
  {
  }

  /**
   * Removing a present id drops every round with that id, keeps the others
   * in their order with only their numbers changed, and numbers the swiss
   * rounds and the remaining rounds 1..N each.
   */
  lemma DeleteShape(rounds: seq<Round>, roundId: string)
    requires exists i :: 0 <= i < |rounds| && rounds[i].id == roundId
    ensures var kept := WithoutId(rounds, roundId);
      var after := Renumbered(kept);
      && |after| == |kept| < |rounds|
      && (forall i | 0 <= i < |after| :: after[i].id != roundId)
      && (forall i | 0 <= i < |after| :: after[i].(roundNumber := kept[i].roundNumber) == kept[i])
      && NumberedInOrder(Group(after, true)) && NumberedInOrder(Group(after, false))
  {
    var i :| 0 <= i < |rounds| && rounds[i].id == roundId;
    FilterDropsFailing(rounds, (r: Round) => r.id != roundId, i);
    RenumberedGroupsInOrder(WithoutId(rounds, roundId), true);
    RenumberedGroupsInOrder(WithoutId(rounds, roundId), false);
  }

  /**
   * `DELETE_ROUND` of a present id: the survivors keep their order, lose
   * the id, and each group is numbered 1..N; nothing else but the stamp changes.
   */
  lemma DeleteRoundRemoves(state: State, roundId: string, now: string, freshId: string)
    requires state.tournament.Some?
    requires exists i :: 0 <= i < |state.tournament.value.rounds| && state.tournament.value.rounds[i].id == roundId
    ensures var s := Reduce(state, DeleteRound(roundId), now, freshId);
      && s.tournament.Some?
      && var rs, rs' := state.tournament.value.rounds, s.tournament.value.rounds;
      var kept := WithoutId(rs, roundId);
      && s.isLoading == state.isLoading
      && s.tournament.value == state.tournament.value.(rounds := rs', updatedAt := now)
      && |rs'| == |kept| < |rs|
      && (forall i | 0 <= i < |rs'| :: rs'[i].id != roundId)
      && (forall i | 0 <= i < |rs'| :: rs'[i].(roundNumber := kept[i].roundNumber) == kept[i])
      && NumberedInOrder(Group(rs', true)) && NumberedInOrder(Group(rs', false))
  {
    var rs := state.tournament.value.rounds;
    var i :| 0 <= i < |rs| && rs[i].id == roundId;
    assert FindRound(rs, roundId).Some?;
    DeleteRoundResult(state, roundId, now, freshId);
    var s := Reduce(state, DeleteRound(roundId), now, freshId);
    assert s.isLoading == state.isLoading;
    assert s.tournament.value.rounds == Renumbered(WithoutId(rs, roundId));
    DeleteShape(rs, roundId);
  }

  /**
   * Deleting a round of one group leaves an already numbered other group
   * exactly as it was.
   */
  lemma DeleteLeavesOtherGroup(rounds: seq<Round>, roundId: string, swiss: bool)
    requires NumberedInOrder(Group(rounds, swiss))
    requires forall i | 0 <= i < |rounds| && InGroup(rounds[i], swiss) :: rounds[i].id != roundId
    ensures Group(Renumbered(WithoutId(rounds, roundId)), swiss) == Group(rounds, swiss)
  {
    RenumberedGroups(WithoutId(rounds, roundId), swiss);
    FilterAbsorb(rounds, (r: Round) => r.id != roundId, (r: Round) => InGroup(r, swiss));
    SequentialOfNumbered(Group(rounds, swiss));
  }

  /**
   * When every non-swiss round has the one type `other` (top-cut, or the
   * unset type of a form that sends no notes), the renumbering on delete
   * makes every type dense.
   */
  lemma DeleteMakesDense(rounds: seq<Round>, roundId: string, other: RoundType)
    requires SwissOr(rounds, other)
    ensures SwissOr(Renumbered(WithoutId(rounds, roundId)), other)
    ensures Dense(Renumbered(WithoutId(rounds, roundId)))
  {
    var after := Renumbered(WithoutId(rounds, roundId));
    WithoutIdSwissOr(rounds, roundId, other);
    RenumberedGroupsInOrder(WithoutId(rounds, roundId), true);
    RenumberedGroupsInOrder(WithoutId(rounds, roundId), false);
    DenseOfGroups(after, other);
  }

  /** Three rounds, dense per type: top-cut 1, a "bye" round 1, top-cut 2. */
  function LumpedTopcutFirst(): Round { Round("a", 1, Topcut, "Jinx", "2-0", None, None, None) }
  function LumpedBye(): Round { Round("b", 1, Other("bye"), "Jinx", "2-0", None, None, None) }
  function LumpedTopcutSecond(): Round { Round("c", 2, Topcut, "Jinx", "0-2", None, None, None) }

  lemma LumpedExampleDense()
    ensures Dense([LumpedTopcutFirst(), LumpedBye(), LumpedTopcutSecond()])
  {
    var a, b, c := LumpedTopcutFirst(), LumpedBye(), LumpedTopcutSecond();
    forall t ensures NumberedInOrder(OfType([a, b, c], t)) {
      FilterOfThree(a, b, c, (r: Round) => r.roundType == t);
    }
  }

  lemma LumpedExampleKept()
    ensures WithoutId([LumpedTopcutFirst(), LumpedBye(), LumpedTopcutSecond()], "a") == [LumpedBye(), LumpedTopcutSecond()]
  {
    FilterOfThree(LumpedTopcutFirst(), LumpedBye(), LumpedTopcutSecond(), (r: Round) => r.id != "a");
  }

  lemma LumpedExampleRenumbered()
    ensures Renumbered([LumpedBye(), LumpedTopcutSecond()]) == [LumpedBye(), LumpedTopcutSecond()]
  {
    var b, c := LumpedBye(), LumpedTopcutSecond();
    RenumberedSnoc([], b);
    RenumberedSnoc([b], c);
    assert [b] + [c] == [b, c];
    assert Group([b], false) == [b];
  }

  lemma LumpedExampleNotDense()
    ensures !Dense([LumpedBye(), LumpedTopcutSecond()])
  {
    var b, c := LumpedBye(), LumpedTopcutSecond();
    assert [b, c][..1] == [b] && [b][..0] == [];
    assert OfType([b], Topcut) == [];
    var topcut := OfType([b, c], Topcut);
    assert topcut == [c];
    assert topcut[0].roundNumber == 2;
  }

  /**
   * Delete numbers all non-swiss rounds as one group, so a round of a third
   * type shares its numbers with the top-cut rounds and density is lost.
   */
  lemma DeleteLumpsOtherTypes()
    ensures var rounds := [LumpedTopcutFirst(), LumpedBye(), LumpedTopcutSecond()];
      Dense(rounds) && !Dense(Renumbered(WithoutId(rounds, "a")))
  {
    LumpedExampleDense();
    LumpedExampleKept();
    LumpedExampleRenumbered();
    LumpedExampleNotDense();
  }

  // ---------------------------------------------------------------- the numbering invariant

  /**
   * The session's non-swiss rounds all have the one type `other`, and the
   * rounds of every type are numbered 1..N.
   */
  ghost predicate WellNumbered(state: State, other: RoundType) {
    state.tournament.Some? ==> SwissOr(state.tournament.value.rounds, other) && Dense(state.tournament.value.rounds)
  }

  /**
   * The actions that keep the non-swiss rounds of one type `other`: every
   * add of a swiss or an `other` round, every delete, and the edits that
   * touch no round's number or type.
   */
  ghost predicate KeepsNumbering(action: Action, other: RoundType) {
    match action
    case LoadTournament(payload) => WellNumbered(State(payload, false), other)
    case UpdateTournament(patch) => patch.rounds.None?
    case AddRound(_, _, roundType, _, _, _) => roundType == Swiss || roundType == other
    case UpdateRound(_, updates) => updates.roundNumber.None? && updates.roundType.None?
    case _ => true
  }

  /** Each such action keeps the rounds well numbered. */
  lemma ReduceKeepsNumbering(state: State, action: Action, now: string, freshId: string, other: RoundType)
    requires WellNumbered(state, other) && KeepsNumbering(action, other)
    ensures WellNumbered(Reduce(state, action, now, freshId), other)
  {
    if state.tournament.Some? {
      var rs := state.tournament.value.rounds;
      match action
      case AddRound(opponentLeaderId, result, roundType, topcutLevel, diceWon, notes) =>
        var r := NewRound(rs, freshId, opponentLeaderId, result, roundType, topcutLevel, diceWon, notes);
        AppendKeepsDense(rs, r);
        assert (rs + [r])[..|rs|] == rs;
      case UpdateRound(roundId, updates) =>
        UpdateRoundKeepsDense(rs, roundId, updates, other);
      case DeleteRound(roundId) =>
        DeleteMakesDense(rs, roundId, other);
      case _ =>
    }
  }

  /** One dispatch: the action and the clock and id it was reduced with. */
  datatype Step = Step(action: Action, now: string, freshId: string)

  /** The state after dispatching `steps` in order. */
  function Run(state: State, steps: seq<Step>): State
    decreases |steps|
  {
    if |steps| == 0 then state
    else
      var last := steps[|steps| - 1];
      Reduce(Run(state, steps[..|steps| - 1]), last.action, last.now, last.freshId)
  }

  /** Any sequence of such dispatches keeps every type numbered 1..N. */
  lemma {:induction false} RunKeepsNumbering(state: State, steps: seq<Step>, other: RoundType)
    requires WellNumbered(state, other)
    requires forall i | 0 <= i < |steps| :: KeepsNumbering(steps[i].action, other)
    ensures WellNumbered(Run(state, steps), other)
    decreases |steps|
  {
    if |steps| > 0 {
      var last := steps[|steps| - 1];
      RunKeepsNumbering(state, steps[..|steps| - 1], other);
      ReduceKeepsNumbering(Run(state, steps[..|steps| - 1]), last.action, last.now, last.freshId, other);
    }
  }

  // ---------------------------------------------------------------- the provider

  /** The save effect's condition: a tournament is present and loading is over. */
  predicate ShouldSave(state: State) {
    !state.isLoading && state.tournament.Some?
  }

  /**
   * `TournamentProvider`: the reducer's state plus the storage it is
   * mirrored to. Each callback dispatches one action; the save effect then
   * writes the tournament whenever it is present and loading is over.
   */
  class Session {
    var state: State
    const storage: TournamentStorage

    /** In a browser, a present tournament, once loaded, is the text in storage. */
    predicate Mirrored()
      reads this, storage
    {
      storage.inBrowser && ShouldSave(state) ==> storage.slot == Some(Encoded(state.tournament.value))
    }

    constructor (storage: TournamentStorage)
      ensures state == InitialState && this.storage == storage
      ensures Mirrored()
    {
      state := InitialState;
      this.storage := storage;
    }

    /** One dispatch followed by the save effect. */
    method Dispatch(action: Action, now: string, freshId: string)
      modifies this, storage
      ensures state == Reduce(old(state), action, now, freshId)
      ensures ShouldSave(state) ==> storage.slot == (if storage.inBrowser then Some(Encoded(state.tournament.value)) else old(storage.slot))
      ensures !ShouldSave(state) ==> storage.slot == old(storage.slot)
      ensures Mirrored()
    {
      state := Reduce(state, action, now, freshId);
      if ShouldSave(state) {
        storage.Save(state.tournament.value);
      }
    }

    /** The mount effect: read the saved session and load it, ending the loading phase. */
    method Mount()
      modifies this, storage
      ensures !state.isLoading
      ensures state.tournament.Some? ==> storage.inBrowser && old(storage.slot) == Some(Encoded(state.tournament.value))
      ensures storage.inBrowser && old(storage.slot).Some? && old(storage.slot).value.Encoded? ==>
              state.tournament == Some(old(storage.slot).value.tournament)
      ensures storage.slot == old(storage.slot)
      ensures Mirrored()
    {
      var saved := storage.Load();
      Dispatch(LoadTournament(saved), "", "");
    }

    /**
     * `resetTournament`: dispatch the reset, then remove the saved entry.
     * The effect saves nothing after a reset, since no tournament is left.
     */
    method ResetTournament()
      modifies this, storage
      ensures state == old(state).(tournament := None)
      ensures storage.slot == if storage.inBrowser then None else old(storage.slot)
      ensures Mirrored()
    {
      Dispatch(Action.ResetTournament, "", "");
      storage.Clear();
    }
  }

  /**
   * Starting over: after a reset nothing is restored, even on a fresh
   * mount in the same browser.
   */
  method ResetThenRemount(session: Session) returns (restored: Session)
    requires session.storage.inBrowser
    modifies session, session.storage
    ensures fresh(restored)
    ensures restored.state == State(None, false)
  {
    session.ResetTournament();
    restored := new Session(session.storage);
    restored.Mount();
  }

  /**
   * Persistence: when a dispatch leaves a loaded tournament, a fresh mount
   * in the same browser restores exactly that tournament.
   */
  method DispatchThenRemount(session: Session, action: Action, now: string, freshId: string)
    returns (restored: Session)
    requires session.storage.inBrowser
    modifies session, session.storage
    ensures fresh(restored)
    ensures ShouldSave(session.state) ==> restored.state.tournament == session.state.tournament
    ensures !restored.state.isLoading
  {
    session.Dispatch(action, now, freshId);
    restored := Remount(session);
  }

  /**
   * A fresh mount over the storage of a mirrored session in the same browser
   * restores the session's tournament whenever it was loaded.
   */
  method Remount(session: Session) returns (restored: Session)
    requires session.storage.inBrowser && session.Mirrored()
    modifies session.storage
    ensures fresh(restored)
    ensures ShouldSave(session.state) ==> restored.state.tournament == session.state.tournament
    ensures !restored.state.isLoading
  {
    restored := new Session(session.storage);
    restored.Mount();
  }
}
