/**
 * The list of recorded rounds: a swiss section and a top-cut section, an
 * empty state, and a delete button that must be clicked twice.
 */
module RoundsList {
  import opened Wrappers
  import opened Sequences
  import opened Types
  import opened TournamentContext

  /** What the list shows: the empty state, or the two sections (each drawn only when non-empty). */
  datatype ListView = EmptyState | Sections(swiss: seq<Round>, topcut: seq<Round>)

  /** The rendered list: `rounds.length === 0` shows the empty state, otherwise the two filters. */
  function Render(rounds: seq<Round>): (v: ListView)
    ensures v.EmptyState? <==> rounds == []
  {
    if |rounds| == 0 then EmptyState else Sections(OfType(rounds, Swiss), OfType(rounds, Topcut))
  }

  /** The rounds that neither section shows. */
  function Unlisted(rounds: seq<Round>): seq<Round> {
    Filter(rounds, (r: Round) => !IsKnownType(r.roundType))
  }

  /** Every round is in exactly one of: the swiss section, the top-cut section, the unlisted rounds. */
  lemma {:induction false} SectionsCount(rounds: seq<Round>)
    ensures |OfType(rounds, Swiss)| + |OfType(rounds, Topcut)| + |Unlisted(rounds)| == |rounds|
    decreases |rounds|
  {
    if |rounds| > 0 {
      SectionsCount(rounds[..|rounds| - 1]);
    }
  }

  /** The two sections together show every round exactly when all rounds are swiss or top-cut. */
  lemma SectionsPartition(rounds: seq<Round>)
    ensures |OfType(rounds, Swiss)| + |OfType(rounds, Topcut)| <= |rounds|
    ensures |OfType(rounds, Swiss)| + |OfType(rounds, Topcut)| == |rounds| <==> KnownTypes(rounds)
  {
    SectionsCount(rounds);
    if KnownTypes(rounds) {
      FilterNone(rounds, (r: Round) => !IsKnownType(r.roundType));
    } else {
      var i :| 0 <= i < |rounds| && !IsKnownType(rounds[i].roundType);
      FilterMembers(rounds, (r: Round) => !IsKnownType(r.roundType));
      assert rounds[i] in Unlisted(rounds);
    }
  }

  /**
   * A non-empty list whose rounds have no declared type leaves the empty
   * state but shows no section: such rounds are invisible.
   */
  lemma UntypedRoundsAreHidden(rounds: seq<Round>)
    requires rounds != []
    requires forall i | 0 <= i < |rounds| :: !IsKnownType(rounds[i].roundType)
    ensures Render(rounds) == Sections([], [])
  {
    FilterNone(rounds, (r: Round) => r.roundType == Swiss);
    FilterNone(rounds, (r: Round) => r.roundType == Topcut);
  }

  /**
   * The two-click delete: the first click on a round arms it, a second click
   * on the armed round deletes it. `deleted` logs the calls to `deleteRound`.
   */
  class DeleteConfirm {
    var deleteConfirmId: Option<string>
    var deleted: seq<string>

    constructor ()
      ensures deleteConfirmId.None? && deleted == []
    {
      deleteConfirmId, deleted := None, [];
    }

    /** `handleDeleteClick`. */
    method HandleDeleteClick(roundId: string)
      modifies this
      ensures old(deleteConfirmId) == Some(roundId) ==> deleted == old(deleted) + [roundId] && deleteConfirmId.None?
      ensures old(deleteConfirmId) != Some(roundId) ==> deleted == old(deleted) && deleteConfirmId == Some(roundId)
    {
      if deleteConfirmId == Some(roundId) {
        deleted := deleted + [roundId];
        deleteConfirmId := None;
      } else {
        deleteConfirmId := Some(roundId);
      }
    }

    /**
     * The three-second timer set by an arming click: it disarms whatever
     * is armed when it fires, even a round armed by a later click.
     */
    method TimerFires()
      modifies this`deleteConfirmId
      ensures deleteConfirmId.None?
    {
      deleteConfirmId := None;
    }
  }

  /** Two clicks on the same round delete it once; one click never deletes. */
  method ClickTwice(confirm: DeleteConfirm, roundId: string)
    requires confirm.deleteConfirmId != Some(roundId)
    modifies confirm
    ensures confirm.deleted == old(confirm.deleted) + [roundId]
    ensures confirm.deleteConfirmId.None?
  {
    confirm.HandleDeleteClick(roundId);
    assert confirm.deleted == old(confirm.deleted);
    confirm.HandleDeleteClick(roundId);
  }

  /** A timer that fires between the two clicks cancels the deletion: the second click only re-arms. */
  method ClickTimeoutClick(confirm: DeleteConfirm, roundId: string)
    requires confirm.deleteConfirmId != Some(roundId)
    modifies confirm
    ensures confirm.deleted == old(confirm.deleted)
    ensures confirm.deleteConfirmId == Some(roundId)
  {
    confirm.HandleDeleteClick(roundId);
    confirm.TimerFires();
    confirm.HandleDeleteClick(roundId);
  }
}
