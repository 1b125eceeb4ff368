/**
 * The form that records one round: opponent leader, result and optional
 * notes, validated on submit and handed to the session's `addRound`.
 */
module RoundEntry {
  import opened Wrappers
  import opened Text
  import opened Types
  import opened FormErrors
  import opened TournamentContext

  /** The keys of the form's error record. */
  datatype Field = OpponentField | ResultField

  const OPPONENT_REQUIRED: string := "Please select opponent's leader"
  const RESULT_REQUIRED: string := "Please select the result"

  /** `!opponentLeaderId`: no opponent, or the empty id. */
  predicate NoOpponent(opponentLeaderId: Option<string>) {
    opponentLeaderId.None? || opponentLeaderId.value == ""
  }

  /** The error record `validate` builds: a message exactly on the missing fields. */
  function EntryErrors(opponentLeaderId: Option<string>, result: Option<MatchResult>): (errors: map<Field, string>)
    ensures OpponentField in errors <==> NoOpponent(opponentLeaderId)
    ensures ResultField in errors <==> result.None?
    ensures OpponentField in errors ==> errors[OpponentField] == OPPONENT_REQUIRED
    ensures ResultField in errors ==> errors[ResultField] == RESULT_REQUIRED
    ensures errors == map[] <==> !NoOpponent(opponentLeaderId) && result.Some?
  {
    var withOpponent := if NoOpponent(opponentLeaderId) then map[OpponentField := OPPONENT_REQUIRED] else map[];
    var errors := if result.None? then withOpponent[ResultField := RESULT_REQUIRED] else withOpponent;
    assert OpponentField in errors ==> errors != map[];
    errors
  }

  /** `notes.trim() || undefined`. */
  function NotesArgument(notes: string): (r: Option<string>)
    ensures r.None? <==> AllSpace(notes)
    ensures r.Some? ==> r.value == Trim(notes)
    ensures r.Some? ==> r.value != "" && !IsSpace(r.value[0]) && !IsSpace(r.value[|r.value| - 1])
  {
    var trimmed := Trim(notes);
    if trimmed == "" then None else Some(trimmed)
  }

  /** One call to `addRound`, by position: opponent, result, and the third argument. */
  datatype AddRoundCall = AddRoundCall(opponentLeaderId: string, result: MatchResult, third: Option<string>)

  /** The value a `roundType` parameter holds when it receives `text`. */
  function RoundTypeOf(text: Option<string>): (t: RoundType)
    ensures IsKnownType(t) <==> text == Some("swiss") || text == Some("topcut")
    ensures t == Unset <==> text.None?
    ensures t.Other? ==> text == Some(t.tag) && t.tag != "swiss" && t.tag != "topcut"
  {
    if text.None? then Unset
    else if text.value == "swiss" then Swiss
    else if text.value == "topcut" then Topcut
    else Other(text.value)
  }

  /**
   * The action `addRound` dispatches for a call from this form: the third
   * argument is the `roundType` parameter, and `notes` is left undefined.
   */
  function DispatchedAction(call: AddRoundCall): Action {
    AddRound(call.opponentLeaderId, ResultText(call.result), RoundTypeOf(call.third), None, None, None)
  }

  /**
   * The form's notes never reach the round's `notes`: they become its round
   * type, and a round without notes gets no round type at all, so it is
   * numbered among the untyped rounds rather than as a swiss round.
   */
  lemma EntryNotesBecomeRoundType(state: State, call: AddRoundCall, now: string, freshId: string)
    requires state.tournament.Some?
    ensures var s := Reduce(state, DispatchedAction(call), now, freshId);
      var rs := state.tournament.value.rounds;
      var added := s.tournament.value.rounds[|rs|];
      && |s.tournament.value.rounds| == |rs| + 1
      && added.notes.None?
      && added.roundType == RoundTypeOf(call.third)
      && (call.third.None? ==> added.roundType == Unset && added.roundNumber == |OfType(rs, Unset)| + 1)
      && (call.third != Some("swiss") ==> !added.roundType.Swiss?)
  {
    var a := DispatchedAction(call);
    AddRoundAppends(state, a.opponentLeaderId, a.result, a.roundType, a.topcutLevel, a.diceWon, a.notes, now, freshId);
  }

  /**
   * The form's default path: rounds entered with blank notes all get the
   * unset type, so a session whose non-swiss rounds are all unset stays
   * numbered 1..N per type when the form adds a round with blank notes (or
   * with the notes "swiss").
   */
  lemma EntryKeepsNumbering(state: State, opponentLeaderId: string, result: MatchResult, notes: string,
                            now: string, freshId: string)
    requires WellNumbered(state, Unset)
    requires AllSpace(notes) || Trim(notes) == "swiss"
    ensures var call := AddRoundCall(opponentLeaderId, result, NotesArgument(notes));
      WellNumbered(Reduce(state, DispatchedAction(call), now, freshId), Unset)
  {
    var call := AddRoundCall(opponentLeaderId, result, NotesArgument(notes));
    ReduceKeepsNumbering(state, DispatchedAction(call), now, freshId, Unset);
  }

  /**
   * `RoundEntry`: the form state, whether an `onComplete` callback was
   * given, and as logs the calls it makes to `addRound` and `onComplete`.
   */
  class EntryForm {
    const hasOnComplete: bool
    var opponentLeaderId: Option<string>
    var result: Option<MatchResult>
    var notes: string
    var showNotes: bool
    var errors: map<Field, string>
    var added: seq<AddRoundCall>
    var completions: nat

    /** The state the form starts in and returns to after a submit or a cancel. */
    predicate Blank()
      reads this
    {
      opponentLeaderId.None? && result.None? && notes == "" && !showNotes && errors == map[]
    }

    constructor (hasOnComplete: bool)
      ensures this.hasOnComplete == hasOnComplete && Blank() && added == [] && completions == 0
    {
      this.hasOnComplete := hasOnComplete;
      opponentLeaderId, result, notes, showNotes, errors := None, None, "", false, map[];
      added, completions := [], 0;
    }

    /** `isFormDirty`: an opponent, a result or some notes text is present. */
    predicate IsFormDirty()
      reads this
    {
      !NoOpponent(opponentLeaderId) || result.Some? || notes != ""
    }

    /** The submit button is enabled unless the opponent or the result is missing. */
    predicate SubmitEnabled()
      reads this
    {
      !(NoOpponent(opponentLeaderId) || result.None?)
    }

    /** The button is enabled exactly when `validate` would pass, and a blank form is not dirty. */
    lemma EnabledIffValid()
      ensures SubmitEnabled() <==> EntryErrors(opponentLeaderId, result) == map[]
      ensures Blank() ==> !IsFormDirty() && !SubmitEnabled()
    {
    }

    /** `validate`: rebuild the error record; valid when it is empty. */
    method Validate() returns (ok: bool)
      modifies this`errors
      ensures errors == EntryErrors(opponentLeaderId, result)
      ensures ok <==> errors == map[]
    {
      var newErrors: map<Field, string> := map[];
      if NoOpponent(opponentLeaderId) {
        newErrors := newErrors[OpponentField := OPPONENT_REQUIRED];
      }
      if result.None? {
        newErrors := newErrors[ResultField := RESULT_REQUIRED];
      }
      errors := newErrors;
      ok := |newErrors.Keys| == 0;
      assert ok <==> newErrors == map[] by {
        if !ok {
          var f :| f in newErrors.Keys;
        }
      }
    }

    /** Reset every field and clear the errors. */
    method Reset()
      modifies this`opponentLeaderId, this`result, this`notes, this`showNotes, this`errors
      ensures Blank()
    {
      opponentLeaderId, result, notes, showNotes, errors := None, None, "", false, map[];
    }

    /**
     * `handleSubmit`: an invalid form only shows its errors; a valid one
     * calls `addRound` with the opponent, the result and the trimmed notes,
     * resets, and then calls `onComplete` when there is one.
     */
    method HandleSubmit()
      modifies this
      ensures EntryErrors(old(opponentLeaderId), old(result)) != map[] ==>
        && errors == EntryErrors(old(opponentLeaderId), old(result))
        && opponentLeaderId == old(opponentLeaderId) && result == old(result)
        && notes == old(notes) && showNotes == old(showNotes)
        && added == old(added) && completions == old(completions)
      ensures EntryErrors(old(opponentLeaderId), old(result)) == map[] ==>
        && Blank()
        && added == old(added) + [AddRoundCall(old(opponentLeaderId).value, old(result).value, NotesArgument(old(notes)))]
        && completions == old(completions) + (if hasOnComplete then 1 else 0)
    {
      var ok := Validate();
      if !ok {
        return;
      }
      added := added + [AddRoundCall(opponentLeaderId.value, result.value, NotesArgument(notes))];
      Reset();
      if hasOnComplete {
        completions := completions + 1;
      }
    }

    /** `handleCancel`: the same reset, with no call to `addRound` or `onComplete`. */
    method HandleCancel()
      modifies this`opponentLeaderId, this`result, this`notes, this`showNotes, this`errors
      ensures Blank()
    {
      Reset();
    }

    /** Picking an opponent (the empty id reads as none) clears the opponent error only. */
    method SelectOpponent(id: string)
      modifies this`opponentLeaderId, this`errors
      ensures opponentLeaderId == (if id == "" then None else Some(id))
      ensures errors == Cleared(old(errors), OpponentField)
    {
      opponentLeaderId := if id == "" then None else Some(id);
      if Shown(errors, OpponentField) {
        errors := errors[OpponentField := ""];
      }
    }

    /** Picking a result clears the result error only. */
    method SelectResult(r: MatchResult)
      modifies this`result, this`errors
      ensures result == Some(r) && errors == Cleared(old(errors), ResultField)
    {
      result := Some(r);
      if Shown(errors, ResultField) {
        errors := errors[ResultField := ""];
      }
    }

    /** "Add notes" opens the notes box; typing sets the notes. */
    method OpenNotes()
      modifies this`showNotes
      ensures showNotes
    {
      showNotes := true;
    }

    method EditNotes(value: string)
      modifies this`notes
      ensures notes == value
    {
      notes := value;
    }
  }
}
