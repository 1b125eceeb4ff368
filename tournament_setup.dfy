/**
 * The form that starts a tournament: title, format, leader, date and player
 * count, validated on submit, with each field's error cleared as it is edited.
 */
module TournamentSetup {
  import opened Wrappers
  import opened Text
  import opened Types
  import opened FormErrors

  /** The keys of the form's error record. */
  datatype Field = TitleField | FormatField | LeaderField

  const REQUIRED: string := "Required"

  /** `!leaderId`: no leader, or the empty id. */
  predicate NoLeader(leaderId: Option<string>) {
    leaderId.None? || leaderId.value == ""
  }

  /** The error record `validate` builds: "Required" exactly on the missing fields. */
  function SetupErrors(title: string, format: Option<Format>, leaderId: Option<string>): (errors: map<Field, string>)
    ensures TitleField in errors <==> Trim(title) == ""
    ensures FormatField in errors <==> format.None?
    ensures LeaderField in errors <==> NoLeader(leaderId)
    ensures forall f | f in errors :: errors[f] == REQUIRED
    ensures errors == map[] <==> Trim(title) != "" && format.Some? && !NoLeader(leaderId)
  {
    var withTitle := if Trim(title) == "" then map[TitleField := REQUIRED] else map[];
    var withFormat := if format.None? then withTitle[FormatField := REQUIRED] else withTitle;
    var errors := if NoLeader(leaderId) then withFormat[LeaderField := REQUIRED] else withFormat;
    assert TitleField in errors ==> errors != map[];
    errors
  }

  /** The player count `createTournament` receives: undefined, or `parseInt` of the text (None for NaN). */
  datatype CountArg = NoCount | CountOf(parsed: Option<int>)

  /** `playerCount ? parseInt(playerCount, 10) : undefined`. */
  function CountArgument(playerCount: string): (c: CountArg)
    ensures c.NoCount? <==> playerCount == ""
  {
    if playerCount == "" then NoCount else CountOf(ParseInt(playerCount))
  }

  /** A count typed as a decimal number reaches `createTournament` as that number. */
  lemma CountArgumentOfNumber(n: nat)
    ensures CountArgument(NatText(n)) == CountOf(Some(n))
  {
    ParseIntOfNatText(n);
  }

  /** One call to `createTournament`, with its arguments. */
  datatype CreateCall = CreateCall(title: string, format: Format, leaderId: string, date: string, playerCount: CountArg)

  /**
   * `TournamentSetup`: the form state, and as logs the calls it makes to
   * `createTournament` and `onComplete`.
   */
  class SetupForm {
    var title: string
    var format: Option<Format>
    var leaderId: Option<string>
    var date: string
    var playerCount: string
    var errors: map<Field, string>
    var created: seq<CreateCall>
    var completions: nat

    /** The initial form, dated with the given clock reading. */
    constructor (today: string)
      ensures title == "" && format.None? && leaderId.None? && date == today && playerCount == ""
      ensures errors == map[] && created == [] && completions == 0
    {
      title, format, leaderId, date, playerCount := "", None, None, today, "";
      errors, created, completions := map[], [], 0;
    }

    /** `validate`: rebuild the error record from the fields; valid when it is empty. */
    method Validate() returns (ok: bool)
      modifies this`errors
      ensures errors == SetupErrors(title, format, leaderId)
      ensures ok <==> errors == map[]
    {
      var newErrors: map<Field, string> := map[];
      if Trim(title) == "" {
        newErrors := newErrors[TitleField := REQUIRED];
      }
      if format.None? {
        newErrors := newErrors[FormatField := REQUIRED];
      }
      if NoLeader(leaderId) {
        newErrors := newErrors[LeaderField := REQUIRED];
      }
      errors := newErrors;
      ok := |newErrors.Keys| == 0;
      assert ok <==> newErrors == map[] by {
        if !ok {
          var f :| f in newErrors.Keys;
        }
      }
    }

    /**
     * `handleSubmit`: an invalid form only shows its errors; a valid one
     * creates the tournament from the trimmed title and the parsed count,
     * then completes.
     */
    method HandleSubmit()
      modifies this`errors, this`created, this`completions
      ensures errors == SetupErrors(title, format, leaderId)
      ensures errors != map[] ==> created == old(created) && completions == old(completions)
      ensures errors == map[] ==>
        && format.Some? && leaderId.Some?
        && created == old(created) + [CreateCall(Trim(title), format.value, leaderId.value, date, CountArgument(playerCount))]
        && completions == old(completions) + 1
    {
      var ok := Validate();
      if !ok {
        return;
      }
      var count := if playerCount != "" then CountOf(ParseInt(playerCount)) else NoCount;
      created := created + [CreateCall(Trim(title), format.value, leaderId.value, date, count)];
      completions := completions + 1;
    }

    /** Typing in the title clears the title error only. */
    method EditTitle(value: string)
      modifies this`title, this`errors
      ensures title == value && errors == Cleared(old(errors), TitleField)
    {
      title := value;
      if Shown(errors, TitleField) {
        errors := errors[TitleField := ""];
      }
    }

    /** Picking a format clears the format error only. */
    method EditFormat(f: Format)
      modifies this`format, this`errors
      ensures format == Some(f) && errors == Cleared(old(errors), FormatField)
    {
      format := Some(f);
      if Shown(errors, FormatField) {
        errors := errors[FormatField := ""];
      }
    }

    /** Picking a leader (the empty id reads as none) clears the leader error only. */
    method SelectLeader(id: string)
      modifies this`leaderId, this`errors
      ensures leaderId == (if id == "" then None else Some(id))
      ensures errors == Cleared(old(errors), LeaderField)
    {
      leaderId := if id == "" then None else Some(id);
      if Shown(errors, LeaderField) {
        errors := errors[LeaderField := ""];
      }
    }

    /** The date and the player count are set without touching the errors. */
    method EditDate(value: string)
      modifies this`date
      ensures date == value
    {
      date := value;
    }

    method EditPlayerCount(value: string)
      modifies this`playerCount
      ensures playerCount == value
    {
      playerCount := value;
    }
  }
}
