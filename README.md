# RiftRecord tournament session — a Dafny model

RiftRecord lets a Riftbound TCG player record one tournament at a time:
- Set the tournament up: title, format, the player's leader, date and player count.
- Enter each round: the opponent's leader and a best-of-three result.
- See the rounds listed in swiss and top-cut sections, with a two-click delete.
- Watch the win/loss statistics.
- Reset the session.

The session lives in a React reducer and is mirrored to the browser's local storage.

This project models that core in Dafny and proves what it promises.

| module | what it models |
|---|---|
| `Types` | Tournament formats, the four match results and their table, the round and tournament records. |
| `Utils` | `isWin`, `calculateTournamentStats` (win rate in whole tenths of a percent) and the storage slot under `riftrecord_tournament`, as a class whose `slot` field the save, load and clear methods change. |
| `TournamentContext` | The reducer as a pure function `Reduce` of state, action, clock reading and fresh id. Per-type round numbering. The renumbering loop of `DELETE_ROUND` as a method. The provider as a `Session` class whose `Dispatch` runs the save effect after every action. |
| `Leaders` | The domain table, the 24-leader catalog and its lookups: by id, by normalised name, colours, domain names, search. |
| `BO3Result` | `parseResult`, whose two loops build the game sequence, the display's win test and the empty third slot. |
| `FormErrors` | The "clear this field's error" edit both forms use. |
| `TournamentSetup` | The setup form as a class: validation, submission to `createTournament` (logged as calls), per-field error clearing. |
| `RoundEntry` | The round form as a class: validation, submission to `addRound`, cancel, the dirty flag and the enabled test of the submit button. |
| `RoundsList` | The list's empty state and sections, and the two-click delete with its three-second disarm timer. |
| `Pages` | The dashboard and home page controllers, which share the same logic: the derived view, `setView` and the two-click reset. |

Where the model follows the code rather than the intent:

- **Round notes are passed as the round type.** `RoundEntry.handleSubmit` calls `addRound(opponent, result, notes)`, but `addRound`'s third parameter is `roundType`.
  - The model dispatches what that call dispatches: the notes text becomes the round's type, and the round's `notes` stays undefined.
  - A round entered without notes gets no type at all.
  - `EntryNotesBecomeRoundType` states this.
  - `RoundsList.UntypedRoundsAreHidden` shows that such rounds appear in neither list section.
- **The round's type field.** The round record in `src/types/index.ts` declares no `roundType`, although the context and the list read and write one. The model's `Round` carries it, typed `Swiss | Topcut | Unset | Other(text)`.
- **Delete numbers only two groups.** `DELETE_ROUND` renumbers the swiss rounds as one group and every other round as a second group.
  - When all non-swiss rounds share one type, numbering stays dense (`DeleteMakesDense`). That type is top-cut, or the unset type that every round entered without notes gets.
  - Two different non-swiss types share one run of numbers (`DeleteLumpsOtherTypes`).
- **The delete timer is not tied to a round.** The timer a first delete click starts clears whichever round is armed when it fires, even one armed by a later click (`DeleteConfirm.TimerFires`).
- **The save effect timing.** The save effect is modelled as running right after each dispatch. React runs it after the render that follows.

## Model

| member | source | states |
|---|---|---|
| Utils.IsWin | src/lib/utils.ts:65-67 | Definition: a result text is a win exactly when it is "2-0" or "2-1". Its partner is the result table (`TableAgreesWithIsWin`). |
| Utils.CountsAsWin | src/lib/utils.ts:33-36 | The per-round test the statistics filter with (the table entry for the result says win) holds exactly when `isWin` holds of the round's result. |
| Utils.TableAgreesWithIsWin | src/lib/utils.ts:65-67 | The `MATCH_RESULTS` table marks a result text as a win exactly when `isWin` holds of it ("2-0" or "2-1"). |
| Utils.CalculateTournamentStats | src/lib/utils.ts:32-47 | Wins plus losses is the number of rounds. The win rate lies between 0 and 100.0%, is 0 for no rounds, and is wins/rounds rounded to the nearest tenth of a percent. |
| Utils.WinRateTenths | src/lib/utils.ts:39-45 | `Math.round(wins/n*1000)/10` in tenths: the nearest tenth with halves rounded up, 0 for no rounds, exactly 1000 when every round is won, 0 when none is. |
| Utils.WinsAreIsWinResults | src/lib/utils.ts:32-47 | The win count is the number of rounds whose result satisfies `isWin`, and the loss count is the number of all other rounds. |
| Utils.AllWinsIsHundredPercent | src/lib/utils.ts:39-45 | A non-empty list of won rounds has no losses and a 100% win rate. |
| Utils.StatsIgnoreOrder | src/lib/utils.ts:32-47 | The statistics depend only on the multiset of rounds, not on their order. |
| Utils.RecordReadsBack | src/lib/utils.ts:44 | The record "W-L" splits at '-' into two digit strings that read back as the win and the loss counts. |
| Utils.StatsExamples | src/lib/utils.ts:32-47 | Two wins and a loss give "2-1" at 66.7%; no rounds give "0-0" at 0. |
| Utils.Decode | src/lib/utils.ts:78-90 | The stored text reads as a tournament exactly when it is an encoded tournament, and then as that tournament. Absent, empty or unparsable text reads as null. |
| Utils.TournamentStorage.Save | src/lib/utils.ts:72-76 | In a browser the slot holds the encoded tournament afterwards; outside one nothing changes. |
| Utils.TournamentStorage.Load | src/lib/utils.ts:78-90 | A tournament is returned only in a browser and only the one encoded in the slot. An encoded slot in a browser is always returned. |
| Utils.TournamentStorage.Clear | src/lib/utils.ts:92-96 | In a browser the slot is empty afterwards; outside one nothing changes. |
| Utils.SaveThenLoad | src/lib/utils.ts:72-90 | Saving and then loading in a browser gives back the saved tournament. |
| Utils.ClearThenLoad | src/lib/utils.ts:78-96 | Clearing and then loading in a browser gives null. |
| TournamentContext.NextRoundNumber | src/context/TournamentContext.tsx:52-55 | The next number of a type lies between 1 and one more than the number of rounds. |
| TournamentContext.Renumbered | src/context/TournamentContext.tsx:147-158 | The delete renumbering keeps the list's length and order, and changes only the round numbers. |
| TournamentContext.RenumberRounds | src/context/TournamentContext.tsx:147-158 | The loop with its two counters computes exactly `Renumbered` of its input. |
| TournamentContext.RenumberedGroups | src/context/TournamentContext.tsx:147-158 | After renumbering, the swiss rounds, and separately all other rounds, carry 1, 2, …, N in list order. |
| TournamentContext.RenumberedGroupsInOrder | src/context/TournamentContext.tsx:147-158 | Each of the two groups is numbered 1..N in order after renumbering. |
| TournamentContext.OneOtherTypeGroups | src/context/TournamentContext.tsx:52-55 | When every non-swiss round has one type, the swiss rounds are the delete renumbering's swiss group, the rounds of that type are its other group, and no further type has rounds. |
| TournamentContext.AppendKeepsDense | src/context/TournamentContext.tsx:97-117 | Appending a round numbered by `getNextRoundNumber` keeps every type numbered 1..N. |
| TournamentContext.Reduce | src/context/TournamentContext.tsx:58-185 | The reducer. Only `LOAD_TOURNAMENT` (to false) and `SET_LOADING` change the loading flag. A tournament is present afterwards exactly when a load brought one, a create ran, or one was present and the action was neither a load nor a reset. The per-action lemmas below state the rest. |
| TournamentContext.LoadInstallsPayload | src/context/TournamentContext.tsx:60-65 | `LOAD_TOURNAMENT` installs its payload, possibly null, and ends loading. |
| TournamentContext.CreateStartsEmpty | src/context/TournamentContext.tsx:67-84 | `CREATE_TOURNAMENT` installs a tournament with the fresh id, no rounds, both stamps now, and the given fields. Its date is the given date unless that is absent or empty, else now. |
| TournamentContext.EditsNeedTournament | src/context/TournamentContext.tsx:86-168 | Without a tournament, update, add, update-round and delete leave the state unchanged. |
| TournamentContext.ResetAndSetLoading | src/context/TournamentContext.tsx:170-180 | `RESET_TOURNAMENT` drops the tournament and keeps the loading flag. `SET_LOADING` sets the flag and keeps the tournament. |
| TournamentContext.UpdateTournamentStampsNow | src/context/TournamentContext.tsx:86-95 | Each of the patch's fields (`id`, `title`, `format`, `playerLeaderId`, `rounds`, `date`, `playerCount`, `createdAt`) overrides, absent ones keep their values, and `updatedAt` is now even when the patch carries its own. An empty patch changes only the stamp. |
| TournamentContext.AddRoundAppends | src/context/TournamentContext.tsx:97-117 | Exactly one round is appended after the unchanged old ones. It has the fresh id, the given fields, and number one past the rounds of its type. Only `rounds` and the stamp change. |
| TournamentContext.MergeRoundLaws | src/context/TournamentContext.tsx:127 | The round merge with an empty patch is the identity, and merging a patch twice is merging it once. |
| TournamentContext.UpdateRoundMerges | src/context/TournamentContext.tsx:119-133 | Rounds with the id get the patch merged in, all others are unchanged, and length and order are kept. Without a number in the patch no number changes. |
| TournamentContext.UpdateRoundKeepsDense | src/context/TournamentContext.tsx:119-133 | A patch carrying neither number nor type keeps every type numbered 1..N, and keeps every non-swiss round of the one type it had. |
| TournamentContext.UpdateRoundCanBreakDense | src/context/TournamentContext.tsx:119-133 | Since update does not renumber, a patch carrying a number can break dense numbering. |
| TournamentContext.DeleteMissingIsNoOp | src/context/TournamentContext.tsx:135-140 | Deleting an id no round has returns the state unchanged, without a new stamp. |
| TournamentContext.DeleteRoundResult | src/context/TournamentContext.tsx:135-168 | Deleting a present id installs the renumbered survivors and stamps now, keeping the loading flag. |
| TournamentContext.DeleteShape | src/context/TournamentContext.tsx:142-158 | The survivors are strictly fewer, none has the id, each is the old round with only its number changed, and both groups are numbered 1..N. |
| TournamentContext.DeleteRoundRemoves | src/context/TournamentContext.tsx:135-168 | The whole `DELETE_ROUND` step for a present id: survivors in order without the id, renumbered per group, and nothing but `rounds` and the stamp changed. |
| TournamentContext.DeleteLeavesOtherGroup | src/context/TournamentContext.tsx:147-158 | Deleting a round of one group leaves an already numbered other group exactly as it was. |
| TournamentContext.DeleteMakesDense | src/context/TournamentContext.tsx:147-158 | When every non-swiss round has one type (top-cut, unset, or any other single type), the list after a delete still has only swiss rounds and that type, and every type is numbered 1..N. |
| TournamentContext.DeleteLumpsOtherTypes | src/context/TournamentContext.tsx:148-157 | A list with top-cut 1, a third-type round 1 and top-cut 2 is dense. Deleting the first leaves top-cut numbered 2, not 1. |
| TournamentContext.ReduceKeepsNumbering | src/context/TournamentContext.tsx:58-185 | Fix one non-swiss type. A session whose non-swiss rounds all have that type, with every type numbered 1..N, stays so under: a load of such a session, an add of a swiss round or a round of that type, any delete, a tournament update without rounds, a round update touching neither number nor type, create, reset and `SET_LOADING`. |
| TournamentContext.RunKeepsNumbering | src/context/TournamentContext.tsx:58-185 | Any sequence of such dispatches, for the same fixed type, keeps the session well numbered. |
| TournamentContext.Session.constructor | src/context/TournamentContext.tsx:46-49 | The provider starts with no tournament and loading, mirrored to the storage it is given. |
| TournamentContext.Session.Dispatch | src/context/TournamentContext.tsx:217-222 | The new state is the reducer's result. Storage is written exactly when a tournament is present and loading is over, and the session stays mirrored. |
| TournamentContext.Session.Mount | src/context/TournamentContext.tsx:211-215 | After mount loading is over, a loaded tournament is the one encoded in storage, an encoded slot in a browser is always loaded, and storage is unchanged. |
| TournamentContext.Session.ResetTournament | src/context/TournamentContext.tsx:254-259 | The tournament is dropped, the loading flag kept, and in a browser the saved entry removed. |
| TournamentContext.ResetThenRemount | src/context/TournamentContext.tsx:254-259 | After a reset, a fresh mount in the same browser restores nothing and ends loading. |
| TournamentContext.DispatchThenRemount | src/context/TournamentContext.tsx:211-222 | When a dispatch leaves a loaded tournament, a fresh mount in the same browser restores exactly that tournament. |
| TournamentContext.Remount | src/context/TournamentContext.tsx:211-222 | A fresh mount over the storage of a session mirrored to it (the invariant every `Session` method keeps) restores the session's tournament whenever that is loaded, and ends loading. |
| Leaders.DomainsAreKeyed | src/data/leaders.ts:27-34 | Every domain code has an entry filed under its own code, and names and colours differ between codes. |
| Leaders.CatalogIsKeyed | src/data/leaders.ts:37-208 | The catalog holds 24 leaders with pairwise distinct ids, each leader's name equal to its id. |
| Leaders.GetLeaderById | src/data/leaders.ts:211-213 | A leader is found exactly when the catalog has that id, and the one found has that id and is in the catalog. |
| Leaders.GetLeaderByIdFindsEach | src/data/leaders.ts:211-213 | Looking up a catalog leader's id returns that very leader. |
| Leaders.NormalizeName | src/data/leaders.ts:216 | The normalised name has no apostrophe, white space, hyphen or upper-case letter, and is no longer than the input. |
| Leaders.NormalizeNameAppend | src/data/leaders.ts:216 | Normalising works character by character: the normalised concatenation is the concatenation of the normalised parts. |
| Leaders.NormalizeNameChar | src/data/leaders.ts:216 | An apostrophe, white-space character or hyphen normalises to nothing, and any other character to its lower-case form. |
| Leaders.NormalizeNameIsIdempotent | src/data/leaders.ts:216 | Normalising twice is normalising once. |
| Leaders.GetLeaderByName | src/data/leaders.ts:215-218 | A leader is found exactly when some catalog leader's name or id is the normalised name, and the one found is such a leader. |
| Leaders.GetLeaderByNameFindsEach | src/data/leaders.ts:215-218 | Any name that normalises to a catalog id finds that very leader. |
| Leaders.NameLookupExamples | src/data/leaders.ts:215-218 | "Kai'Sa" finds kaisa and "Lee Sin" finds leesin. |
| Leaders.GetLeaderColors | src/data/leaders.ts:220-222 | The two colours differ exactly when the leader's two domains differ. |
| Leaders.GetLeaderDomainNames | src/data/leaders.ts:229-231 | The two domain names differ exactly when the leader's two domains differ. |
| Leaders.ColorsAndNamesDetermineDomains | src/data/leaders.ts:220-231 | Two leaders have the same colour pair exactly when they have the same domain pair, and the same domain-name pair exactly when they have the same domain pair. |
| Leaders.SearchLeaders | src/data/leaders.ts:234-241 | Every result is a catalog leader that matches the lower-cased query, every matching catalog leader is returned, and the results come from strictly increasing catalog positions: catalog order, with no leader twice. |
| Leaders.SearchEmptyIsCatalog | src/data/leaders.ts:234-241 | The empty query returns the whole catalog in catalog order. |
| Leaders.SearchIgnoresCase | src/data/leaders.ts:235 | Lower-casing the query first changes nothing. |
| BO3Result.ScoreIsBestOfThree | src/types/index.ts:29 | Every result is a finished best of three: one side has two games and the other fewer. |
| BO3Result.ScoreReadsBack | src/components/BO3Result.tsx:13 | Splitting a result at '-' and reading each side as a number gives the player's and the opponent's game counts. |
| BO3Result.Games | src/components/BO3Result.tsx:14-18 | The game sequence has player+opponent entries: wins first, then losses. |
| BO3Result.ParseResult | src/components/BO3Result.tsx:12-21 | The parsed counts print back as the result text and are its score, and the two loops build exactly the wins-then-losses sequence. |
| BO3Result.ShownWinAgreesWithIsWin | src/components/BO3Result.tsx:25 | The display's `player > opponent` test is a win exactly when `isWin` holds, which is exactly when the result table says win. The badge at line 69 uses the same test. |
| BO3Result.EmptySlotCompletesThree | src/components/BO3Result.tsx:54-61 | Two games are drawn exactly for 2-0 and 0-2, and with the empty slot every result shows three dots. |
| FormErrors.Cleared | src/components/TournamentSetup.tsx:74 | The edited field's error is hidden afterwards, the same keys are kept, and every other error is unchanged. |
| TournamentSetup.SetupErrors | src/components/TournamentSetup.tsx:24-41 | "Required" is set exactly on a blank trimmed title, a missing format and a missing leader. The record is empty exactly when all three are present. |
| TournamentSetup.CountArgument | src/components/TournamentSetup.tsx:48 | No count is passed exactly when the player count text is empty. |
| TournamentSetup.CountArgumentOfNumber | src/components/TournamentSetup.tsx:48 | A count typed as a decimal number reaches `createTournament` as that number. |
| TournamentSetup.SetupForm.constructor | src/components/TournamentSetup.tsx:17-22 | The form starts empty, dated today, with no errors and no calls made. |
| TournamentSetup.SetupForm.Validate | src/components/TournamentSetup.tsx:24-41 | The error record is rebuilt from the fields, and the form is valid exactly when it is empty. |
| TournamentSetup.SetupForm.HandleSubmit | src/components/TournamentSetup.tsx:43-51 | An invalid form only shows its errors. A valid one makes one `createTournament` call with the trimmed title, format, leader, date and parsed count, then one `onComplete`. |
| TournamentSetup.SetupForm.EditTitle | src/components/TournamentSetup.tsx:72-75 | The title is set and only the title error is cleared. |
| TournamentSetup.SetupForm.EditFormat | src/components/TournamentSetup.tsx:124-127 | The format is set and only the format error is cleared. |
| TournamentSetup.SetupForm.SelectLeader | src/components/TournamentSetup.tsx:139-142 | The leader is set, the empty id reading as none, and only the leader error is cleared. |
| TournamentSetup.SetupForm.EditDate | src/components/TournamentSetup.tsx:92 | The date is set and the errors are untouched. |
| TournamentSetup.SetupForm.EditPlayerCount | src/components/TournamentSetup.tsx:112 | The player count text is set and the errors are untouched. |
| RoundEntry.EntryErrors | src/components/RoundEntry.tsx:24-37 | A message is set exactly on a missing opponent and a missing result. The record is empty exactly when both are present. |
| RoundEntry.NotesArgument | src/components/RoundEntry.tsx:42 | `notes.trim() \|\| undefined` is undefined exactly for blank notes, and otherwise is the trimmed notes: text with no space at either end. |
| RoundEntry.RoundTypeOf | src/context/TournamentContext.tsx:232-243 | The `roundType` parameter is a known type exactly when it receives "swiss" or "topcut", unset exactly when it receives undefined, and otherwise the text itself, which is then neither "swiss" nor "topcut". |
| RoundEntry.EntryNotesBecomeRoundType | src/components/RoundEntry.tsx:42 | A round added from the form has no notes and the notes text as its type. Without notes it has no type and is numbered among untyped rounds, and it is never swiss unless the notes read "swiss". |
| RoundEntry.EntryKeepsNumbering | src/components/RoundEntry.tsx:42 | The form's default path: in a session whose non-swiss rounds are all unset and every type is numbered 1..N, adding a round with blank notes (or the notes "swiss") keeps it so. |
| RoundEntry.EntryForm.constructor | src/components/RoundEntry.tsx:18-22 | The form starts blank with no calls made. |
| RoundEntry.EntryForm.EnabledIffValid | src/components/RoundEntry.tsx:147 | The submit button is enabled exactly when validation would pass, and a blank form is neither dirty nor submittable. |
| RoundEntry.EntryForm.Validate | src/components/RoundEntry.tsx:24-37 | The error record is rebuilt from the fields, and the form is valid exactly when it is empty. |
| RoundEntry.EntryForm.Reset | src/components/RoundEntry.tsx:44-49 | Every field is reset and the errors are cleared. |
| RoundEntry.EntryForm.HandleSubmit | src/components/RoundEntry.tsx:39-51 | An invalid form only shows its errors. A valid one makes one `addRound` call with opponent, result and trimmed notes, resets, and calls `onComplete` when there is one. |
| RoundEntry.EntryForm.HandleCancel | src/components/RoundEntry.tsx:53-59 | The form is blank afterwards. |
| RoundEntry.EntryForm.SelectOpponent | src/components/RoundEntry.tsx:85-88 | The opponent is set, the empty id reading as none, and only the opponent error is cleared. |
| RoundEntry.EntryForm.SelectResult | src/components/RoundEntry.tsx:101-104 | The result is set and only the result error is cleared. |
| RoundEntry.EntryForm.OpenNotes | src/components/RoundEntry.tsx:117 | The notes box is open afterwards. |
| RoundEntry.EntryForm.EditNotes | src/components/RoundEntry.tsx:130 | The notes text is set. |
| RoundsList.Render | src/components/RoundsList.tsx:20-43 | The empty state is shown exactly for an empty list. |
| RoundsList.SectionsCount | src/components/RoundsList.tsx:20-21 | Swiss rounds, top-cut rounds and unlisted rounds together number all rounds. |
| RoundsList.SectionsPartition | src/components/RoundsList.tsx:20-21 | The two sections show every round exactly when every round is swiss or top-cut. |
| RoundsList.UntypedRoundsAreHidden | src/components/RoundsList.tsx:20-21 | A non-empty list of rounds with no known type skips the empty state but fills neither section. |
| RoundsList.DeleteConfirm.constructor | src/components/RoundsList.tsx:17 | Nothing is armed and nothing deleted. |
| RoundsList.DeleteConfirm.HandleDeleteClick | src/components/RoundsList.tsx:23-31 | A click on the armed round deletes it once and disarms. Any other click arms that round and deletes nothing. |
| RoundsList.DeleteConfirm.TimerFires | src/components/RoundsList.tsx:29 | When the timer fires, whatever is armed is disarmed. |
| RoundsList.ClickTwice | src/components/RoundsList.tsx:23-31 | Two clicks on an unarmed round delete it exactly once. |
| RoundsList.ClickTimeoutClick | src/components/RoundsList.tsx:23-31 | A timeout between the two clicks cancels the delete: the second click only arms again. |
| Pages.DeriveView | src/app/dashboard/page.tsx:19-23 | A manual choice wins. Otherwise the tracker shows exactly when loading is over and a tournament exists, and results never shows. The home page, src/app/page.tsx:17-21, derives its view the same way. |
| Pages.PageScreen | src/app/dashboard/page.tsx:40-48 | The loading screen shows exactly while loading, and otherwise the derived view shows. The home page, src/app/page.tsx:38-44, follows the same rule. |
| Pages.MountShowsSavedSession | src/app/dashboard/page.tsx:19-23 | Without a manual choice, loading a saved tournament shows the tracker and loading none shows setup. |
| Pages.CreateShowsTracker | src/app/dashboard/page.tsx:19-23 | Without a manual choice, creating a tournament after loading shows the tracker. |
| Pages.ResetShowsSetup | src/app/dashboard/page.tsx:19-23 | Without a manual choice, the view after a reset is setup. |
| Pages.PageController.constructor | src/app/dashboard/page.tsx:16-17 | No manual view and the reset button unarmed. |
| Pages.PageController.SetView | src/app/dashboard/page.tsx:25-27 | The chosen view becomes the manual choice and is the view shown. The home page's `setView`, src/app/page.tsx:23-25, is the same. |
| Pages.PageController.HandleReset | src/app/dashboard/page.tsx:29-38 | A click on the armed button resets the session, clears the saved entry, drops the manual view, disarms and shows setup. A first click only arms and changes nothing else. The home page's `handleReset`, src/app/page.tsx:27-36, is the same. |
| Pages.PageController.TimerFires | src/app/dashboard/page.tsx:36 | The timer disarms the reset button. |
| Pages.ResetTwice | src/app/dashboard/page.tsx:29-38 | Two clicks on reset, from any view, leave no tournament and nothing saved, and show setup. |

## Left out

- Rendering, styling, icons and animation of every component: the model keeps the decisions they show (which view, which section, how many dots), not the markup.
- `getLeaderGradient` (src/data/leaders.ts:224-227) only formats a CSS string from `getLeaderColors`. Formatting is left out.
- Leader image URLs are kept as data, but no property is stated about them. Display names enter only through the search (`SearchLeaders`, `SearchIgnoresCase`).
- `generateMatchupGradient` and `generateLeaderGradient` (src/lib/utils.ts:11-29) only format CSS strings from leader colours. Formatting is left out.
- Timers: each `setTimeout(…, 3000)` is an explicit `TimerFires` method the environment may call at any time. Time itself is not modelled.
- The clock (`new Date().toISOString()`) and `generateId` are parameters `now` and `freshId` of the reducer. Their values, uniqueness and format are not modelled.
- JSON encoding and `localStorage` are an abstract slot holding an encoded tournament, malformed text or the empty string. The round trip through `JSON.stringify`/`JSON.parse` is taken as exact.
- Text is ASCII only: `toLowerCase`, `trim` and the `\s` class cover ASCII letters and white space.
- `parseInt` returning NaN is modelled as `None`. Floating point is not modelled.
- Utils.CalculateTournamentStats: the win rate is in whole tenths of a percent rather than a JavaScript number.
- TournamentContext.ReduceKeepsNumbering: the numbering invariant is proved only for sessions whose non-swiss rounds all share one type. A delete in a session with two different non-swiss types breaks it (`DeleteLumpsOtherTypes`). Rounds entered with differing non-blank notes produce such sessions.
- TournamentContext.RunKeepsNumbering: same restriction as `ReduceKeepsNumbering`.
- Patch keys that are present but explicitly `undefined` are not distinguished from absent keys.
- `calculateFullTournamentStats` is left out. It is imported from src/lib/utils.ts by src/components/TournamentResults.tsx:7 and src/components/RoundsList.tsx:7, but src/lib/utils.ts does not define it, so its behaviour is not known.
- `TOPCUT_LEVEL_OPTIONS` and the top-cut level and dice fields are carried as opaque optional text, with no property stated.
- The API routes, middleware, authentication and the login page are left out. They are not part of the session core.
- The signed-in user's display in the dashboard header is left out. It is presentation only.
- Date formatting and the date selector, the leader selector's UI and the format picker's UI are left out. Only the values they hand to the forms are modelled.
- React's batching of `setState` calls and the asynchronous timing of effects are left out. Each handler's updates are applied at once, and the save effect runs right after each dispatch.
- Other browser tabs sharing the same storage entry are not modelled: each session is alone with its storage.
