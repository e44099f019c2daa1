# Meditation app core in Dafny

A model of the logic under a guided-meditation web app: the player that
steps through a session's instructions on a one-shot timer, the service
queries over the stored sessions and instructions, the field rules of the
data schemas, and the library page's catalog filter.

- `wrappers.dfy` — `Option`.
- `sequences.dfy` — an order-preserving `Filter` (the list comprehension
  and the SQL `where`), the subsequence relation and their lemmas.
- `models.dfy` — the enums, the rows, the Create/Update schemas and their
  field rules as validity predicates.
- `store.dfy` — `MeditationService`: the queries as functions over the
  stored rows, and `SessionStore`, the in-memory store whose methods
  create sessions, add instructions and seed the sample data.
- `library.dfy` — `MeditationLibrary`: the filter as a function and the
  `Library` class whose setters update the selections and re-filter.
- `player.dfy` — `MeditationPlayer`: the elapsed-time, `MM:SS` and
  `Step k of n` values and the `Player` class, a state machine over
  `currentStep`, `isPlaying`, `isPaused` and `timer`.

The player's timer is the duration it was armed with (`Some(seconds)`) or
no pending timer (`None`). Its firing is the method `Tick`, which needs a
pending timer and consumes it. `Player.Valid()` is the invariant every
user control keeps: the step lies in `0 .. |steps|`, a pending timer is the
current step's, no timer is pending while not playing, and no pending
timer was ever overwritten (the ghost counter `orphanedTimers`).
Without instructions no timer is ever armed, so `Tick` cannot fire there;
every user control is then a no-op that leaves the step at 0.

Two behaviours of the player are worth knowing:

- Completion is not terminal. Pressing play after completion sets
  `isPlaying` while `currentStep == |steps|` and arms no timer
  (app/meditation_player.py:113-121). The player stays there until
  Restart or Previous.
- Manual Next stops at the last step (`current_step < len - 1`,
  app/meditation_player.py:170). Only a timer firing moves past it and
  completes the session.

`isPaused` is written by start, pause and restart and read by no branch:
every `ensures` of the player shows the other fields independent of it.

## Model

| member | source | states |
|---|---|---|
| Sequences.Filter | app/meditation_library.py:169-174 | the result keeps exactly the elements satisfying the predicate, in their original order (a subsequence) |
| Sequences.FilterMultiplicity | app/meditation_service.py:37-42 | filtering keeps every copy of a kept element and drops every copy of the others |
| Sequences.FilterConjunction | app/meditation_library.py:168-174 | filtering by one condition and then another is filtering by their conjunction |
| Sequences.FilterIdempotent | app/meditation_library.py:164-174 | filtering twice by the same condition changes nothing |
| Sequences.FilterAppend | app/meditation_service.py:37-42 | filtering distributes over concatenation of the stored rows |
| Sequences.FilterAll | app/meditation_library.py:166 | a filter that rejects nothing returns the list itself |
| Sequences.FilterNone | app/meditation_service.py:39 | a filter that accepts nothing returns the empty list |
| Sequences.FilterExtensional | app/meditation_library.py:168-174 | two conditions that agree on every element filter identically |
| Sequences.SubsequenceTransitive | app/meditation_library.py:169-174 | a subsequence of a subsequence is a subsequence |
| Sequences.SubsequenceReflexive | app/meditation_library.py:166 | a list is a subsequence of itself |
| Models.ParseDifficulty | app/models.py:7-10 | a parsed level has exactly the given string as its value |
| Models.ParseMeditationType | app/models.py:13-20 | a parsed type has exactly the given string as its value |
| Models.DifficultyLevelsEnumerated | app/models.py:7-10 | there are exactly three difficulty levels, with pairwise distinct values |
| Models.MeditationTypesEnumerated | app/models.py:13-20 | there are exactly seven meditation types, with pairwise distinct values |
| Models.EnumValuesRoundTrip | app/models.py:7-20 | every level and type is found again from its value |
| Models.HexRunShape | app/models.py:80 | the hex-digit run matcher accepts exactly n hex digits |
| Models.ColorCodeShape | app/models.py:80 | a colour code passes the length bound and the pattern together iff it is `#` followed by six hex digits |
| Models.UpdateBoundsMatchCreate | app/models.py:104-149 | an all-absent update is valid, and an update carrying a Create schema's values is valid iff that schema is |
| MeditationService.GetActiveSessions | app/meditation_service.py:19-23 | exactly the stored sessions that are active, each as often as stored, in stored order |
| MeditationService.GetSessionsByType | app/meditation_service.py:48-54 | exactly the active sessions of the given type, each as often as stored, in stored order |
| MeditationService.GetSessionsByDifficulty | app/meditation_service.py:57-63 | exactly the active sessions of the given difficulty, each as often as stored, in stored order |
| MeditationService.DefaultSessionListed | app/models.py:99 | a session created without a difficulty is BEGINNER and active, so the beginner, type and active listings include it |
| MeditationService.FindSession | app/meditation_service.py:32-34 | a found session is stored and has the id; nothing is found iff no stored session has the id |
| MeditationService.InsertByStepOrder | app/meditation_service.py:40 | inserting into a step-ordered list keeps it ordered and adds exactly that instruction |
| MeditationService.SortByStepOrder | app/meditation_service.py:40 | the result is ordered non-decreasingly by step order and is a permutation of the input |
| MeditationService.InstructionsOf | app/meditation_service.py:37-42 | exactly the stored instructions of the session, with their multiplicities, ordered by step order |
| MeditationService.GetSessionById | app/meditation_service.py:26-45 | no id gives nothing; a session is returned iff one with the id is stored (active or not), carrying exactly its instructions in step order: each of the session's rows as often as it is stored, no other row |
| MeditationService.LoadedInstructionsValid | app/meditation_service.py:37-45 | a fetched session's instructions are stored rows, so they keep the instruction field rules |
| MeditationService.SortedPermutationsEqual | app/meditation_service.py:40 | two step-ordered permutations of rows with distinct step orders are equal |
| MeditationService.InstructionsOrderIndependent | app/meditation_service.py:37-42 | when a session's step orders are distinct, the fetched list does not depend on insertion order |
| MeditationService.Numbered | app/meditation_service.py:146-155 | the seeded rows of a list belong to the session and are numbered 1..n in list order |
| MeditationService.NumberedInStepOrder | app/meditation_service.py:146-155 | the seeded rows are already in step order, with distinct step orders |
| MeditationService.SeededInstructionsFetchInOrder | app/meditation_service.py:37-43 | after seeding a new session, fetching its instructions gives back exactly the seeded rows in list order |
| MeditationService.SessionStore.constructor | app/meditation_service.py:66-79 | an empty store whose first ids are 1 |
| MeditationService.SessionStore.CreateSession | app/meditation_service.py:66-79 | the new session copies every field, is active, gets an id no stored session has, is appended, and nothing else changes |
| MeditationService.SessionStore.AddInstruction | app/meditation_service.py:82-95 | the new instruction copies every field (an absent or zero duration included), gets a fresh id, is appended, and the sessions do not change |
| MeditationService.SessionStore.SeedInstructions | app/meditation_service.py:146-155 | appends the steps numbered 1..n in order to the session and changes nothing else |
| MeditationService.SessionStore.SeedSession | app/meditation_service.py:108-155 | one sample block: the session is created from the schema, then its steps are appended numbered 1..n; nothing else changes |
| MeditationService.SessionStore.SeedSessions | app/meditation_service.py:105-246 | three sample blocks in turn: three sessions with consecutive fresh ids, each followed by its own steps numbered 1..n, and both counters advanced by what was added |
| MeditationService.SessionStore.CreateSampleData | app/meditation_service.py:105-246 | appends the breathing, mindfulness and body-scan sessions with consecutive fresh ids, each followed by its own steps numbered 1..n in list order; the session counter advances by 3 and the instruction counter by the number of steps |
| MeditationService.NumberedTimed | app/meditation_service.py:146-155 | a seeded instruction takes its step's duration, so positive step durations give positive instruction durations |
| MeditationService.SampleSessionsValid | app/meditation_service.py:105-213 | the three sample sessions satisfy the session schema |
| MeditationService.BreathingStepsValid | app/meditation_service.py:122-144 | every breathing step text fits the 2000-character limit and its duration is non-negative |
| MeditationService.BreathingStepsTimed | app/meditation_service.py:122-144 | every breathing step has a positive duration, so each seeded step arms a timer |
| MeditationService.MindfulnessStepsValid | app/meditation_service.py:172-187 | every mindfulness step text fits the 2000-character limit and its duration is non-negative |
| MeditationService.MindfulnessStepsTimed | app/meditation_service.py:172-187 | every mindfulness step has a positive duration, so each seeded step arms a timer |
| MeditationService.BodyScanStepsValid | app/meditation_service.py:215-235 | every body-scan step text fits the 2000-character limit and its duration is non-negative |
| MeditationService.BodyScanStepsTimed | app/meditation_service.py:215-235 | every body-scan step has a positive duration, so each seeded step arms a timer |
| MeditationLibrary.Filtered | app/meditation_library.py:164-174 | the filtered list is a subsequence of the sessions and keeps exactly those matching every selection made |
| MeditationLibrary.FilteredIsConjunction | app/meditation_library.py:164-174 | the two successive comprehensions equal one filter by the conjunction of the selections |
| MeditationLibrary.FilteredIdempotent | app/meditation_library.py:164-176 | re-applying the filters with unchanged selections gives the same list |
| MeditationLibrary.Library.constructor | app/meditation_library.py:12-16 | no sessions and no selection |
| MeditationLibrary.Library.LoadSessions | app/meditation_library.py:136-142 | both lists become the loaded sessions; the selections stay; the shown list matches the selections when none is made |
| MeditationLibrary.Library.ApplyFilters | app/meditation_library.py:164-176 | only the filtered list changes, to the filter of the sessions by the current selections |
| MeditationLibrary.Library.FilterByType | app/meditation_library.py:148-151 | sets the type, keeps the difficulty and the sessions, and re-filters |
| MeditationLibrary.Library.FilterByDifficulty | app/meditation_library.py:153-156 | sets the difficulty, keeps the type and the sessions, and re-filters |
| MeditationLibrary.Library.ClearFilters | app/meditation_library.py:158-162 | both selections cleared and the filtered list equals the sessions |
| MeditationPlayer.TotalSecondsAppend | app/meditation_player.py:249 | the duration sum of a concatenation is the sum of the parts' sums |
| MeditationPlayer.ElapsedAdvance | app/meditation_player.py:249 | elapsed time is 0 at the first step and grows by exactly the left step's duration (absent as 0) on each step |
| MeditationPlayer.DefaultInstructionIsManual | app/models.py:122-123 | an instruction added without a duration arms no timer, adds 0 to the elapsed time and is not a pause, so only Next leaves it |
| MeditationPlayer.UntimedStepsShowNoTime | app/meditation_player.py:195-196 | when no step has a positive duration, the elapsed time shown is 0 at every step |
| MeditationPlayer.ElapsedMonotone | app/meditation_player.py:249 | with valid durations elapsed time is non-negative and never decreases with the step |
| MeditationPlayer.Decimal | app/meditation_player.py:240 | a non-empty run of digits with no leading zero (except for 0 itself); one digit iff below 10 |
| MeditationPlayer.DecimalRoundTrip | app/meditation_player.py:240 | the decimal text of n reads back as n |
| MeditationPlayer.LeadingZero | app/meditation_player.py:252 | a leading zero does not change a digit string's value |
| MeditationPlayer.TwoDigits | app/meditation_player.py:252 | zero-padded to at least two digits, exactly two below 100, no leading zero from 10 on, reading back as the number |
| MeditationPlayer.TimeLabelRoundTrip | app/meditation_player.py:249-252 | the time text is minutes, `:`, two digits of seconds below 60, and reads back as the total seconds |
| MeditationPlayer.StepLabelRoundTrip | app/meditation_player.py:240 | the step text is `Step `, the one-based step, ` of `, the step count, both recoverable |
| MeditationPlayer.Progress | app/meditation_player.py:235 | the numerator is the step; the denominator is n - 1 for n >= 2 and 1 otherwise, so never 0; the fraction is at most 1 while on a step |
| MeditationPlayer.Player.CurrentDisplay | app/meditation_player.py:226-252 | nothing is shown without instructions; the step text is `StepLabel` of the step and the count; the progress is `Progress` of them; the time text is `TimeLabel` of the elapsed seconds, which are non-negative, and reads back as them; the instruction text is the current step's and changes only while on a step |
| MeditationPlayer.Player.constructor | app/meditation_player.py:10-33 | the session is the lookup result by id; first step, idle, no timer, invariant established |
| MeditationPlayer.Player.TogglePlay | app/meditation_player.py:98-106 | no change without instructions; from not playing: playing, not paused, step kept, the step's timer armed exactly when it has a positive duration and the step exists; from playing: paused with no timer |
| MeditationPlayer.Player.StartMeditation | app/meditation_player.py:108-121 | no change without instructions; else playing, not paused, the current step's timer armed if there is a step, an already pending timer counted as orphaned |
| MeditationPlayer.Player.PauseMeditation | app/meditation_player.py:123-134 | not playing, paused, no timer, step kept |
| MeditationPlayer.Player.Restart | app/meditation_player.py:136-149 | from any valid state: first step, not playing, not paused, no timer |
| MeditationPlayer.Player.PreviousStep | app/meditation_player.py:151-163 | above the first step: one step back, the new step's timer armed only if playing; at the first step nothing changes |
| MeditationPlayer.Player.NextStep | app/meditation_player.py:165-180 | below the last step: one step on, re-armed only if playing; otherwise nothing changes; it never reaches the end |
| MeditationPlayer.Player.StartCurrentStep | app/meditation_player.py:182-196 | past the end it completes; on a step it arms a timer exactly for a positive duration (none for absent or 0), orphaning a pending one |
| MeditationPlayer.Player.Tick | app/meditation_player.py:198-208 | the fired timer is consumed; not playing: nothing else changes; playing: one step on, completing at the end, else the new step's timer; the invariant is kept |
| MeditationPlayer.Player.MeditationComplete | app/meditation_player.py:210-224 | not playing, no timer, step kept |

## Left out

- Rendering: pages, cards, labels, buttons, notifications, navigation and the
  colour styling map.
- MeditationPlayer.Player.CurrentDisplay: gives the values `_update_display`
  would set in the current state. The code calls it only while on a step
  (app/meditation_player.py:96, 149, 159, 176, 192). After completion the
  labels keep their last values and the instruction label shows the
  completion message (app/meditation_player.py:218). The model does not
  track what stays on screen between calls.
- Wall-clock time and the timer library: a timer is its armed duration and
  its firing is `Tick`; time passing within a step is not modelled.
- MeditationPlayer.Player.Tick: the real callback leaves the spent timer object in the
  `timer` field when the next step arms none; the model treats a spent
  timer as no pending timer, since cancelling a spent timer does nothing.
- MeditationPlayer.Progress: the progress value is a float in the code; the
  model keeps the numerator and denominator.
- The database: connections, commits, SQL, timestamps, cascades, the
  category link table and `get_categories`. The store is in memory, and
  ids come from counters starting at 1.
- MeditationService.SessionStore.CreateSession: `category_ids` of the
  schema is accepted and ignored, as in the code.
- MeditationService.SessionStore.AddInstruction: the foreign key on
  `session_id` (app/models.py:52) is not enforced. The model stores the row
  whatever the session id. A database that enforces foreign keys would
  refuse the commit at app/meditation_service.py:93 for an unknown session.
- MeditationService.GetActiveSessions, MeditationService.GetSessionsByType,
  MeditationService.GetSessionsByDifficulty: SQL promises no row order for
  a query without `ORDER BY`. The model returns the rows in stored order;
  which rows are returned does not depend on that choice.
- MeditationService.SessionStore.CreateSampleData: the early returns when a
  created session has no id (app/meditation_service.py:119-120, 169-170,
  212-213) are not modelled. A stored session always gets an id from the
  counter here, so those branches cannot be taken.
- MeditationService.SortByStepOrder: the SQL ordering leaves ties between
  equal step orders unspecified; only non-decreasing order and permutation
  are stated, with the result unique when step orders are distinct.
- Schema validation errors: a Create schema that breaks a bound is refused
  when it is built, so the store methods require a valid schema.
- MeditationLibrary.Library.LoadSessions: the "seed when empty" path and its
  exception handling are not modelled; the loaded list is a parameter.
- Process start-up (table creation, route registration) is not part of this
  model.
