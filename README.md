# Voice-memo ingestion, modelled in Dafny

`transcriber.py` turns the recordings of a phone's voice recorder into notes of an Obsidian vault.
Each new `.m4a` file is copied to a staging folder. The copy is transcribed, analysed by a
language model and moved into a long-term audio store under a collision-free name, and a
Markdown note is rendered for it. A `Дневник` (journal) recording goes to one file per logical
date; a `Заметка` (free note) gets a file named by its date and minute. The recording itself
stays where it is and is listed again on every run, so its name is appended to a history file,
which keeps it from being processed again.
This project models that decision and bookkeeping layer:

- `Text`: the Python string operations it relies on. These are `str.strip()` with Python's
  whitespace set, `os.path.basename`, `str(n)`, `replace("-", "")` and reading a file line by line.
- `History`: `load_history` and `save_to_history` over the history file's content
  (`None` while the file does not exist).
- `Selection`: the listed recordings and the `new_files` filter.
- `AudioNames`: the allocation loop for the stored audio name, proved against the function
  "first free probe number".
- `Analysis`: the fallback record of `analyze_and_format`, and how `main` reads the record's keys
  with their defaults.
- `Render`: the note path, the note bodies, and the `structure_block` built with `+=`.
- `Pipeline`: the vault as a class with three fields: the names in the audio store, the notes by
  path, and the history file. `ProcessItem` is the per-item `try`; `ProcessNewFiles` is the `for`
  loop; `RunBatch` is `main`. Each method is proved against the specification functions
  `StepEffect` and `BatchEffect`, and the run's properties are lemmas about those functions.

Every external step is an input. This covers the size and modification time of a file, the
staging copy, the transcription, the model's reply, the move, the note write and the history
append. Each comes in per recording as an outcome: it succeeds (with its value) or it raises.

Each recording is processed inside its own `try` (transcriber.py:190-296), but
`os.path.getsize` (transcriber.py:187) sits outside it, so an exception there ends the loop. The
git sync is then skipped, but the `finally` block still sends the notification when something
succeeded. `Attempted` is the prefix the loop reaches, and `Report.aborted` records that an
exception escaped `main`. `load_history` (transcriber.py:171) and `manage_ollama("start")`
(transcriber.py:178) run before the `try`. A history file that exists but cannot be read, or an
Ollama start that raises, therefore ends `main` before any recording is touched.

Four behaviours of the code as written are kept and stated as lemmas:
- A name with surrounding whitespace is saved as it is but loads back stripped, so it is selected
  again on every run (`PaddedNameNotRecognised`). The guarantee that nothing is processed twice is
  therefore stated for clean names.
- `save_to_history` (transcriber.py:160-162) appends `name + "\n"` without checking that the
  file ends in a newline. After a hand-edited last line without one, the next name continues that
  line, so both load back as one name and both recordings are selected again
  (`UnterminatedLineGlues`). The history lemmas are therefore stated for a file that is absent
  or ends in a newline (`WellFormed`), which every file `save_to_history` alone writes is.
- A reply without `logical_date` leaves the date dashed (`YYYY-MM-DD`), unlike the fallback's
  `YYYYMMDD` (`MissingDateKeepsDashes`).
- Two free notes (`Заметка`) with the same logical date and the same `HHMM` time get the same
  file `{date}_{time}.md` (transcriber.py:239). The second note replaces the first in that file
  (`SameMinuteFreeNotesCollide`).

## Model

| member | source | states |
|---|---|---|
| Text.Strip | transcriber.py:157 | the result has no whitespace (Python's `isspace` set) at either end and is no longer than the input |
| Text.StripIsTrim | transcriber.py:157 | the result is an infix of the input, and everything cut off before and after it is whitespace; being stripped, it is the longest such infix |
| Text.StripOfStripped | transcriber.py:157 | stripping an already clean string changes nothing |
| Text.StripIgnoresTrailingSpace | transcriber.py:153-162 | the newline `save_to_history` writes after a name is removed again by `strip` on loading |
| Text.BasenameIsLastComponent | transcriber.py:172 | `basename` is the suffix of the path after its last slash (or the whole path), and contains no slash |
| Text.ParseDecimalOfDecimal | transcriber.py:224 | the decimal text of the probe counter reads back as the counter |
| Text.DecimalInjective | transcriber.py:224 | distinct counters print as distinct texts |
| Text.DashedDateUndashed | transcriber.py:144 | removing the dashes from `YYYY-MM-DD` yields exactly the eight digits `YYYYMMDD` |
| Text.LinesCover | transcriber.py:157 | iterating the file yields non-empty lines whose concatenation is the whole content |
| Text.LinesAppend | transcriber.py:160-162 | text appended after a complete line reads back as the old lines followed by the new ones |
| History.LoadHistory | transcriber.py:153-157 | a history file that does not exist loads as the empty set |
| History.LoadedNamesStripped | transcriber.py:153-157 | every name `load_history` returns is stripped |
| History.StrippedSetHas | transcriber.py:157 | the stripped form of every line is a member, and every member is the stripped form of some line (hence stripped) |
| History.Appended | transcriber.py:160-162 | append mode always leaves a file, creating it when missing |
| History.LoadAfterAppend | transcriber.py:153-162 | for a history file that is absent or ends in a newline, and a name without a newline: after one save the history loads the old names plus the stripped name, has one more line, and still ends with a newline |
| History.DuplicateLineCollapses | transcriber.py:157-162 | saving a name already recorded adds a line but leaves the loaded set unchanged |
| History.LoadAfterAppendAll | transcriber.py:153-162 | for a history file that is absent or ends in a newline, and names without newlines: after a sequence of saves the history loads exactly the old names plus the stripped new ones, with one line per save |
| History.UnterminatedLineGlues | transcriber.py:153-162 | a save after a last line without a newline continues that line: `X.m4a` then `A.m4a` load back as the single name `X.m4aA.m4a`, and neither name is recognised |
| History.PaddedNameNotRecognised | transcriber.py:157-162 | a name saved with a leading space loads back without it, so the saved name itself is never found |
| AudioNames.FirstFreeFrom | transcriber.py:221-227 | returns the first probe number from `k` on whose name is not in the store; every probe before it is taken; the search terminates because the store is finite |
| AudioNames.AllocateAudioName | transcriber.py:218-227 | the loop terminates with a name not in the store, equal to the candidate for the first free probe number |
| AudioNames.AllocatedIsSmallestFree | transcriber.py:218-227 | the result is the base name when that is free, otherwise `base_k` for the smallest `k >= 1` whose name is free; it is never in the store |
| AudioNames.AllocationDetermined | transcriber.py:218-227 | any free candidate preceded only by taken candidates is the one allocated |
| AudioNames.CandidateInjective | transcriber.py:218-225 | different probe numbers give different names |
| AudioNames.SameKeyTwice | transcriber.py:218-227 | two recordings with the same key are stored as `base.m4a`, then `base_1.m4a` |
| Analysis.AnalyzeAndFormat | transcriber.py:132-150 | a parsed reply is returned as it is; when the call raises, the fallback is a `Дневник` with the undashed date and the raw text as its transcript |
| Analysis.ResolveFields | transcriber.py:203-215 | a reply with every key is taken as it is; a reply with no key gives a `Дневник` on the dashed date, empty fields and the raw text |
| Analysis.FallbackFields | transcriber.py:139-150 | when the model fails, the item is a `Дневник` dated by the recording's `YYYYMMDD` date, with empty journal fields and the raw transcript as its content |
| Analysis.MissingDateKeepsDashes | transcriber.py:204-206 | a reply lacking `logical_date` keeps the dashed date, which differs from the undashed form |
| Render.BuildStructureBlock | transcriber.py:260-268 | the `+=` sequence produces the labelled lines of the non-empty fields, in the order sleep, health, successes, score |
| Render.StructureLinesAt | transcriber.py:260-268 | each field contributes its own labelled line at its own place in the block, and nothing when empty |
| Render.StructureLinesEmpty | transcriber.py:260-268 | the block is empty exactly when all four fields are empty |
| Render.StructureLinesAppend | transcriber.py:260-268 | the block of a longer field list is the block of its first part followed by that of the rest |
| Render.NotePathFor | transcriber.py:237-258 | a `Заметка` goes to the notes folder and every other type to the journal folder |
| Render.NoteFileName | transcriber.py:239-258 | the note's file name starts with the logical date and ends with `.md` |
| Render.RenderNote | transcriber.py:231-285 | the note goes to the path `NotePathFor` chooses; its body contains the whole transcript and the audio link, and a journal body also contains the structure block |
| Render.ComposeNote | transcriber.py:231-285 | the folder, file name and content assembled step by step are exactly the path `NotePathFor` chooses and the body `RenderNote` gives |
| Render.JournalSharesDailyFile | transcriber.py:255-258 | two journal items with the same logical date target the same file in the journal folder |
| Render.FreeNotesDistinct | transcriber.py:237-239 | free notes with different dates or times (of equal length) get different note paths (folder and file name), both in the notes folder |
| Render.TypesNeverShareAFile | transcriber.py:237-258 | with distinct folders, a free note and a journal note never get the same note path (folder and file name) |
| Render.FallbackHasEmptyBlock | transcriber.py:139-150 | the fallback record renders an empty structure block |
| Selection.NewFiles | transcriber.py:170-172 | no selected file has a name in the history |
| Selection.NewFilesSelects | transcriber.py:170-172 | every listed file whose name is not in the history is selected as often as it is listed, and no other file |
| Selection.NewFilesMembership | transcriber.py:170-172 | a file is selected exactly when it is listed and its name is not in the history |
| Selection.NewFilesAppend | transcriber.py:170-172 | the selection keeps listing order: selecting from two lists joined is joining their selections |
| Selection.NothingNewWhenAllRecorded | transcriber.py:170-175 | when every listed name is recorded, the selection is empty |
| Pipeline.Attempted | transcriber.py:185-188 | the loop reaches a prefix of the candidates, all with a readable size, followed by one whose size cannot be read or by the end |
| Pipeline.KeepSelects | transcriber.py:185-292 | an item is counted at a stage exactly when it is an item of the batch that reached that stage |
| Pipeline.KeepCounts | transcriber.py:185-292 | each item that reaches the stage is counted as often as it occurs, and no other item is |
| Pipeline.AttemptedUpTo | transcriber.py:185-188 | a prefix of readable sizes ending at an unreadable size or at the end is exactly what the loop reaches |
| Pipeline.WrittenPaths | transcriber.py:287-289 | the path of every item whose note was written is a member |
| Pipeline.WrittenPathsExact | transcriber.py:287-289 | every member is the path of an item whose note was written |
| Pipeline.StepCommitOrder | transcriber.py:229-292 | a changed history comes with the item's note in place; a changed note set comes with the audio moved under a name that was free; a changed store gains exactly that name |
| Pipeline.BatchHistory | transcriber.py:185-296 | after the loop, the history file is the old one with the names of the successful items appended, in order |
| Pipeline.BatchStorage | transcriber.py:218-229 | the store keeps its files and grows by exactly one new file per moved recording: no stored audio is overwritten |
| Pipeline.BatchNotes | transcriber.py:237-289 | the note paths after the loop are the old ones plus the paths written to; a note no item wrote keeps its old text |
| Pipeline.BatchNoteOfLastWriter | transcriber.py:237-289 | a written path holds the note of the last item that wrote to it, rendered with the audio name allocated for that item |
| Pipeline.SuccessesHaveNotes | transcriber.py:287-292 | every success has its note in the vault at the end: no history line without a note |
| Pipeline.CommitOrder | transcriber.py:229-292 | the count of successes is at most the count of written notes, which is at most the count of moved recordings |
| Pipeline.SmallFilesLeaveNoTrace | transcriber.py:187-188 | files under 1000 bytes leave store, notes and history as they were and are never counted |
| Pipeline.BatchRecordsItsSuccesses | transcriber.py:291-292 | for a history file that is absent or ends in a newline, and recordings whose names hold no newline: the history afterwards loads the old names plus the successes' names, and has exactly one more line per counted success |
| Pipeline.SuccessesAreRecorded | transcriber.py:291 | for a history file that is absent or ends in a newline, and recordings whose names are stripped and hold no newline: the history afterwards loads the name of every success |
| Pipeline.NoRecordingProcessedTwice | transcriber.py:170-172 | no later selection picks a file named like a success of this run |
| Pipeline.AllSucceed | transcriber.py:185-292 | when every candidate succeeds, the loop reaches all of them and counts all of them |
| Pipeline.RerunFindsNothing | transcriber.py:170-175 | a second run on the same listing, after every new recording succeeded, selects nothing |
| Pipeline.SameDayJournalKeepsLast | transcriber.py:255-289 | two journal items of one date write one file, which ends up holding the second item's note |
| Pipeline.SamePathKeepsLast | transcriber.py:287-289 | two written items with one note path leave one file, holding the second item's note |
| Pipeline.SameMinuteFreeNotesCollide | transcriber.py:237-289 | two free notes with the same date and `HHMM` write the same file in the notes folder, which ends up with only the second note |
| Pipeline.FallbackItem | transcriber.py:139-150 | a recording whose analysis failed is still filed: as a journal entry in the daily file of its own `YYYYMMDD` date, with the raw transcript in its body |
| Pipeline.NightRecordingScenario | transcriber.py:185-292 | the night recording `A.m4a` dated to the day before ends on an empty vault as `Дневник_20251123_0215.m4a`, journal file `20251123.md` and the single history entry `A.m4a` |
| Pipeline.Vault.SaveToHistory | transcriber.py:160-162 | the history file becomes the old content with the name and a newline appended, created if missing |
| Pipeline.Vault.ProcessItem | transcriber.py:190-296 | a success exactly when every step succeeds; the audio takes the allocated free name once moved; the new vault state is `StepEffect` of the old one |
| Pipeline.Vault.ProcessNewFiles | transcriber.py:185-296 | the loop reaches the `Attempted` prefix; the count is the number of its successes; the vault ends as `BatchEffect` over that prefix |
| Pipeline.Vault.RunBatch | transcriber.py:165-322 | a missing folder changes nothing; an existing history file that cannot be read, or an Ollama start that raises when there is something new, ends the run with nothing changed and no notification; otherwise the vault ends as `BatchEffect` over the reached candidates; sync happens only after a complete loop with a success, and notification whenever there was a success |

## Left out

- The transcription model, the language-model call and the parsing of its JSON answer are not
  modelled. Their outcomes are inputs: a transcript or an exception, and a reply record or a
  failure.
- The reply's values are taken to be strings. A JSON value of another type, and the truthiness of
  such a value in the `if sleep_txt:` tests, are not modelled.
- `str.capitalize()` on the note type (transcriber.py:203) is not modelled. The type is used as
  the model returned it.
- Dates and times are not computed. `datetime`, `strftime` and the night-time rule the prompt asks
  the model to apply are left out; the recording's `YYYY-MM-DD` date and `HHMM` time are inputs.
- The filesystem is reduced to the vault state. The store is a set of names and the notes a map
  from path to text. Directory creation (`os.makedirs`, whose exception would end the run), the
  `/tmp` staging copy beyond whether it succeeds, a partial write, and `glob`'s order are not
  modelled; the listing is an input sequence.
- Reading the history file splits lines at `\n` only. Python's universal-newline translation of
  `\r` and `\r\n` is not modelled.
- `manage_ollama`, the git add/commit/push calls and `send_notification` are I/O. The model
  records only whether the sync and the notification happen. utils.py and config.py are not part
  of this model, and transcriber.py does not import config.py. The `Config` parameter stands for
  transcriber.py's own `JOURNAL_DIR`, `NOTES_DIR` and `OBSIDIAN_AUDIO_LINK_NAME`
  (transcriber.py:21-25). Its `LONG_TERM_STORAGE` is the audio store of the vault state.
- `log` and its timestamps are left out.
- Pipeline.Vault.RunBatch: an exception inside the `finally` block (transcriber.py:319-322) is
  not modelled. `manage_ollama("stop")` running `pkill`, or `send_notification` raising, would skip
  the notification that the model reports whenever there was a success. An exception from the
  git calls (transcriber.py:298-317, for example a missing `git` binary) is not modelled either;
  it would skip the rest of the sync but still reach the `finally` block.
- Pipeline.NoRecordingProcessedTwice: stated only for names without surrounding whitespace or
  newlines, because other names are not recognised by the code (see `PaddedNameNotRecognised`).
- Render.FreeNotesDistinct: requires times of equal length, as `%H%M` always gives four digits,
  since a shorter time could otherwise shift into the date. It also compares note paths as
  (folder, file name) pairs. `os.path.join` (transcriber.py:287) and the resolution of the
  joined path by `open` are not modelled, so a logical date holding `/`, `.` or `..`
  components (say `./20251123` beside `20251123`) can still reach the same file.
- Render.TypesNeverShareAFile: compares note paths as (folder, file name) pairs only. A
  `Заметка` whose logical date leads out of the notes folder (say `../Дневник/20251123`) can
  reach a journal file once `os.path.join` and `open` resolve the path; that is not modelled.
