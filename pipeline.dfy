/**
  One run of `main` (transcriber.py): the new recordings are processed one after the other, each
  inside its own `try`; a recording that succeeds has its audio moved into the store, its note
  written and its name appended to the history. The vault is the state this changes.
*/
module Pipeline {
  import opened Wrappers
  import opened Text
  import opened History
  import opened AudioNames
  import opened Analysis
  import opened Render
  import opened Selection

  /** Recordings smaller than this many bytes are skipped without a trace. */
  const MinSize := 1000

  /** The item gets past `os.path.getsize(file_path) < 1000`. */
  predicate PassesSizeGuard(l: Listed)
  {
    l.size.Some? && l.size.value >= MinSize
  }

  /** The modification time is read, the staging copy made and the transcript obtained. */
  predicate Transcribed(l: Listed)
  {
    l.modified.Some? && l.fx.staged && l.fx.transcript.Some?
  }

  /** The audio is moved into the store. */
  predicate Moves(l: Listed)
  {
    PassesSizeGuard(l) && Transcribed(l) && l.fx.moved
  }

  /** The note is written, which happens only after the move. */
  predicate Writes(l: Listed)
  {
    Moves(l) && l.fx.written
  }

  /** The name is appended to the history and the item counted, only after the note is written. */
  predicate Succeeds(l: Listed)
  {
    Writes(l) && l.fx.appended
  }

  /** What `main` reads from the analysis of a transcribed item, defaults applied. */
  function ItemFields(l: Listed): Fields
    requires Transcribed(l)
  {
    var text := l.fx.transcript.value;
    var date := l.modified.value.date;
    ResolveFields(AnalyzeAndFormat(l.fx.reply, text, date), text, date)
  }

  /** `{note_type}_{logical_date}_{time_part}` for the item. */
  function ItemStem(l: Listed): string
    requires Transcribed(l)
  {
    var f := ItemFields(l);
    AudioStem(f.noteType, f.logicalDate, l.modified.value.time)
  }

  /** The path the item's note is written to. */
  function ItemNotePath(l: Listed, cfg: Config): NotePath
    requires Transcribed(l)
  {
    NotePathFor(ItemFields(l), l.modified.value.time, cfg)
  }

  /** The note written for the item once its audio is stored as `audio`. */
  function ItemNote(l: Listed, audio: string, cfg: Config): string
    requires Transcribed(l)
  {
    RenderNote(ItemFields(l), l.modified.value.time, audio, cfg).body
  }

  /** How far an item's processing gets before it ends. */
  datatype Stage = Moved | Written | Recorded

  predicate Reaches(l: Listed, stage: Stage)
  {
    match stage
    case Moved => Moves(l)
    case Written => Writes(l)
    case Recorded => Succeeds(l)
  }

  /** The items of `s` that reach `stage`, in order. */
  function Keep(s: seq<Listed>, stage: Stage): (r: seq<Listed>)
    ensures |r| <= |s|
  {
    if s == [] then [] else Keep(s[..|s| - 1], stage) + (if Reaches(s[|s| - 1], stage) then [s[|s| - 1]] else [])
  }

  /** The kept items are items of `s` that reach the stage. */
  lemma {:induction false} KeepSelects(s: seq<Listed>, stage: Stage)
    ensures forall i :: 0 <= i < |Keep(s, stage)| ==> Reaches(Keep(s, stage)[i], stage) && Keep(s, stage)[i] in s
    ensures forall i :: 0 <= i < |s| && Reaches(s[i], stage) ==> s[i] in Keep(s, stage)
  {
    if s != [] {
      var init := s[..|s| - 1];
      KeepSelects(init, stage);
      assert forall l :: l in init ==> l in s;
      assert forall i :: 0 <= i < |init| ==> s[i] == init[i];
      assert forall l :: l in Keep(init, stage) ==> l in Keep(s, stage);
    }
  }

  /** Each item that reaches the stage is kept as often as it occurs, and no other item is. */
  lemma {:induction false} KeepCounts(s: seq<Listed>, stage: Stage)
    ensures forall x :: multiset(Keep(s, stage))[x] == (if Reaches(x, stage) then multiset(s)[x] else 0)
  {
    if s != [] {
      var init, last := s[..|s| - 1], s[|s| - 1];
      KeepCounts(init, stage);
      assert s == init + [last];
    }
  }

  /** The base names of the items' paths, in order. */
  function Basenames(s: seq<Listed>): (names: seq<string>)
    ensures |names| == |s|
    ensures forall i :: 0 <= i < |s| ==> names[i] == Basename(s[i].path)
  {
    if s == [] then [] else Basenames(s[..|s| - 1]) + [Basename(s[|s| - 1].path)]
  }

  /** The note paths the items write to. */
  function WrittenPaths(s: seq<Listed>, cfg: Config): (paths: set<NotePath>)
    ensures forall i :: 0 <= i < |s| && Writes(s[i]) ==> ItemNotePath(s[i], cfg) in paths
  {
    if s == [] then {}
    else WrittenPaths(s[..|s| - 1], cfg) + (if Writes(s[|s| - 1]) then {ItemNotePath(s[|s| - 1], cfg)} else {})
  }

  /** Every member of the written paths is the note path of an item whose note is written. */
  lemma {:induction false} WrittenPathsExact(s: seq<Listed>, cfg: Config)
    ensures forall p :: p in WrittenPaths(s, cfg) ==>
      exists i :: 0 <= i < |s| && Writes(s[i]) && p == ItemNotePath(s[i], cfg)
  {
    if s != [] {
      var init, last := s[..|s| - 1], s[|s| - 1];
      WrittenPathsExact(init, cfg);
      forall p | p in WrittenPaths(s, cfg)
        ensures exists i :: 0 <= i < |s| && Writes(s[i]) && p == ItemNotePath(s[i], cfg)
      {
        if p in WrittenPaths(init, cfg) {
          var i :| 0 <= i < |init| && Writes(init[i]) && p == ItemNotePath(init[i], cfg);
          assert s[i] == init[i];
        } else {
          assert Writes(s[|s| - 1]) && p == ItemNotePath(s[|s| - 1], cfg);
        }
      }
    }
  }

  /**
    The items the loop reaches: all of them up to the first one whose size cannot be read, since
    `os.path.getsize` sits outside the per-item `try` and its exception ends the loop.
  */
  function Attempted(s: seq<Listed>): (r: seq<Listed>)
    ensures |r| <= |s| && r == s[..|r|]
    ensures forall i :: 0 <= i < |r| ==> r[i].size.Some?
    ensures |r| < |s| ==> s[|r|].size.None?
  {
    if s == [] || s[0].size.None? then [] else [s[0]] + Attempted(s[1..])
  }

  /** A prefix of readable sizes followed by an unreadable one or the end is what the loop reaches. */
  lemma {:induction false} AttemptedUpTo(s: seq<Listed>, i: nat)
    requires i <= |s| && forall j :: 0 <= j < i ==> s[j].size.Some?
    requires i == |s| || s[i].size.None?
    ensures Attempted(s) == s[..i]
  {
    if i > 0 {
      var t := s[1..];
      assert forall j :: 0 <= j < i - 1 ==> t[j] == s[j + 1];
      AttemptedUpTo(t, i - 1);
      assert s[..i] == [s[0]] + t[..i - 1];
    }
  }

  /**
    What a run reports: the number of recordings processed, whether an exception escaped `main`
    (the history file could not be read, or a size could not be read and ended the loop), whether
    the vault was committed and pushed, and whether a notification was sent.
  */
  datatype Report = Report(successCount: nat, aborted: bool, synced: bool, notified: bool)

  /** The parts of the vault a run changes: the audio store's names, the notes, the history file. */
  datatype VaultState = VaultState(storage: set<string>, notes: map<NotePath, string>, historyFile: Option<string>)

  /**
    What one item of the loop does to the vault. A skipped or failing item keeps what was done
    before its exception: the moved audio, then the written note, then the history line.
  */
  function StepEffect(st: VaultState, l: Listed, cfg: Config): VaultState
  {
    if !Moves(l) then st
    else
      var audio := AllocatedAudioName(ItemStem(l), st.storage);
      var storage := st.storage + {audio};
      if !l.fx.written then st.(storage := storage)
      else
        var notes := st.notes[ItemNotePath(l, cfg) := ItemNote(l, audio, cfg)];
        if !l.fx.appended then VaultState(storage, notes, st.historyFile)
        else VaultState(storage, notes, Appended(st.historyFile, Basename(l.path)))
  }

  /** What the items of `s`, processed in order, do to the vault. */
  function BatchEffect(st: VaultState, s: seq<Listed>, cfg: Config): VaultState
  {
    if s == [] then st else StepEffect(BatchEffect(st, s[..|s| - 1], cfg), s[|s| - 1], cfg)
  }

  lemma BatchSnoc(st: VaultState, s: seq<Listed>, i: nat, cfg: Config)
    requires i < |s|
    ensures BatchEffect(st, s[..i + 1], cfg) == StepEffect(BatchEffect(st, s[..i], cfg), s[i], cfg)
    ensures Keep(s[..i + 1], Recorded) == Keep(s[..i], Recorded) + (if Succeeds(s[i]) then [s[i]] else [])
  {
    assert s[..i + 1][..i] == s[..i];
  }

  lemma HistorySnoc(file: Option<string>, done: seq<Listed>, l: Listed)
    ensures AppendAll(file, Basenames(done + [l])) == Appended(AppendAll(file, Basenames(done)), Basename(l.path))
  {
    assert (done + [l])[..|done|] == done;
    var names := Basenames(done + [l]);
    assert names[..|names| - 1] == Basenames(done);
  }

  /** The history after the items: the old file with the names of the successes appended, in order. */
  lemma {:induction false} BatchHistory(st: VaultState, s: seq<Listed>, cfg: Config)
    ensures BatchEffect(st, s, cfg).historyFile == AppendAll(st.historyFile, Basenames(Keep(s, Recorded)))
  {
    if s != [] {
      var init, l := s[..|s| - 1], s[|s| - 1];
      BatchHistory(st, init, cfg);
      if Succeeds(l) {
        assert Keep(s, Recorded) == Keep(init, Recorded) + [l];
        HistorySnoc(st.historyFile, Keep(init, Recorded), l);
      } else {
        assert Keep(s, Recorded) == Keep(init, Recorded);
      }
    }
  }

  /**
    Every moved recording takes a name that was free, so the store keeps what it had and grows by
    exactly one file per moved recording: no stored audio is ever overwritten.
  */
  lemma {:induction false} BatchStorage(st: VaultState, s: seq<Listed>, cfg: Config)
    ensures st.storage <= BatchEffect(st, s, cfg).storage
    ensures |BatchEffect(st, s, cfg).storage| == |st.storage| + |Keep(s, Moved)|
  {
    if s != [] {
      var init, l := s[..|s| - 1], s[|s| - 1];
      BatchStorage(st, init, cfg);
      if Moves(l) {
        var before := BatchEffect(st, init, cfg).storage;
        assert AllocatedAudioName(ItemStem(l), before) !in before;
      }
    }
  }

  /**
    The notes after the items: the old paths plus the paths written to, and a note no item wrote
    keeps its old text.
  */
  lemma {:induction false} BatchNotes(st: VaultState, s: seq<Listed>, cfg: Config)
    ensures BatchEffect(st, s, cfg).notes.Keys == st.notes.Keys + WrittenPaths(s, cfg)
    ensures forall p :: p in st.notes && p !in WrittenPaths(s, cfg) ==> BatchEffect(st, s, cfg).notes[p] == st.notes[p]
  {
    if s != [] {
      var init, last := s[..|s| - 1], s[|s| - 1];
      BatchNotes(st, init, cfg);
      forall p | p in st.notes && p !in WrittenPaths(s, cfg)
        ensures BatchEffect(st, s, cfg).notes[p] == st.notes[p]
      {
        assert p !in WrittenPaths(init, cfg);
        StepKeepsOtherNotes(BatchEffect(st, init, cfg), last, cfg, p);
      }
    }
  }

  /** An item leaves every note it does not write as it was. */
  lemma StepKeepsOtherNotes(st: VaultState, l: Listed, cfg: Config, p: NotePath)
    requires p in st.notes
    requires Writes(l) ==> ItemNotePath(l, cfg) != p
    ensures p in StepEffect(st, l, cfg).notes && StepEffect(st, l, cfg).notes[p] == st.notes[p]
  {
  }

  /**
    A written path ends up holding the note of the last item that wrote to it, rendered with the
    audio name allocated when that item was processed.
  */
  lemma {:induction false} BatchNoteOfLastWriter(st: VaultState, s: seq<Listed>, cfg: Config, i: nat)
    requires i < |s| && Writes(s[i])
    requires forall j :: i < j < |s| && Writes(s[j]) ==> ItemNotePath(s[j], cfg) != ItemNotePath(s[i], cfg)
    ensures ItemNotePath(s[i], cfg) in BatchEffect(st, s, cfg).notes
    ensures BatchEffect(st, s, cfg).notes[ItemNotePath(s[i], cfg)] ==
      ItemNote(s[i], AllocatedAudioName(ItemStem(s[i]), BatchEffect(st, s[..i], cfg).storage), cfg)
  {
    var init, last := s[..|s| - 1], s[|s| - 1];
    if i == |s| - 1 {
      WrittenNote(BatchEffect(st, init, cfg), last, cfg);
    } else {
      assert s[i] == init[i];
      assert init[..i] == s[..i];
      assert forall j :: i < j < |init| ==> init[j] == s[j];
      BatchNoteOfLastWriter(st, init, cfg, i);
      StepKeepsOtherNotes(BatchEffect(st, init, cfg), last, cfg, ItemNotePath(s[i], cfg));
    }
  }

  /** A successful item's note is in the vault at the end: no history line without a note. */
  lemma SuccessesHaveNotes(st: VaultState, s: seq<Listed>, cfg: Config)
    ensures forall i :: 0 <= i < |s| && Succeeds(s[i]) ==> ItemNotePath(s[i], cfg) in BatchEffect(st, s, cfg).notes
  {
    BatchNotes(st, s, cfg);
  }

  /**
    One item commits in order: the history changes only after its note is written, and a note
    is written only after its audio has moved into the store under a name that was free.
  */
  lemma StepCommitOrder(st: VaultState, l: Listed, cfg: Config)
    ensures var r := StepEffect(st, l, cfg);
      r.historyFile != st.historyFile ==> Succeeds(l) && ItemNotePath(l, cfg) in r.notes
    ensures var r := StepEffect(st, l, cfg);
      r.notes != st.notes ==>
        Writes(l) && ItemNotePath(l, cfg) in r.notes && AllocatedAudioName(ItemStem(l), st.storage) in r.storage - st.storage
    ensures StepEffect(st, l, cfg).storage != st.storage ==>
      Moves(l) && StepEffect(st, l, cfg).storage == st.storage + {AllocatedAudioName(ItemStem(l), st.storage)}
  {
    if Moves(l) {
      AllocatedIsSmallestFree(ItemStem(l), st.storage);
    }
  }

  /**
    Counted over a batch, the steps commit in order: no more successes than written notes, and
    no more written notes than moved recordings (per item: `StepCommitOrder`).
  */
  lemma {:induction false} CommitOrder(s: seq<Listed>)
    ensures |Keep(s, Recorded)| <= |Keep(s, Written)| <= |Keep(s, Moved)|
  {
    if s != [] {
      CommitOrder(s[..|s| - 1]);
    }
  }

  /** Recordings that fail the size guard leave the vault as it was and are never counted. */
  lemma {:induction false} SmallFilesLeaveNoTrace(st: VaultState, s: seq<Listed>, cfg: Config)
    requires forall i :: 0 <= i < |s| ==> !PassesSizeGuard(s[i])
    ensures BatchEffect(st, s, cfg) == st
    ensures Keep(s, Recorded) == []
  {
    if s != [] {
      SmallFilesLeaveNoTrace(st, s[..|s| - 1], cfg);
    }
  }

  /**
    What the history loads after the items: the old names and the stripped names of the
    successes, and one more line per success.
  */
  lemma BatchRecordsItsSuccesses(st: VaultState, s: seq<Listed>, cfg: Config)
    requires WellFormed(st.historyFile)
    requires forall l :: l in s ==> '\n' !in Basename(l.path)
    ensures var file := BatchEffect(st, s, cfg).historyFile;
      && WellFormed(file)
      && LoadHistory(file) == LoadHistory(st.historyFile) + StrippedSet(Basenames(Keep(s, Recorded)))
      && EntryCount(file) == EntryCount(st.historyFile) + |Keep(s, Recorded)|
  {
    BatchHistory(st, s, cfg);
    var names := Basenames(Keep(s, Recorded));
    KeepSelects(s, Recorded);
    forall i | 0 <= i < |names|
      ensures '\n' !in names[i]
    {
      assert Keep(s, Recorded)[i] in s;
    }
    LoadAfterAppendAll(st.historyFile, names);
  }

  /** Once the items are processed, the history loads the name of every success. */
  lemma SuccessesAreRecorded(st: VaultState, s: seq<Listed>, cfg: Config)
    requires WellFormed(st.historyFile)
    requires forall l :: l in s ==> '\n' !in Basename(l.path) && IsStripped(Basename(l.path))
    ensures var processed := LoadHistory(BatchEffect(st, s, cfg).historyFile);
      forall i :: 0 <= i < |Keep(s, Recorded)| ==> Basename(Keep(s, Recorded)[i].path) in processed
  {
    BatchRecordsItsSuccesses(st, s, cfg);
    var done := Keep(s, Recorded);
    var names := Basenames(done);
    KeepSelects(s, Recorded);
    StrippedSetHas(names);
    forall i | 0 <= i < |done|
      ensures Basename(done[i].path) in LoadHistory(BatchEffect(st, s, cfg).historyFile)
    {
      assert done[i] in s;
      assert Strip(names[i]) in StrippedSet(names);
      StripOfStripped(names[i]);
    }
  }

  /**
    After the items, no later listing selects a recording with the name of one that succeeded:
    each success is processed once. Holds for names without surrounding whitespace or newlines.
  */
  lemma NoRecordingProcessedTwice(st: VaultState, s: seq<Listed>, cfg: Config, later: seq<Listed>)
    requires WellFormed(st.historyFile)
    requires forall l :: l in s ==> '\n' !in Basename(l.path) && IsStripped(Basename(l.path))
    ensures var processed := LoadHistory(BatchEffect(st, s, cfg).historyFile);
      forall i, j :: 0 <= i < |Keep(s, Recorded)| && 0 <= j < |NewFiles(later, processed)| ==>
        Basename(NewFiles(later, processed)[j].path) != Basename(Keep(s, Recorded)[i].path)
  {
    SuccessesAreRecorded(st, s, cfg);
  }

  lemma {:induction false} KeepAll(s: seq<Listed>, stage: Stage)
    requires forall i :: 0 <= i < |s| ==> Reaches(s[i], stage)
    ensures Keep(s, stage) == s
  {
    if s != [] {
      KeepAll(s[..|s| - 1], stage);
    }
  }

  /** When every new recording succeeds, the loop reaches all of them and records all of them. */
  lemma AllSucceed(candidates: seq<Listed>)
    requires forall l :: l in candidates ==> Succeeds(l)
    ensures Attempted(candidates) == candidates
    ensures Keep(candidates, Recorded) == candidates
  {
    KeepAll(candidates, Recorded);
  }

  /**
    Running again on the same listing after every new recording succeeded finds nothing new, so
    the second run changes nothing.
  */
  lemma RerunFindsNothing(st: VaultState, listing: seq<Listed>, cfg: Config)
    requires WellFormed(st.historyFile)
    requires forall l :: l in listing ==> '\n' !in Basename(l.path) && IsStripped(Basename(l.path))
    requires forall l :: l in NewFiles(listing, LoadHistory(st.historyFile)) ==> Succeeds(l)
    ensures var candidates := NewFiles(listing, LoadHistory(st.historyFile));
      var after := BatchEffect(st, Attempted(candidates), cfg);
      NewFiles(listing, LoadHistory(after.historyFile)) == []
  {
    var before := LoadHistory(st.historyFile);
    var candidates := NewFiles(listing, before);
    AllSucceed(candidates);
    NewFilesMembership(listing, before);
    BatchRecordsItsSuccesses(st, candidates, cfg);
    SuccessesAreRecorded(st, candidates, cfg);
    var processed := LoadHistory(BatchEffect(st, candidates, cfg).historyFile);
    forall i | 0 <= i < |listing|
      ensures Basename(listing[i].path) in processed
    {
      var l := listing[i];
      if Basename(l.path) !in before {
        assert l in candidates;
        var k :| 0 <= k < |candidates| && candidates[k] == l;
        assert Keep(candidates, Recorded)[k] == l;
      }
    }
    NothingNewWhenAllRecorded(listing, processed);
  }

  /**
    Two journal recordings with the same logical date, processed one after the other: both write
    the same daily file, which ends up holding the note of the second one only.
  */
  lemma SameDayJournalKeepsLast(st: VaultState, a: Listed, b: Listed, cfg: Config)
    requires Writes(a) && Writes(b)
    requires ItemFields(a).noteType != NoteType && ItemFields(b).noteType != NoteType
    requires ItemFields(a).logicalDate == ItemFields(b).logicalDate
    ensures var mid := StepEffect(st, a, cfg);
      var after := BatchEffect(st, [a, b], cfg);
      var audio := AllocatedAudioName(ItemStem(b), mid.storage);
      && ItemNotePath(a, cfg) == ItemNotePath(b, cfg)
      && after.notes.Keys == st.notes.Keys + {ItemNotePath(a, cfg)}
      && after.notes[ItemNotePath(a, cfg)] == ItemNote(b, audio, cfg)
  {
    JournalSharesDailyFile(ItemFields(a), ItemFields(b), a.modified.value.time, b.modified.value.time, cfg);
    SamePathKeepsLast(st, a, b, cfg);
  }

  /**
    Two free notes with the same logical date and the same `HHMM` time write the same
    `{date}_{time}.md` file, so the second note replaces the first.
  */
  lemma SameMinuteFreeNotesCollide(st: VaultState, a: Listed, b: Listed, cfg: Config)
    requires Writes(a) && Writes(b)
    requires ItemFields(a).noteType == NoteType && ItemFields(b).noteType == NoteType
    requires ItemFields(a).logicalDate == ItemFields(b).logicalDate
    requires a.modified.value.time == b.modified.value.time
    ensures var mid := StepEffect(st, a, cfg);
      var after := BatchEffect(st, [a, b], cfg);
      var audio := AllocatedAudioName(ItemStem(b), mid.storage);
      && ItemNotePath(a, cfg) == ItemNotePath(b, cfg)
      && ItemNotePath(a, cfg).dir == cfg.notesDir
      && after.notes.Keys == st.notes.Keys + {ItemNotePath(a, cfg)}
      && after.notes[ItemNotePath(a, cfg)] == ItemNote(b, audio, cfg)
  {
    assert ItemNotePath(a, cfg) == ItemNotePath(b, cfg);
    SamePathKeepsLast(st, a, b, cfg);
  }

  /** Two written items with the same note path: one file, holding the second item's note. */
  lemma SamePathKeepsLast(st: VaultState, a: Listed, b: Listed, cfg: Config)
    requires Writes(a) && Writes(b)
    requires ItemNotePath(a, cfg) == ItemNotePath(b, cfg)
    ensures var mid := StepEffect(st, a, cfg);
      var after := BatchEffect(st, [a, b], cfg);
      var audio := AllocatedAudioName(ItemStem(b), mid.storage);
      && after.notes.Keys == st.notes.Keys + {ItemNotePath(a, cfg)}
      && after.notes[ItemNotePath(a, cfg)] == ItemNote(b, audio, cfg)
  {
    var mid := StepEffect(st, a, cfg);
    var p := ItemNotePath(a, cfg);
    assert mid.notes.Keys == st.notes.Keys + {p} by {
      WrittenNote(st, a, cfg);
    }
    var note := ItemNote(b, AllocatedAudioName(ItemStem(b), mid.storage), cfg);
    assert BatchEffect(st, [a, b], cfg).notes == mid.notes[p := note] by {
      BatchOfTwo(st, a, b, cfg);
      WrittenNote(mid, b, cfg);
    }
  }

  lemma BatchOfTwo(st: VaultState, a: Listed, b: Listed, cfg: Config)
    ensures BatchEffect(st, [a, b], cfg) == StepEffect(StepEffect(st, a, cfg), b, cfg)
  {
    assert [a][..0] == [];
    assert BatchEffect(st, [a], cfg) == StepEffect(st, a, cfg);
    assert [a, b][..1] == [a];
  }

  /** A succeeding item adds its audio, its note and its history line, and nothing else. */
  lemma SucceedingStep(st: VaultState, l: Listed, cfg: Config)
    requires Succeeds(l)
    ensures var audio := AllocatedAudioName(ItemStem(l), st.storage);
      StepEffect(st, l, cfg) == VaultState(st.storage + {audio}, st.notes[ItemNotePath(l, cfg) := ItemNote(l, audio, cfg)],
                                           Appended(st.historyFile, Basename(l.path)))
  {
  }

  /** An item whose note is written stores its rendered note at its note path. */
  lemma WrittenNote(st: VaultState, l: Listed, cfg: Config)
    requires Writes(l)
    ensures StepEffect(st, l, cfg).notes == st.notes[ItemNotePath(l, cfg) :=
      ItemNote(l, AllocatedAudioName(ItemStem(l), st.storage), cfg)]
  {
  }

  /**
    A recording whose analysis failed is still committed: a journal entry in the daily file of
    its own `YYYYMMDD` date, holding the raw transcript, with audio named after that date.
  */
  lemma FallbackItem(l: Listed, cfg: Config, audio: string)
    requires Transcribed(l) && l.fx.reply.None? && IsDashedDate(l.modified.value.date)
    ensures var date := RemoveDashes(l.modified.value.date);
      && ItemFields(l) == Fields(JournalType, date, "", "", "", "", l.fx.transcript.value)
      && ItemNotePath(l, cfg) == NotePath(cfg.journalDir, date + ".md")
      && ItemStem(l) == JournalType + "_" + date + "_" + l.modified.value.time
      && Contains(ItemNote(l, audio, cfg), l.fx.transcript.value)
  {
    FallbackFields(l.fx.transcript.value, l.modified.value.date);
  }

  /**
    A night recording `A.m4a` of 4000 bytes, modified at 02:15 on 2025-11-24, which the analyser
    dates to the previous day, and whose every step succeeds.
  */
  function NightRecording(transcript: string): Listed
  {
    Listed("/Voice Memos/A.m4a", Some(4000), Some(Stamp("2025-11-24", "0215")),
      Effects(true, Some(transcript),
        Some(Reply(Some(JournalType), Some("20251123"), None, None, None, None, None)), true, true, true))
  }

  lemma NightRecordingItem(transcript: string, cfg: Config)
    ensures Succeeds(NightRecording(transcript))
    ensures ItemNotePath(NightRecording(transcript), cfg) == NotePath(cfg.journalDir, "20251123.md")
    ensures AllocatedAudioName(ItemStem(NightRecording(transcript)), {}) == "Дневник_20251123_0215.m4a"
    ensures Basename(NightRecording(transcript).path) == "A.m4a"
  {
    var l := NightRecording(transcript);
    var f := ItemFields(l);
    assert f == Fields(JournalType, "20251123", "", "", "", "", transcript);
    assert f.noteType != NoteType;
    var stem := ItemStem(l);
    assert stem == "Дневник_20251123_0215";
    SameKeyTwice(stem);
    ScenarioBasename();
  }

  /**
    On an empty vault the night recording's audio is stored as `Дневник_20251123_0215.m4a`, its
    note is the journal file `20251123.md`, and `A.m4a` is the one entry of the history.
  */
  lemma NightRecordingScenario(transcript: string, cfg: Config)
    ensures var after := BatchEffect(VaultState({}, map[], None), [NightRecording(transcript)], cfg);
      && after.storage == {"Дневник_20251123_0215.m4a"}
      && after.notes.Keys == {NotePath(cfg.journalDir, "20251123.md")}
      && LoadHistory(after.historyFile) == {"A.m4a"}
      && EntryCount(after.historyFile) == 1
  {
    var l := NightRecording(transcript);
    var empty := VaultState({}, map[], None);
    assert BatchEffect(empty, [l], cfg) == StepEffect(empty, l, cfg) by {
      assert [l][..0] == [];
    }
    var after := StepEffect(empty, l, cfg);
    assert after.storage == {"Дневник_20251123_0215.m4a"}
        && after.notes.Keys == {NotePath(cfg.journalDir, "20251123.md")}
        && after.historyFile == Appended(None, "A.m4a") by {
      NightRecordingItem(transcript, cfg);
      SucceedingStep(empty, l, cfg);
    }
    ScenarioHistory();
  }

  lemma ScenarioHistory()
    ensures LoadHistory(Appended(None, "A.m4a")) == {"A.m4a"}
    ensures EntryCount(Appended(None, "A.m4a")) == 1
  {
    var name := "A.m4a";
    StripOfStripped(name);
    LoadAfterAppend(None, name);
  }

  lemma ScenarioBasename()
    ensures Basename("/Voice Memos/A.m4a") == "A.m4a"
  {
    var p := "/Voice Memos/A.m4a";
    assert Basename(p[..13]) == [];
    assert p[..14][..13] == p[..13] && Basename(p[..14]) == "A";
    assert p[..15][..14] == p[..14] && Basename(p[..15]) == "A.";
    assert p[..16][..15] == p[..15] && Basename(p[..16]) == "A.m";
    assert p[..17][..16] == p[..16] && Basename(p[..17]) == "A.m4";
    assert p[..17] == p[..|p| - 1];
  }

  /** The vault: the long-term audio store, the notes and the history file. */
  class Vault {
    /** The names of the files in the long-term audio store. */
    var storage: set<string>
    /** The contents of the notes in the journal and notes folders, by path. */
    var notes: map<NotePath, string>
    /** The content of the history file; `None` while the file does not exist. */
    var historyFile: Option<string>

    constructor(storage: set<string>, notes: map<NotePath, string>, historyFile: Option<string>)
      ensures State() == VaultState(storage, notes, historyFile)
    {
      this.storage := storage;
      this.notes := notes;
      this.historyFile := historyFile;
    }

    function State(): VaultState
      reads this
    {
      VaultState(storage, notes, historyFile)
    }

    /** `save_to_history(filename)`: one line appended, the file created if missing. */
    method SaveToHistory(name: string)
      modifies this`historyFile
      ensures historyFile == Appended(old(historyFile), name)
    {
      match historyFile {
        case None => historyFile := Some(name + "\n");
        case Some(content) => historyFile := Some(content + name + "\n");
      }
    }

    /**
      The body of the per-item `try` for a recording that passed the size guard. Each external
      step either succeeds or raises; a raise ends the item with what was done so far kept.
      Returns whether the item counts as a success and the name its audio was stored under.
    */
    method ProcessItem(l: Listed, cfg: Config) returns (done: bool, audio: Option<string>)
      requires PassesSizeGuard(l)
      modifies this
      ensures done == Succeeds(l)
      ensures Moves(l) <==> audio.Some?
      ensures Moves(l) ==> audio.value == AllocatedAudioName(ItemStem(l), old(storage))
      ensures Moves(l) ==> audio.value !in old(storage)
      ensures State() == StepEffect(old(State()), l, cfg)
    {
      var originalFilename := Basename(l.path);
      done, audio := false, None;
      // 1. preparation
      if l.modified.None? || !l.fx.staged {
        return;
      }
      var creation := l.modified.value;
      var timePart := creation.time;
      // 2. transcription and analysis
      if l.fx.transcript.None? {
        return;
      }
      var rawText := l.fx.transcript.value;
      var analysis := AnalyzeAndFormat(l.fx.reply, rawText, creation.date);
      var noteType := Get(analysis.noteType, JournalType);
      var logicalDate := Get(analysis.logicalDate, creation.date);
      var sleepTxt := Get(analysis.sleep, "");
      var healthTxt := Get(analysis.health, "");
      var successTxt := Get(analysis.successes, "");
      var scoreTxt := Get(analysis.score, "");
      var finalTextContent := Get(analysis.formattedTranscript, rawText);
      var fields := Fields(noteType, logicalDate, sleepTxt, healthTxt, successTxt, scoreTxt, finalTextContent);
      assert fields == ItemFields(l);
      // 3. the audio is moved to a free name in the store
      var finalAudioName := AllocateAudioName(noteType, logicalDate, timePart, storage);
      assert finalAudioName == AllocatedAudioName(ItemStem(l), old(storage));
      if !l.fx.moved {
        return;
      }
      storage := storage + {finalAudioName};
      audio := Some(finalAudioName);
      // 4. the markdown note
      var mdPath, mdContent := ComposeNote(fields, timePart, finalAudioName, cfg);
      assert mdPath == ItemNotePath(l, cfg);
      if !l.fx.written {
        return;
      }
      notes := notes[mdPath := mdContent];
      if !l.fx.appended {
        return;
      }
      SaveToHistory(originalFilename);
      done := true;
    }

    /**
      The `for file_path in new_files` loop: returns the number of successes and how many items
      the loop reached before a size it could not read ended it.
    */
    method ProcessNewFiles(newFiles: seq<Listed>, cfg: Config) returns (successCount: nat, reached: nat)
      modifies this
      ensures reached == |Attempted(newFiles)|
      ensures successCount == |Keep(Attempted(newFiles), Recorded)|
      ensures State() == BatchEffect(old(State()), Attempted(newFiles), cfg)
    {
      successCount := 0;
      var i := 0;
      while i < |newFiles|
        invariant 0 <= i <= |newFiles|
        invariant forall j :: 0 <= j < i ==> newFiles[j].size.Some?
        invariant successCount == |Keep(newFiles[..i], Recorded)|
        invariant State() == BatchEffect(old(State()), newFiles[..i], cfg)
      {
        var item := newFiles[i];
        if item.size.None? {
          break;
        }
        BatchSnoc(old(State()), newFiles, i, cfg);
        if item.size.value < MinSize {
          i := i + 1;
          continue;
        }
        var done, audio := ProcessItem(item, cfg);
        if done {
          successCount := successCount + 1;
        }
        i := i + 1;
      }
      AttemptedUpTo(newFiles, i);
      reached := i;
    }

    /**
      `main`: `listing` is `None` when the Voice Memos folder does not exist. `historyReadable`
      is false when opening or reading an existing history file raises, and `ollamaStarts` is
      false when `manage_ollama("start")` raises (the `ollama` binary cannot be run). Both run
      before the `try`, so `main` then ends at once, with no notification; Ollama is started
      only when there is something new. The new recordings are processed in listing
      order; small ones are skipped; a recording whose size cannot be read ends the loop. The
      vault is committed and pushed after a loop that ran to its end with at least one success,
      and a notification is sent whenever there was a success.
    */
    method RunBatch(listing: Option<seq<Listed>>, historyReadable: bool, ollamaStarts: bool, cfg: Config)
      returns (report: Report)
      modifies this
      ensures listing.None? ==> report == Report(0, false, false, false) && State() == old(State())
      ensures listing.Some? && old(historyFile).Some? && !historyReadable ==>
        report == Report(0, true, false, false) && State() == old(State())
      ensures listing.Some? && (old(historyFile).None? || historyReadable) && !ollamaStarts &&
              NewFiles(listing.value, LoadHistory(old(historyFile))) != [] ==>
        report == Report(0, true, false, false) && State() == old(State())
      ensures listing.Some? && (old(historyFile).None? || historyReadable) &&
              (ollamaStarts || NewFiles(listing.value, LoadHistory(old(historyFile))) == []) ==>
        var candidates := NewFiles(listing.value, LoadHistory(old(historyFile)));
        var attempted := Attempted(candidates);
        && State() == BatchEffect(old(State()), attempted, cfg)
        && report.successCount == |Keep(attempted, Recorded)|
        && report.aborted == (attempted != candidates)
        && report.synced == (report.successCount > 0 && !report.aborted)
        && report.notified == (report.successCount > 0)
    {
      if listing.None? {
        return Report(0, false, false, false);
      }
      if historyFile.Some? && !historyReadable {
        return Report(0, true, false, false);
      }
      var processedFiles := LoadHistory(historyFile);
      var newFiles := NewFiles(listing.value, processedFiles);
      if newFiles == [] {
        return Report(0, false, false, false);
      }
      if !ollamaStarts {
        return Report(0, true, false, false);
      }
      var successCount, reached := ProcessNewFiles(newFiles, cfg);
      var aborted := reached < |newFiles|;
      assert aborted == (Attempted(newFiles) != newFiles);
      report := Report(successCount, aborted, successCount > 0 && !aborted, successCount > 0);
    }
  }
}
