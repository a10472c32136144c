/**
  Markdown rendering of one processed recording (transcriber.py, `main`, step 4): where the note
  goes, what it is called and what it says. A `Заметка` gets its own file per recording in the
  notes folder; every other type goes to the journal folder, one file per logical date.
*/
module Render {
  import opened Wrappers
  import opened Text
  import opened Analysis

  /** The vault folders and the name of the audio-link folder inside the vault. */
  datatype Config = Config(journalDir: string, notesDir: string, audioLinkName: string)

  /** `os.path.join(target_dir, md_name)`, kept as its two parts. */
  datatype NotePath = NotePath(dir: string, name: string)

  datatype Note = Note(path: NotePath, body: string)

  /** The Obsidian embed of the stored audio file. */
  function AudioLink(cfg: Config, audioName: string): string
  {
    "![[" + cfg.audioLinkName + "/" + audioName + "]]"
  }

  /** One journal field with its bold label, as in `**Сон**: `. */
  datatype Entry = Entry(label_: string, value: string)

  const SleepLabel := "**Сон**: "
  const HealthLabel := "**Боли**: "
  const SuccessesLabel := "**Успехи**: "
  const ScoreLabel := "**Оценка дня**: "

  /** The journal fields in the order the structure block lists them. */
  function JournalEntries(f: Fields): seq<Entry>
  {
    [Entry(SleepLabel, f.sleep), Entry(HealthLabel, f.health), Entry(SuccessesLabel, f.successes), Entry(ScoreLabel, f.score)]
  }

  function EntryLine(e: Entry): string
  {
    e.label_ + e.value + "\n\n"
  }

  /** What one entry adds to the block: its labelled line, or nothing when its value is empty. */
  function LineOf(e: Entry): string
  {
    if e.value == "" then "" else EntryLine(e)
  }

  /** The labelled lines of the entries whose value is not empty, in order. */
  function StructureLines(entries: seq<Entry>): string
  {
    if entries == [] then "" else StructureLines(entries[..|entries| - 1]) + LineOf(entries[|entries| - 1])
  }

  /** The structure block of a journal note. */
  function StructureBlock(f: Fields): string
  {
    StructureLines(JournalEntries(f))
  }

  /** `structure_block` as `main` builds it: one `+=` per non-empty field. */
  method BuildStructureBlock(sleep: string, health: string, successes: string, score: string)
    returns (block: string)
    ensures block == StructureLines([Entry(SleepLabel, sleep), Entry(HealthLabel, health),
                                     Entry(SuccessesLabel, successes), Entry(ScoreLabel, score)])
  {
    ghost var done: seq<Entry> := [];
    block := "";
    AddEntryLine(block, done, Entry(SleepLabel, sleep));
    if sleep != "" {
      block := block + "**Сон**: " + sleep + "\n\n";
    }
    done := done + [Entry(SleepLabel, sleep)];
    AddEntryLine(block, done, Entry(HealthLabel, health));
    if health != "" {
      block := block + "**Боли**: " + health + "\n\n";
    }
    done := done + [Entry(HealthLabel, health)];
    AddEntryLine(block, done, Entry(SuccessesLabel, successes));
    if successes != "" {
      block := block + "**Успехи**: " + successes + "\n\n";
    }
    done := done + [Entry(SuccessesLabel, successes)];
    AddEntryLine(block, done, Entry(ScoreLabel, score));
    if score != "" {
      block := block + "**Оценка дня**: " + score + "\n\n";
    }
    done := done + [Entry(ScoreLabel, score)];
    assert done == [Entry(SleepLabel, sleep), Entry(HealthLabel, health),
                    Entry(SuccessesLabel, successes), Entry(ScoreLabel, score)];
  }

  /** One `if value: block += ...` step extends the block of the entries before it by one entry. */
  lemma AddEntryLine(block: string, done: seq<Entry>, e: Entry)
    requires block == StructureLines(done)
    ensures e.value != "" ==> block + e.label_ + e.value + "\n\n" == StructureLines(done + [e])
    ensures e.value == "" ==> block == StructureLines(done + [e])
  {
    assert (done + [e])[..|done|] == done;
    AppendLine(block, e);
  }

  /** `block += f"{label}{value}\n\n"` appends the entry's line. */
  lemma AppendLine(block: string, e: Entry)
    ensures block + e.label_ + e.value + "\n\n" == block + EntryLine(e)
  {
    ConcatAssoc(block, e.label_, e.value);
    ConcatAssoc(block, e.label_ + e.value, "\n\n");
  }

  lemma StructureLinesSnoc(entries: seq<Entry>, k: nat)
    requires k < |entries|
    ensures StructureLines(entries[..k + 1]) == StructureLines(entries[..k]) + LineOf(entries[k])
  {
    assert entries[..k + 1][..k] == entries[..k];
  }

  lemma {:induction false} StructureLinesAppend(a: seq<Entry>, b: seq<Entry>)
    ensures StructureLines(a + b) == StructureLines(a) + StructureLines(b)
    decreases |b|
  {
    if b == [] {
      assert a + b == a;
    } else {
      var init, e := b[..|b| - 1], b[|b| - 1];
      assert (a + b)[..|a + b| - 1] == a + init;
      assert (a + b)[|a + b| - 1] == e;
      StructureLinesAppend(a, init);
      ConcatAssoc(StructureLines(a), StructureLines(init), LineOf(e));
    }
  }

  /**
    Each field contributes its labelled line at its own position, after the lines of the fields
    before it and before the lines of the fields after it, and contributes nothing when empty.
  */
  lemma StructureLinesAt(entries: seq<Entry>, i: nat)
    requires i < |entries|
    ensures StructureLines(entries) ==
      StructureLines(entries[..i]) + LineOf(entries[i]) + StructureLines(entries[i + 1..])
  {
    TakeDrop(entries, i + 1);
    StructureLinesAppend(entries[..i + 1], entries[i + 1..]);
    StructureLinesSnoc(entries, i);
  }

  /** The block is empty exactly when every field is empty: there is never a label without text. */
  lemma {:induction false} StructureLinesEmpty(entries: seq<Entry>)
    ensures StructureLines(entries) == "" <==> forall i :: 0 <= i < |entries| ==> entries[i].value == ""
  {
    if entries != [] {
      var init := entries[..|entries| - 1];
      StructureLinesEmpty(init);
      assert forall i :: 0 <= i < |init| ==> init[i] == entries[i];
    }
  }

  /** Where the note goes: `{date}_{time}.md` among the notes, `{date}.md` in the journal. */
  function NotePathFor(f: Fields, time: string, cfg: Config): (p: NotePath)
    ensures p.dir == (if f.noteType == NoteType then cfg.notesDir else cfg.journalDir)
  {
    if f.noteType == NoteType then NotePath(cfg.notesDir, f.logicalDate + "_" + time + ".md")
    else NotePath(cfg.journalDir, f.logicalDate + ".md")
  }

  /** Every note file is named by its logical date and has the `.md` extension. */
  lemma NoteFileName(f: Fields, time: string, cfg: Config)
    ensures var name := NotePathFor(f, time, cfg).name;
      |name| >= |f.logicalDate| + 3 && name[..|f.logicalDate|] == f.logicalDate && name[|name| - 3..] == ".md"
  {
    var name := NotePathFor(f, time, cfg).name;
    if f.noteType == NoteType {
      assert name == f.logicalDate + ("_" + time + ".md");
    } else {
      assert name == f.logicalDate + ".md";
    }
  }

  function FreeNoteHead(date: string, time: string): string
  {
    "---\ndate: " + date + "\ntime: " + time + "\ntype: заметка\n---\n# Заметка " + time + "\n\n"
  }

  function FreeNoteTail(link: string): string
  {
    "\n\n---\n## Исходный текст\n" + link + "\n"
  }

  function JournalHead(date: string): string
  {
    "---\ndate: " + date + "\ntype: дневник\n---\n[[Дневник]]\n\n"
  }

  function JournalMiddle(link: string): string
  {
    "\n\n---\n---\n## Полный транскрипт\n\n" + link + "\n\n"
  }

  /** The body of a `Заметка`. */
  function FreeNoteBody(date: string, time: string, content: string, link: string): string
  {
    FreeNoteHead(date, time) + content + FreeNoteTail(link)
  }

  /** The body of a journal note. */
  function JournalBody(date: string, block: string, link: string, content: string): string
  {
    JournalHead(date) + block + JournalMiddle(link) + content + "\n"
  }

  /**
    The note for one recording. Its body carries the whole transcript and the link to the stored
    audio; a journal body also carries the structure block.
  */
  function RenderNote(f: Fields, time: string, audioName: string, cfg: Config): (n: Note)
    ensures n.path == NotePathFor(f, time, cfg)
    ensures Contains(n.body, f.content)
    ensures Contains(n.body, AudioLink(cfg, audioName))
    ensures f.noteType != NoteType ==> Contains(n.body, StructureBlock(f))
  {
    var link := AudioLink(cfg, audioName);
    if f.noteType == NoteType then
      var head := FreeNoteHead(f.logicalDate, time);
      var body := FreeNoteBody(f.logicalDate, time, f.content, link);
      ContainsSelf(f.content);
      ContainsPrepend(head, f.content, f.content);
      ContainsAppend(head + f.content, FreeNoteTail(link), f.content);
      ContainsSelf(link);
      ContainsPrepend("\n\n---\n## Исходный текст\n", link, link);
      ContainsAppend("\n\n---\n## Исходный текст\n" + link, "\n", link);
      ContainsPrepend(head + f.content, FreeNoteTail(link), link);
      Note(NotePathFor(f, time, cfg), body)
    else
      var head := JournalHead(f.logicalDate);
      var block := StructureBlock(f);
      var middle := JournalMiddle(link);
      var body := JournalBody(f.logicalDate, block, link, f.content);
      ContainsSelf(block);
      ContainsPrepend(head, block, block);
      ContainsAppend(head + block, middle, block);
      ContainsAppend(head + block + middle, f.content, block);
      ContainsAppend(head + block + middle + f.content, "\n", block);
      ContainsSelf(link);
      ContainsPrepend("\n\n---\n---\n## Полный транскрипт\n\n", link, link);
      ContainsAppend("\n\n---\n---\n## Полный транскрипт\n\n" + link, "\n\n", link);
      ContainsPrepend(head + block, middle, link);
      ContainsAppend(head + block + middle, f.content, link);
      ContainsAppend(head + block + middle + f.content, "\n", link);
      ContainsSelf(f.content);
      ContainsPrepend(head + block + middle, f.content, f.content);
      ContainsAppend(head + block + middle + f.content, "\n", f.content);
      Note(NotePathFor(f, time, cfg), body)
  }

  /**
    The markdown step of the per-item `try`: the folder, file name and content `main` assembles,
    with the structure block built by `+=` for a journal entry.
  */
  method ComposeNote(f: Fields, time: string, audioName: string, cfg: Config)
    returns (path: NotePath, content: string)
    ensures path == NotePathFor(f, time, cfg)
    ensures content == RenderNote(f, time, audioName, cfg).body
  {
    var link := AudioLink(cfg, audioName);
    if f.noteType == NoteType {
      path := NotePath(cfg.notesDir, f.logicalDate + "_" + time + ".md");
      content := FreeNoteBody(f.logicalDate, time, f.content, link);
    } else {
      path := NotePath(cfg.journalDir, f.logicalDate + ".md");
      var structureBlock := BuildStructureBlock(f.sleep, f.health, f.successes, f.score);
      content := JournalBody(f.logicalDate, structureBlock, link, f.content);
    }
  }

  /** Two journal items with the same logical date write the same file, whatever else differs. */
  lemma JournalSharesDailyFile(f1: Fields, f2: Fields, time1: string, time2: string, cfg: Config)
    requires f1.noteType != NoteType && f2.noteType != NoteType
    requires f1.logicalDate == f2.logicalDate
    ensures NotePathFor(f1, time1, cfg) == NotePathFor(f2, time2, cfg)
    ensures NotePathFor(f1, time1, cfg).dir == cfg.journalDir
  {
  }

  /** A `{date}_{time}.md` name with a fixed-width time determines both its date and its time. */
  lemma FreeNoteNameSplits(d1: string, t1: string, d2: string, t2: string)
    requires |t1| == |t2|
    requires d1 + "_" + t1 + ".md" == d2 + "_" + t2 + ".md"
    ensures d1 == d2 && t1 == t2
  {
    var n1, n2 := d1 + "_" + t1 + ".md", d2 + "_" + t2 + ".md";
    assert |d1| == |d2|;
    assert n1[..|d1|] == d1 && n2[..|d2|] == d2;
    assert n1[|d1| + 1..|d1| + 1 + |t1|] == t1;
    assert n2[|d2| + 1..|d2| + 1 + |t2|] == t2;
  }

  /**
    Two `Заметка` items get different note paths (folder and file name) unless both their date
    and their `HHMM` time agree.
  */
  lemma FreeNotesDistinct(f1: Fields, f2: Fields, time1: string, time2: string, cfg: Config)
    requires f1.noteType == NoteType && f2.noteType == NoteType
    requires |time1| == |time2|
    requires f1.logicalDate != f2.logicalDate || time1 != time2
    ensures NotePathFor(f1, time1, cfg) != NotePathFor(f2, time2, cfg)
    ensures NotePathFor(f1, time1, cfg).dir == cfg.notesDir
  {
    var n1, n2 := NotePathFor(f1, time1, cfg).name, NotePathFor(f2, time2, cfg).name;
    if n1 == n2 {
      FreeNoteNameSplits(f1.logicalDate, time1, f2.logicalDate, time2);
    }
  }

  /** With distinct folders a `Заметка` never gets the note path of a journal item. */
  lemma TypesNeverShareAFile(f1: Fields, f2: Fields, time1: string, time2: string, cfg: Config)
    requires cfg.notesDir != cfg.journalDir
    requires f1.noteType == NoteType && f2.noteType != NoteType
    ensures NotePathFor(f1, time1, cfg) != NotePathFor(f2, time2, cfg)
  {
  }

  /** The structure block of a fallback record is empty: no label is printed without a value. */
  lemma FallbackHasEmptyBlock(rawText: string, dateDashed: string)
    ensures StructureBlock(ResolveFields(AnalyzeAndFormat(None, rawText, dateDashed), rawText, dateDashed)) == ""
  {
    StructureLinesEmpty(JournalEntries(ResolveFields(AnalyzeAndFormat(None, rawText, dateDashed), rawText, dateDashed)));
  }
}
