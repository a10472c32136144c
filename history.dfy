/**
  The processed-history file (transcriber.py, `load_history` and `save_to_history`): a plain
  text file with one original recording name per line, only ever appended to. The file's
  content is `None` while the file does not exist.
*/
module History {
  import opened Wrappers
  import opened Text

  /** `load_history()`: the set of stripped lines; no file means no history. */
  function LoadHistory(file: Option<string>): (names: set<string>)
    ensures file.None? ==> names == {}
  {
    match file
    case None => {}
    case Some(content) => StrippedSet(Lines(content))
  }

  /** `set(line.strip() for line in lines)`. */
  function StrippedSet(lines: seq<string>): set<string>
  {
    if lines == [] then {} else StrippedSet(lines[..|lines| - 1]) + {Strip(lines[|lines| - 1])}
  }

  /**
    The set holds the stripped form of every line and nothing else: every member is the stripped
    form of some line, and so is stripped itself.
  */
  lemma {:induction false} StrippedSetHas(lines: seq<string>)
    ensures forall i :: 0 <= i < |lines| ==> Strip(lines[i]) in StrippedSet(lines)
    ensures forall n :: n in StrippedSet(lines) ==> exists i :: 0 <= i < |lines| && n == Strip(lines[i])
    ensures forall n :: n in StrippedSet(lines) ==> IsStripped(n)
  {
    if lines != [] {
      var init := lines[..|lines| - 1];
      StrippedSetHas(init);
      assert forall i :: 0 <= i < |init| ==> lines[i] == init[i];
      forall n | n in StrippedSet(lines)
        ensures exists i :: 0 <= i < |lines| && n == Strip(lines[i])
      {
        if n in StrippedSet(init) {
          var i :| 0 <= i < |init| && n == Strip(init[i]);
          assert lines[i] == init[i];
        } else {
          assert n == Strip(lines[|lines| - 1]);
        }
      }
      forall n | n in StrippedSet(lines)
        ensures IsStripped(n)
      {
        if n !in StrippedSet(init) {
          assert n == Strip(lines[|lines| - 1]);
        }
      }
    }
  }

  /** Every loaded name is stripped. */
  lemma LoadedNamesStripped(file: Option<string>)
    ensures forall n :: n in LoadHistory(file) ==> IsStripped(n)
  {
    if file.Some? {
      StrippedSetHas(Lines(file.value));
    }
  }

  lemma {:induction false} StrippedSetAppend(a: seq<string>, b: seq<string>)
    ensures StrippedSet(a + b) == StrippedSet(a) + StrippedSet(b)
    decreases |b|
  {
    if b == [] {
      assert a + b == a;
    } else {
      assert (a + b)[..|a + b| - 1] == a + b[..|b| - 1];
      StrippedSetAppend(a, b[..|b| - 1]);
    }
  }

  /** The file after `save_to_history(name)`: mode "a" creates a missing file, then adds a line. */
  function Appended(file: Option<string>, name: string): (file': Option<string>)
    ensures file'.Some?
  {
    match file
    case None => Some(name + "\n")
    case Some(content) => Some(content + name + "\n")
  }

  /** A history file that only `save_to_history` wrote: absent, empty, or ending in a newline. */
  predicate WellFormed(file: Option<string>)
  {
    file.None? || EndsLine(file.value)
  }

  /** Number of lines in the file: the number of entries ever appended. */
  function EntryCount(file: Option<string>): nat
  {
    if file.None? then 0 else |Lines(file.value)|
  }

  /** The text of the file; a missing file reads like an empty one. */
  function FileText(file: Option<string>): string
  {
    if file.None? then "" else file.value
  }

  lemma LinesOfText(file: Option<string>)
    ensures LoadHistory(file) == StrippedSet(Lines(FileText(file)))
    ensures EntryCount(file) == |Lines(FileText(file))|
  {
    if file.None? {
      assert Lines("") == [];
    }
  }

  lemma AppendedText(file: Option<string>, name: string)
    ensures FileText(Appended(file, name)) == FileText(file) + (name + "\n")
  {
    if file.None? {
      assert FileText(file) + (name + "\n") == name + "\n";
    } else {
      assert file.value + name + "\n" == file.value + (name + "\n");
    }
  }

  /** The lines after an append are the old lines and one more, holding the name. */
  lemma LinesAfterAppend(file: Option<string>, name: string)
    requires WellFormed(file)
    requires '\n' !in name
    ensures Lines(FileText(Appended(file, name))) == Lines(FileText(file)) + [name + "\n"]
    ensures WellFormed(Appended(file, name))
  {
    AppendedText(file, name);
    LinesOfOneLine(name);
    LinesAppend(FileText(file), name + "\n");
  }

  /**
    Loading after an append yields the old history plus the stripped name, and the file keeps
    ending in a newline: a duplicate append only repeats a membership.
  */
  lemma LoadAfterAppend(file: Option<string>, name: string)
    requires WellFormed(file)
    requires '\n' !in name
    ensures WellFormed(Appended(file, name))
    ensures LoadHistory(Appended(file, name)) == LoadHistory(file) + {Strip(name)}
    ensures EntryCount(Appended(file, name)) == EntryCount(file) + 1
  {
    var file' := Appended(file, name);
    var entry := name + "\n";
    LinesAfterAppend(file, name);
    LinesOfText(file);
    LinesOfText(file');
    StrippedSetAppend(Lines(FileText(file)), [entry]);
    StripIgnoresTrailingSpace(name, '\n');
    assert StrippedSet([entry]) == {Strip(name)} by {
      assert [entry][..0] == [];
    }
  }

  /** Saving a name whose stripped form is already loaded leaves the loaded history as it was. */
  lemma DuplicateLineCollapses(file: Option<string>, name: string)
    requires WellFormed(file) && '\n' !in name
    requires Strip(name) in LoadHistory(file)
    ensures LoadHistory(Appended(file, name)) == LoadHistory(file)
    ensures EntryCount(Appended(file, name)) == EntryCount(file) + 1
  {
    LoadAfterAppend(file, name);
  }

  /** Appending the names of a batch, one `save_to_history` call after the other. */
  function AppendAll(file: Option<string>, names: seq<string>): Option<string>
  {
    if names == [] then file else Appended(AppendAll(file, names[..|names| - 1]), names[|names| - 1])
  }

  /** After a batch of appends the history holds exactly the old entries and the stripped new names. */
  lemma {:induction false} LoadAfterAppendAll(file: Option<string>, names: seq<string>)
    requires WellFormed(file)
    requires forall i :: 0 <= i < |names| ==> '\n' !in names[i]
    ensures WellFormed(AppendAll(file, names))
    ensures LoadHistory(AppendAll(file, names)) == LoadHistory(file) + StrippedSet(names)
    ensures EntryCount(AppendAll(file, names)) == EntryCount(file) + |names|
  {
    if names != [] {
      var init, last := names[..|names| - 1], names[|names| - 1];
      LoadAfterAppendAll(file, init);
      LoadAfterAppend(AppendAll(file, init), last);
      assert names[..|names| - 1] == init;
    }
  }

  /**
    A history file whose last line has no newline: the next save continues that line, so the
    two names load back as one and neither is recognised.
  */
  lemma UnterminatedLineGlues()
    ensures LoadHistory(Appended(Some("X.m4a"), "A.m4a")) == {"X.m4aA.m4a"}
    ensures "X.m4a" !in LoadHistory(Appended(Some("X.m4a"), "A.m4a"))
    ensures "A.m4a" !in LoadHistory(Appended(Some("X.m4a"), "A.m4a"))
  {
    var glued := "X.m4aA.m4a";
    assert "X.m4a" + "A.m4a" == glued;
    assert Appended(Some("X.m4a"), "A.m4a") == Some(glued + "\n");
    assert '\n' !in glued;
    LinesOfOneLine(glued);
    assert [glued + "\n"][..0] == [];
    assert StrippedSet([glued + "\n"]) == {Strip(glued + "\n")};
    StripIgnoresTrailingSpace(glued, '\n');
    assert glued + ['\n'] == glued + "\n";
    StripOfStripped(glued);
    assert "X.m4a" != glued && "A.m4a" != glued by {
      assert |"X.m4a"| != |glued|;
    }
  }

  /**
    A name with surrounding whitespace is recorded, but what is loaded back is its stripped
    form, so the name itself is never found in the history.
  */
  lemma PaddedNameNotRecognised()
    ensures " A.m4a" !in LoadHistory(Appended(None, " A.m4a"))
    ensures LoadHistory(Appended(None, " A.m4a")) == {"A.m4a"}
  {
    var padded, name := " A.m4a", "A.m4a";
    assert Strip(padded) == name by {
      assert TrimStart(padded) == TrimStart(name) by {
        assert padded[1..] == name && IsSpace(padded[0]);
      }
      assert TrimStart(name) == name by {
        assert !IsSpace(name[0]);
      }
      StripOfStripped(name);
    }
    assert LoadHistory(Appended(None, padded)) == {name} by {
      LoadAfterAppend(None, padded);
    }
    assert padded != name by {
      assert |padded| != |name|;
    }
  }
}
