/**
  The recordings `main` finds in the Voice Memos folder, what the outside world does when each
  one is processed, and the choice of the new ones (transcriber.py, the `new_files` list).
*/
module Selection {
  import opened Wrappers
  import opened Text
  import opened Analysis

  /** The recording's modification time as `main` formats it: `%Y-%m-%d` and `%H%M`. */
  datatype Stamp = Stamp(date: string, time: string)

  /**
    The outcome of each external step for one recording: the staging copy to `/tmp`, the
    transcription (`None` when it raises), the model's parsed reply (`None` when the call or the
    parsing raised), the move into the audio store, the note write, and `save_to_history`.
  */
  datatype Effects = Effects(
    staged: bool,
    transcript: Option<string>,
    reply: Option<Reply>,
    moved: bool,
    written: bool,
    appended: bool)

  /**
    One `*.m4a` path of the listing, with its size and modification time (`None` when
    `os.path.getsize` or `os.path.getmtime` raises) and what processing it would meet.
  */
  datatype Listed = Listed(path: string, size: Option<nat>, modified: Option<Stamp>, fx: Effects)

  /**
    `[f for f in all_files if os.path.basename(f) not in processed_files]`, in listing order.
  */
  function NewFiles(all: seq<Listed>, processed: set<string>): (r: seq<Listed>)
    ensures |r| <= |all|
    ensures forall i :: 0 <= i < |r| ==> Basename(r[i].path) !in processed
  {
    if all == [] then []
    else (if Basename(all[0].path) in processed then [] else [all[0]]) + NewFiles(all[1..], processed)
  }

  /**
    The selection holds every listed file whose name is not in the history, as often as it is
    listed, and no other file.
  */
  lemma {:induction false} NewFilesSelects(all: seq<Listed>, processed: set<string>)
    ensures forall x :: multiset(NewFiles(all, processed))[x] ==
                       (if Basename(x.path) in processed then 0 else multiset(all)[x])
  {
    if all != [] {
      assert all == [all[0]] + all[1..];
      NewFilesSelects(all[1..], processed);
    }
  }

  /** The selection keeps the listing order: it works file by file. */
  lemma {:induction false} NewFilesAppend(a: seq<Listed>, b: seq<Listed>, processed: set<string>)
    ensures NewFiles(a + b, processed) == NewFiles(a, processed) + NewFiles(b, processed)
  {
    if a == [] {
      assert a + b == b;
    } else {
      var head := if Basename(a[0].path) in processed then [] else [a[0]];
      assert (a + b)[0] == a[0];
      assert (a + b)[1..] == a[1..] + b;
      assert NewFiles(a + b, processed) == head + NewFiles(a[1..] + b, processed);
      NewFilesAppend(a[1..], b, processed);
      assert head + (NewFiles(a[1..], processed) + NewFiles(b, processed))
        == (head + NewFiles(a[1..], processed)) + NewFiles(b, processed);
    }
  }

  /** A listed file is selected exactly when its name is not in the history. */
  lemma NewFilesMembership(all: seq<Listed>, processed: set<string>)
    ensures forall l :: l in NewFiles(all, processed) <==> l in all && Basename(l.path) !in processed
  {
    NewFilesSelects(all, processed);
    forall l
      ensures l in NewFiles(all, processed) <==> l in all && Basename(l.path) !in processed
    {
      assert l in NewFiles(all, processed) <==> multiset(NewFiles(all, processed))[l] > 0;
      assert l in all <==> multiset(all)[l] > 0;
    }
  }

  /** Once every listed name is in the history, a run finds nothing to do. */
  lemma NothingNewWhenAllRecorded(all: seq<Listed>, processed: set<string>)
    requires forall i :: 0 <= i < |all| ==> Basename(all[i].path) in processed
    ensures NewFiles(all, processed) == []
  {
    var r := NewFiles(all, processed);
    if r != [] {
      NewFilesSelects(all, processed);
    }
  }
}
