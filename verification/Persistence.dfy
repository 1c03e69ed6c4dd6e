/** Saving the state file: write a neighbour, flush it, rename it over the old one. A crash between two operations
    leaves the files exactly as a failure of the second one does, so the failing saves below cover every crash point. */
module Persistence {
  import opened Units
  import opened Domain
  import opened Executor

  /** File contents, and whether they have been forced to stable storage. */
  datatype File = File(text: string, synced: bool)

  /** The state file, its temporary neighbour, and the versions of the state file that renames have replaced: the
      directory itself is never flushed, so a power cut may bring an older entry back. */
  datatype Fs = Fs(main: Option<File>, tmp: Option<File>, older: seq<Option<File>>)

  datatype Answers = Answers(create: bool, write: bool, partial: string, sync: bool, rename: bool)

  /** What is left after a power cut: some version of the entry, garbled if it was never flushed. */
  function AfterPowerCut(fs: Fs, version: nat, garbage: string): Option<string>
    requires version <= |fs.older|
  {
    var entry := if version < |fs.older| then fs.older[version] else fs.main;
    if entry.None? then None else Some(if entry.value.synced then entry.value.text else garbage)
  }

  function Text(entry: Option<File>): Option<string> {
    if entry.Some? then Some(entry.value.text) else None
  }

  /** Every version of the state file that could come back has been flushed. */
  predicate Sound(fs: Fs) {
    && (fs.main.Some? ==> fs.main.value.synced)
    && forall e :: e in fs.older && e.Some? ==> e.value.synced
  }

  // ---- Saving --------------------------------------------------------------

  function Saved(fs: Fs, text: string, a: Answers): Fs {
    if !a.create then fs
    else if !a.write then fs.(tmp := Some(File(a.partial, false)))
    else if !a.sync then fs.(tmp := Some(File(text, false)))
    else if !a.rename then fs.(tmp := Some(File(text, true)))
    else Fs(Some(File(text, true)), None, fs.older + [fs.main])
  }

  class Persister {
    var fs: Fs

    constructor (fs: Fs)
      ensures this.fs == fs
    {
      this.fs := fs;
    }

    /** Errors are swallowed: whatever fails, the daemon goes on and the old file stays. */
    method Save(rendered: Result<string>, a: Answers)
      modifies this
      ensures fs == if rendered.Ok? then Saved(old(fs), rendered.value, a) else old(fs)
    {
      if rendered.Err? {
        return;
      }
      var text := rendered.value;
      if !a.create {
        return;
      }
      fs := fs.(tmp := Some(File("", false)));
      if !a.write {
        fs := fs.(tmp := Some(File(a.partial, false)));
        return;
      }
      fs := fs.(tmp := Some(File(text, false)));
      if !a.sync {
        return;
      }
      fs := fs.(tmp := Some(File(text, true)));
      if !a.rename {
        return;
      }
      fs := Fs(fs.tmp, None, fs.older + [fs.main]);
    }

    /** A missing, unreadable or unparsable file loads as nothing. */
    method Load(parse: string -> Option<ProfileState>, readable: bool) returns (state: Option<ProfileState>)
      ensures state == if readable then Loaded(parse, Text(fs.main)) else None
    {
      if fs.main.None? || !readable {
        return None;
      }
      state := parse(fs.main.value.text);
    }
  }

  function Loaded(parse: string -> Option<ProfileState>, text: Option<string>): Option<ProfileState> {
    if text.None? then None else parse(text.value)
  }

  // ---- What one save promises ---------------------------------------------------

  /** A save that completes is what a reader sees; any other save leaves the reader with the old contents. */
  lemma SaveIsAtomic(fs: Fs, text: string, a: Answers)
    ensures Text(Saved(fs, text, a).main)
         == if Completed(a) then Some(text) else Text(fs.main)
  {
  }

  /** Across a power cut the file is the old one or the new one, whole: no garbage, nothing truncated, wherever the
      save was interrupted. */
  lemma PowerCutSafe(fs: Fs, text: string, a: Answers, version: nat, garbage: string)
    requires Sound(fs)
    requires version <= |Saved(fs, text, a).older|
    ensures Sound(Saved(fs, text, a))
    ensures var left := AfterPowerCut(Saved(fs, text, a), version, garbage);
            left == Some(text) || exists v: nat :: v <= |fs.older| && left == AfterPowerCut(fs, v, garbage)
  {
    var after := Saved(fs, text, a);
    if version <= |fs.older| {
      assert AfterPowerCut(after, version, garbage) == AfterPowerCut(fs, version, garbage)
          || AfterPowerCut(after, version, garbage) == Some(text);
    }
  }

  /** Durability is not promised: the directory is never flushed, so even a completed save may be lost to a power cut,
      and what comes back is the file it replaced. */
  lemma OlderFileCanReturn(fs: Fs, text: string, a: Answers, garbage: string)
    requires Completed(a) && Sound(fs)
    ensures AfterPowerCut(Saved(fs, text, a), |fs.older|, garbage) == Text(fs.main)
    ensures AfterPowerCut(Saved(fs, text, a), |fs.older| + 1, garbage) == Some(text)
  {
  }

  /** The flush is what makes it so: renaming an unflushed file would let a power cut leave garbage. */
  lemma UnflushedRenameIsUnsafe(fs: Fs, text: string, garbage: string)
    requires garbage != text
    ensures var after := Fs(Some(File(text, false)), None, fs.older + [fs.main]);
            !Sound(after) && AfterPowerCut(after, |after.older|, garbage) == Some(garbage)
  {
  }

  // ---- Any number of saves ---------------------------------------------------------

  datatype Attempt = Attempt(state: ProfileState, answers: Answers)

  predicate Completed(a: Answers) {
    a.create && a.write && a.sync && a.rename
  }

  function SavedAll(fs: Fs, render: ProfileState -> string, attempts: seq<Attempt>): Fs
    decreases |attempts|
  {
    if attempts == [] then fs
    else SavedAll(Saved(fs, render(attempts[0].state), attempts[0].answers), render, attempts[1..])
  }

  /** Rendering then parsing yields the persisted part of a state. */
  ghost predicate RoundTrips(render: ProfileState -> string, parse: string -> Option<ProfileState>) {
    forall s :: parse(render(s)) == Some(Persisted(s))
  }

  /** The states a reader may find: one of the versions already there, or one that was attempted. */
  ghost predicate FromHistory(found: Option<ProfileState>, fs: Fs, parse: string -> Option<ProfileState>,
                              garbage: string, attempts: seq<Attempt>) {
    || (exists v: nat :: v <= |fs.older| && found == Loaded(parse, AfterPowerCut(fs, v, garbage)))
    || (exists i :: 0 <= i < |attempts| && found == Some(Persisted(attempts[i].state)))
  }

  /** After any number of saves, each interrupted anywhere, and a power cut at the end, the daemon restarts from a
      state it really had: one it saved, or what was there at the beginning. */
  lemma {:induction false} RestartsFromHistory(fs: Fs, render: ProfileState -> string,
                                               parse: string -> Option<ProfileState>, attempts: seq<Attempt>,
                                               version: nat, garbage: string)
    requires Sound(fs) && RoundTrips(render, parse)
    requires version <= |SavedAll(fs, render, attempts).older|
    ensures Sound(SavedAll(fs, render, attempts))
    ensures FromHistory(Loaded(parse, AfterPowerCut(SavedAll(fs, render, attempts), version, garbage)), fs, parse,
                        garbage, attempts)
    decreases |attempts|
  {
    if attempts != [] {
      var text, a := render(attempts[0].state), attempts[0].answers;
      var next := Saved(fs, text, a);
      PowerCutSafe(fs, text, a, 0, garbage);
      RestartsFromHistory(next, render, parse, attempts[1..], version, garbage);
      var found := Loaded(parse, AfterPowerCut(SavedAll(fs, render, attempts), version, garbage));
      if v: nat :| v <= |next.older| && found == Loaded(parse, AfterPowerCut(next, v, garbage)) {
        PowerCutSafe(fs, text, a, v, garbage);
        if AfterPowerCut(next, v, garbage) == Some(text) {
          assert found == Some(Persisted(attempts[0].state));
        }
      } else {
        var i :| 0 <= i < |attempts[1..]| && found == Some(Persisted(attempts[1..][i].state));
        assert attempts[1..][i] == attempts[i + 1];
      }
    }
  }

  /** The last save that completed, if any. */
  function LastCompleted(attempts: seq<Attempt>): Option<ProfileState> {
    if attempts == [] then None
    else if Completed(attempts[|attempts| - 1].answers) then Some(attempts[|attempts| - 1].state)
    else LastCompleted(attempts[..|attempts| - 1])
  }

  lemma {:induction false} SavedAllSplits(fs: Fs, render: ProfileState -> string, attempts: seq<Attempt>, last: Attempt)
    ensures SavedAll(fs, render, attempts + [last])
              == Saved(SavedAll(fs, render, attempts), render(last.state), last.answers)
    decreases |attempts|
  {
    if attempts == [] {
      assert attempts + [last] == [last] && [last][1..] == [];
    } else {
      assert (attempts + [last])[0] == attempts[0] && (attempts + [last])[1..] == attempts[1..] + [last];
      SavedAllSplits(Saved(fs, render(attempts[0].state), attempts[0].answers), render, attempts[1..], last);
    }
  }

  /** Without a power cut, a restart loads exactly the last save that completed. */
  lemma {:induction false} LoadsLastCompleted(fs: Fs, render: ProfileState -> string,
                                              parse: string -> Option<ProfileState>, attempts: seq<Attempt>)
    requires RoundTrips(render, parse)
    ensures Loaded(parse, Text(SavedAll(fs, render, attempts).main))
         == match LastCompleted(attempts)
            case Some(s) => Some(Persisted(s))
            case None => Loaded(parse, Text(fs.main))
    decreases |attempts|
  {
    if attempts != [] {
      var init, last := attempts[..|attempts| - 1], attempts[|attempts| - 1];
      assert attempts == init + [last];
      SavedAllSplits(fs, render, init, last);
      SaveIsAtomic(SavedAll(fs, render, init), render(last.state), last.answers);
      LoadsLastCompleted(fs, render, parse, init);
    }
  }
}
