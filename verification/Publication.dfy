/** Publishing private files (src/tendwire/local_state.py): complete content written to a temporary name
    and then given its destination, by a link that never replaces or by a rename. */
module Publication {
  import opened Options
  import opened FileSystem
  import opened PublishedEntries

  const ATTEMPTS := 16

  datatype WriteOutcome = Took(count: nat) | WriteInterrupted | WriteFailed

  /** The system calls that publishing uses; others act before each of them. */
  class Disk {
    var fs: Fs
    var script: seq<Moment>
    ghost var trace: seq<Event>

    ghost predicate Valid()
      reads this
    {
      FsOk(fs) && (trace != [] ==> After(trace[|trace| - 1]) == fs)
    }

    constructor (fs: Fs, script: seq<Moment>)
      requires FsOk(fs)
      ensures Valid() && this.fs == fs && this.script == script && trace == []
    {
      this.fs, this.script, trace := fs, script, [];
    }

    method Pause() returns (m: Moment, last: bool)
      requires Valid()
      modifies this
      ensures Valid() && Later(old(fs), fs) && fs.fds == old(fs).fds && fs.nextFd == old(fs).nextFd
      ensures Extends(old(trace), old(fs), trace, fs, None)
      ensures if last then m == QUIET && script == old(script) == [] else |script| < |old(script)|
    {
      m, last := QUIET, script == [];
      if script != [] { m, script := script[0], script[1..]; }
      AllDoneIsLater(fs, m.acts);
      ghost var f, t := fs, trace;
      TheirLast(fs, m.acts);
      trace := trace + TheirTrace(fs, m.acts);
      fs := AllDone(fs, m.acts);
      assert Extended(t, f, trace, fs, None, m.acts);
      assert trace != [] ==> After(trace[|trace| - 1]) == fs by { if m.acts != [] { assert trace[|trace| - 1] == TheirTrace(f, m.acts)[|m.acts| - 1]; } }
    }

    /** Our step takes effect. */
    method Act(op: Op, ghost f: Fs, ghost t: seq<Event>)
      requires Valid() && Extends(t, f, trace, fs, None) && Possible(fs, op)
      modifies this`fs, this`trace
      ensures Valid() && fs == Effect(old(fs), op) && Later(old(fs), fs) && Extends(t, f, trace, fs, Some(op))
    {
      EffectIsLater(fs, op);
      ghost var acts :| Extended(t, f, trace, fs, None, acts);
      trace := trace + [Ours(fs, op)];
      fs := Effect(fs, op);
      assert Extended(t, f, trace, fs, Some(op), acts);
    }

    /** Flush the directory. */
    method SyncDirectory() returns (r: Outcome<Unit>)
      requires Valid()
      modifies this
      ensures Valid() && Later(old(fs), fs) && fs.fds == old(fs).fds && Extends(old(trace), old(fs), trace, fs, None)
      ensures r == Ok(Unit) || r == Raise(OperationFailed)
    {
      var m, _ := Pause();
      return if m.fails then Raise(OperationFailed) else Ok(Unit);
    }

    method Lstat(name: Name) returns (r: Outcome<Option<Stat>>)
      requires Valid()
      modifies this
      ensures Valid() && Later(old(fs), fs) && fs.fds == old(fs).fds && Extends(old(trace), old(fs), trace, fs, None)
      ensures r == Raise(OperationFailed) || r == Ok(if name in fs.names then Some(StatOf(fs, fs.names[name])) else None)
    {
      var m, _ := Pause();
      if m.fails { return Raise(OperationFailed); }
      return Ok(if name in fs.names then Some(StatOf(fs, fs.names[name])) else None);
    }

    method Fstat(d: Fd) returns (r: Outcome<Stat>)
      requires Valid() && d in fs.fds
      modifies this
      ensures Valid() && Later(old(fs), fs) && fs.fds == old(fs).fds && Extends(old(trace), old(fs), trace, fs, None)
      ensures r == Raise(OperationFailed) || r == Ok(StatOf(fs, fs.fds[d]))
    {
      var m, _ := Pause();
      return if m.fails then Raise(OperationFailed) else Ok(StatOf(fs, fs.fds[d]));
    }

    /** An exclusive create. */
    method Create(name: Name) returns (r: Outcome<Fd>, ghost ino: Ino, ghost mask: Mode)
      requires Valid()
      modifies this
      ensures Valid() && Later(old(fs), fs)
      ensures r.Raise? ==> fs.fds == old(fs).fds && Extends(old(trace), old(fs), trace, fs, None)
      ensures r.Ok? ==> r.value !in old(fs).fds && fs.fds == old(fs).fds[r.value := ino]
                        && 0 < fs.serials && Pinned(fs, r.value, ino, fs.serials - 1)
                        && Extends(old(trace), old(fs), trace, fs, Some(NewFile(name, ino, mask)))
    {
      ghost var f, t := fs, trace;
      var m, _ := Pause();
      ino, mask := m.ino, m.mask;
      if m.fails { return Raise(OperationFailed), ino, mask; }
      if name in fs.names { return Raise(EntryExists), ino, mask; }
      if m.ino in fs.table { return Raise(OperationFailed), ino, mask; }
      r := Ok(fs.nextFd);
      ghost var g := fs;
      Act(NewFile(name, m.ino, m.mask), f, t);
      LaterTransitive(f, g, fs);
    }

    /** One write call: part of the bytes, an interruption, or a failure. */
    method WriteSome(d: Fd, bytes: seq<Byte>) returns (r: WriteOutcome)
      requires Valid() && d in fs.fds && bytes != []
      modifies this
      ensures Valid() && Later(old(fs), fs) && fs.fds == old(fs).fds && |script| <= |old(script)|
      ensures r.WriteInterrupted? ==> |script| < |old(script)|
      ensures if r.Took? && r.count > 0 then r.count <= |bytes| && Extends(old(trace), old(fs), trace, fs, Some(Append(d, bytes[..r.count])))
              else Extends(old(trace), old(fs), trace, fs, None)
    {
      ghost var f, t := fs, trace;
      var m, last := Pause();
      if m.fails { return if m.taken > 0 then WriteInterrupted else WriteFailed; }
      var count := if last || m.taken > |bytes| then |bytes| else m.taken;
      if count > 0 {
        ghost var g := fs;
        Act(Append(d, bytes[..count]), f, t);
        LaterTransitive(f, g, fs);
      }
      return Took(count);
    }

    method Flush(d: Fd) returns (r: Outcome<Unit>)
      requires Valid() && d in fs.fds
      modifies this
      ensures Valid() && Later(old(fs), fs) && fs.fds == old(fs).fds && (r == Ok(Unit) || r == Raise(OperationFailed))
      ensures Extends(old(trace), old(fs), trace, fs, if r.Ok? then Some(PublishedEntries.Flush(d)) else None)
    {
      r := Try(PublishedEntries.Flush(d));
    }

    method Fchmod(d: Fd, mode: Mode) returns (r: Outcome<Unit>)
      requires Valid() && d in fs.fds
      modifies this
      ensures Valid() && Later(old(fs), fs) && fs.fds == old(fs).fds && (r == Ok(Unit) || r == Raise(OperationFailed))
      ensures Extends(old(trace), old(fs), trace, fs, if r.Ok? then Some(SetMode(d, mode)) else None)
    {
      r := Try(SetMode(d, mode));
    }

    /** A step that happens unless it fails. */
    method Try(op: Op) returns (r: Outcome<Unit>)
      requires Valid() && (op.Flush? || op.SetMode? || op.Drop? || op.RenameTo?)
      modifies this
      ensures Valid() && Later(old(fs), fs) && fs.fds == old(fs).fds && (r == Ok(Unit) || r == Raise(OperationFailed))
      ensures Extends(old(trace), old(fs), trace, fs, if r.Ok? then Some(op) else None)
    {
      ghost var f, t := fs, trace;
      var m, _ := Pause();
      if m.fails || (op.Drop? && op.name !in fs.names) || (op.RenameTo? && op.source !in fs.names) { return Raise(OperationFailed); }
      ghost var g := fs;
      Act(op, f, t);
      LaterTransitive(f, g, fs);
      return Ok(Unit);
    }

    /** A link; an existing name is an error. */
    method Link(source: Name, name: Name) returns (r: Outcome<Unit>)
      requires Valid()
      modifies this
      ensures Valid() && Later(old(fs), fs) && fs.fds == old(fs).fds
      ensures Extends(old(trace), old(fs), trace, fs, if r.Ok? then Some(LinkTo(source, name)) else None)
    {
      ghost var f, t := fs, trace;
      var m, _ := Pause();
      if m.fails || source !in fs.names { return Raise(OperationFailed); }
      if name in fs.names { return Raise(EntryExists); }
      ghost var g := fs;
      Act(LinkTo(source, name), f, t);
      LaterTransitive(f, g, fs);
      return Ok(Unit);
    }

    /** Open an existing entry; ours to close. */
    method Open(name: Name) returns (r: Outcome<Fd>)
      requires Valid()
      modifies this
      ensures Valid() && Later(old(fs), fs) && (r.Raise? ==> r.error.OperationFailed? && fs.fds == old(fs).fds)
      ensures Extends(old(trace), old(fs), trace, fs, if r.Ok? then Some(OpenFile(name)) else None)
      ensures r.Ok? ==> r.value !in old(fs).fds && name in fs.names && fs.fds == old(fs).fds[r.value := fs.names[name]]
    {
      ghost var f, t := fs, trace;
      var m, _ := Pause();
      if m.fails || name !in fs.names { return Raise(OperationFailed); }
      r := Ok(fs.nextFd);
      ghost var g := fs;
      Act(OpenFile(name), f, t);
      LaterTransitive(f, g, fs);
    }

    method Close(d: Fd)
      requires Valid() && d in fs.fds
      modifies this`fs, this`trace
      ensures Valid() && Later(old(fs), fs) && fs.fds == old(fs).fds - {d} && Extends(old(trace), old(fs), trace, fs, Some(CloseFd(d)))
    {
      assert Extended(trace, fs, trace, fs, None, []);
      Act(CloseFd(d), fs, trace);
    }
  }

  lemma {:induction false} TheirLast(f: Fs, acts: seq<Outside>)
    ensures acts != [] ==> After(TheirTrace(f, acts)[|acts| - 1]) == AllDone(f, acts)
  {
  }

  // ----- A publication under way -----

  datatype Watch = Watch(start: Fs, since: nat)

  ghost predicate Going(d: Disk, w: Watch, p: Plan, stage: Stage, entry: Entry)
    reads d
  {
    d.Valid() && OnTrack(w.start, d.trace, w.since, d.fs, p, stage, entry)
  }

  /** Our descriptor is open on our object. */
  ghost predicate Holding(d: Disk, keys: set<Fd>, fd: Fd, ino: Ino, p: Plan)
    reads d
  {
    Pinned(d.fs, fd, ino, p.serial) && fd !in keys && d.fs.fds.Keys == keys + {fd}
  }

  method Look(d: Disk, name: Name, ghost w: Watch, ghost p: Plan, ghost stage: Stage, ghost entry: Entry) returns (r: Outcome<Option<Stat>>)
    requires Going(d, w, p, stage, entry) && !stage.Unmade?
    modifies d
    ensures Going(d, w, p, stage, entry) && Later(old(d.fs), d.fs) && d.fs.fds == old(d.fs).fds && old(d.trace) <= d.trace
    ensures r == Raise(OperationFailed) || r == Ok(if name in d.fs.names then Some(StatOf(d.fs, d.fs.names[name])) else None)
  {
    hide OnTrack;
    ghost var f, t := d.fs, d.trace;
    r := d.Lstat(name);
    Waited(w.start, t, w.since, f, p, stage, entry, d.trace, d.fs);
  }

  /** A lookup while our descriptor is open; then the number it finds can be told to be our object's. */
  method LookHeld(d: Disk, name: Name, fd: Fd, ghost keys: set<Fd>, ghost ino: Ino, ghost w: Watch, ghost p: Plan, ghost stage: Stage, ghost entry: Entry)
    returns (r: Outcome<Option<Stat>>)
    requires Going(d, w, p, stage, entry) && !stage.Unmade? && Holding(d, keys, fd, ino, p)
    modifies d
    ensures Going(d, w, p, stage, entry) && Holding(d, keys, fd, ino, p) && old(d.trace) <= d.trace
    ensures r == Raise(OperationFailed) || r == Ok(if name in d.fs.names then Some(StatOf(d.fs, d.fs.names[name])) else None)
  {
    hide OnTrack;
    r := Look(d, name, w, p, stage, entry);
  }

  method StatOpen(d: Disk, fd: Fd, ghost keys: set<Fd>, ghost ino: Ino, ghost w: Watch, ghost p: Plan, ghost stage: Stage, ghost entry: Entry)
    returns (r: Outcome<Stat>)
    requires Going(d, w, p, stage, entry) && !stage.Unmade? && Holding(d, keys, fd, ino, p)
    modifies d
    ensures Going(d, w, p, stage, entry) && Holding(d, keys, fd, ino, p) && (r.Ok? ==> r.value.ino == ino) && old(d.trace) <= d.trace
    ensures r.Ok? ==> ino in d.fs.table && r.value.mode == d.fs.table[ino].mode
  {
    hide OnTrack;
    ghost var f, t := d.fs, d.trace;
    r := d.Fstat(fd);
    Waited(w.start, t, w.since, f, p, stage, entry, d.trace, d.fs);
  }

  method Chmod(d: Disk, fd: Fd, mode: Mode, ghost keys: set<Fd>, ghost ino: Ino, ghost w: Watch, ghost p: Plan, ghost stage: Stage, ghost entry: Entry)
    returns (r: Outcome<Unit>)
    requires Going(d, w, p, stage, entry) && !stage.Unmade? && Holding(d, keys, fd, ino, p)
    modifies d
    ensures Going(d, w, p, stage, entry) && Holding(d, keys, fd, ino, p) && old(d.trace) <= d.trace && (r.Ok? ==> w.since < |d.trace|)
  {
    hide OnTrack;
    ghost var f, t := d.fs, d.trace;
    r := d.Fchmod(fd, mode);
    if r.Ok? {
      StepTaken(w.start, t, w.since, f, p, stage, entry, d.trace, d.fs, SetMode(fd, mode));
      Aside(w.start, t, w.since, f, p, stage, entry, d.trace, d.fs, SetMode(fd, mode));
    } else { Waited(w.start, t, w.since, f, p, stage, entry, d.trace, d.fs); }
  }

  method Release(d: Disk, fd: Fd, ghost keys: set<Fd>, ghost ino: Ino, ghost w: Watch, ghost p: Plan, ghost stage: Stage, ghost entry: Entry)
    requires Going(d, w, p, stage, entry) && !stage.Unmade? && Holding(d, keys, fd, ino, p)
    modifies d
    ensures Going(d, w, p, stage, entry) && d.fs.fds.Keys == keys && old(d.trace) <= d.trace
  {
    hide OnTrack;
    ghost var f, t := d.fs, d.trace;
    d.Close(fd);
    Aside(w.start, t, w.since, f, p, stage, entry, d.trace, d.fs, CloseFd(fd));
  }

  function AfterDrop(entry: Entry): Entry {
    if entry.Published? then Published else Abandoned
  }

  method DropTemporary(d: Disk, temp: Name, ghost w: Watch, ghost p: Plan, ghost stage: Stage, ghost entry: Entry) returns (r: Outcome<Unit>)
    requires Going(d, w, p, stage, entry) && !stage.Unmade? && !stage.Existing? && temp == p.temp
    modifies d
    ensures Going(d, w, p, stage, if r.Ok? then AfterDrop(entry) else entry)
    ensures Later(old(d.fs), d.fs) && d.fs.fds == old(d.fs).fds && old(d.trace) <= d.trace
  {
    hide OnTrack;
    ghost var f, t := d.fs, d.trace;
    r := d.Try(Drop(temp));
    if r.Ok? { Dropped(w.start, t, w.since, f, p, stage, entry, d.trace, d.fs); }
    else { Waited(w.start, t, w.since, f, p, stage, entry, d.trace, d.fs); }
  }

  /** Take the temporary entry back if it still leads to this inode; failures are ignored. */
  method TakeBack(d: Disk, temp: Name, identity: Ino, ghost w: Watch, ghost p: Plan, ghost stage: Stage, ghost entry: Entry)
    requires Going(d, w, p, stage, entry) && !stage.Unmade? && !stage.Existing? && temp == p.temp
    modifies d
    ensures Going(d, w, p, stage, AfterDrop(entry)) && d.fs.fds == old(d.fs).fds && old(d.trace) <= d.trace
  {
    hide OnTrack;
    var current := Look(d, temp, w, p, stage, entry);
    var dropped := Raise(OperationFailed);
    if current.Ok? && current.value.Some? && current.value.value.ino == identity {
      dropped := DropTemporary(d, temp, w, p, stage, entry);
    }
    if dropped.Raise? { StopsTrying(w.start, d.trace, w.since, d.fs, p, stage, entry); }
    if dropped.Ok? {
      ghost var f, t := d.fs, d.trace;
      var _ := d.SyncDirectory();
      Waited(w.start, t, w.since, f, p, stage, AfterDrop(entry), d.trace, d.fs);
    }
  }

  lemma {:induction false} StopsTrying(start: Fs, trace: seq<Event>, since: nat, f: Fs, p: Plan, stage: Stage, entry: Entry)
    requires OnTrack(start, trace, since, f, p, stage, entry)
    ensures OnTrack(start, trace, since, f, p, stage, AfterDrop(entry))
  {
    hide OnTrack;
    if entry.Before? { GivenUp(start, trace, since, f, p, stage); }
  }

  // ----- Writing -----

  /** `_write_all`: however the writes are cut up or interrupted, a return means every byte is in the file,
      in order. */
  method WriteAll(d: Disk, fd: Fd, content: seq<Byte>, ghost keys: set<Fd>, ghost ino: Ino, ghost w: Watch, ghost p: Plan)
    returns (r: Outcome<Unit>, ghost written: seq<Byte>)
    requires Going(d, w, p, Writing([]), Before) && Holding(d, keys, fd, ino, p)
    modifies d
    ensures Going(d, w, p, Writing(written), Before) && Holding(d, keys, fd, ino, p) && old(d.trace) <= d.trace
    ensures written <= content && (r.Ok? ==> written == content) && (r == Ok(Unit) || r == Raise(OperationFailed))
  {
    hide Going;
    hide Holding;
    var remaining := content;
    written := [];
    while remaining != []
      invariant Going(d, w, p, Writing(written), Before) && Holding(d, keys, fd, ino, p) && old(d.trace) <= d.trace
      invariant written + remaining == content
      decreases |remaining|, |d.script|
    {
      var taken := WriteOnce(d, fd, remaining, keys, ino, w, p, written);
      if taken.WriteInterrupted? { continue; }
      if taken.WriteFailed? || taken.count == 0 {
        assert written + remaining[..0] == written;
        return Raise(OperationFailed), written;
      }
      written := written + remaining[..taken.count];
      remaining := remaining[taken.count..];
    }
    return Ok(Unit), written;
  }

  method WriteOnce(d: Disk, fd: Fd, bytes: seq<Byte>, ghost keys: set<Fd>, ghost ino: Ino, ghost w: Watch, ghost p: Plan, ghost written: seq<Byte>)
    returns (r: WriteOutcome)
    requires Going(d, w, p, Writing(written), Before) && Holding(d, keys, fd, ino, p) && bytes != []
    modifies d
    ensures Holding(d, keys, fd, ino, p) && old(d.trace) <= d.trace && (r.Took? ==> r.count <= |bytes|)
    ensures Going(d, w, p, Writing(if r.Took? then written + bytes[..r.count] else written), Before)
    ensures |d.script| <= |old(d.script)| && (r.WriteInterrupted? ==> |d.script| < |old(d.script)|)
  {
    hide OnTrack;
    ghost var f, t := d.fs, d.trace;
    r := d.WriteSome(fd, bytes);
    if r.Took? && r.count > 0 { Appended(w.start, t, w.since, f, p, written, Before, d.trace, d.fs, fd, ino, bytes[..r.count]); }
    else {
      Waited(w.start, t, w.since, f, p, Writing(written), Before, d.trace, d.fs);
      if r.Took? { assert written + bytes[..0] == written; }
    }
  }

  method Sync(d: Disk, fd: Fd, ghost keys: set<Fd>, ghost ino: Ino, ghost w: Watch, ghost p: Plan) returns (r: Outcome<Unit>, ghost stage: Stage)
    requires Going(d, w, p, Writing(p.content), Before) && Holding(d, keys, fd, ino, p)
    modifies d
    ensures Going(d, w, p, stage, Before) && Holding(d, keys, fd, ino, p) && old(d.trace) <= d.trace
    ensures (r.Ok? ==> stage.Complete?) && !stage.Unmade? && !stage.Existing? && (r == Ok(Unit) || r == Raise(OperationFailed))
  {
    hide OnTrack;
    ghost var f, t := d.fs, d.trace;
    r := d.Flush(fd);
    if r.Ok? {
      stage := Complete;
      Flushed(w.start, t, w.since, f, p, Before, d.trace, d.fs, fd, ino);
    } else {
      stage := Writing(p.content);
      Waited(w.start, t, w.since, f, p, stage, Before, d.trace, d.fs);
    }
  }

  // ----- The temporary file -----

  /** `create_private_file_at` once its file exists. */
  method CheckCreated(d: Disk, temp: Name, fd: Fd, ghost keys: set<Fd>, ghost ino: Ino, ghost w: Watch, ghost p: Plan)
    returns (r: Outcome<Unit>, ghost entry: Entry)
    requires Going(d, w, p, Writing([]), Before) && Holding(d, keys, fd, ino, p) && temp == p.temp
    modifies d
    ensures Going(d, w, p, Writing([]), entry) && old(d.trace) <= d.trace
    ensures r.Ok? ==> entry.Before? && Holding(d, keys, fd, ino, p)
    ensures r.Raise? ==> entry.Abandoned? && d.fs.fds.Keys == keys
  {
    hide OnTrack;
    hide Later;
    entry := Before;
    var failure, created := MakePrivate(d, temp, fd, keys, ino, w, p);
    if failure.None? { return Ok(Unit), Before; }
    Release(d, fd, keys, ino, w, p, Writing([]), Before);
    entry := Abandoned;
    if created.Some? { TakeBack(d, temp, created.value, w, p, Writing([]), Before); }
    else { StopsTrying(w.start, d.trace, w.since, d.fs, p, Writing([]), Before); }
    return Raise(failure.value), Abandoned;
  }

  method MakePrivate(d: Disk, temp: Name, fd: Fd, ghost keys: set<Fd>, ghost ino: Ino, ghost w: Watch, ghost p: Plan)
    returns (failure: Option<Code>, created: Option<Ino>)
    requires Going(d, w, p, Writing([]), Before) && Holding(d, keys, fd, ino, p)
    modifies d
    ensures Going(d, w, p, Writing([]), Before) && Holding(d, keys, fd, ino, p) && old(d.trace) <= d.trace
  {
    hide Going;
    hide Holding;
    var st := CheckOpen(d, fd, None, keys, ino, w, p, Writing([]));
    if st.Raise? { return Some(st.error), None; }
    created := Some(st.value.ino);
    var changed := Chmod(d, fd, PRIVATE_FILE_MODE, keys, ino, w, p, Writing([]), Before);
    if changed.Raise? { return Some(changed.error), created; }
    st := CheckOpen(d, fd, created, keys, ino, w, p, Writing([]));
    if st.Raise? { return Some(st.error), created; }
    if st.value.mode != PRIVATE_FILE_MODE { return Some(OperationFailed), created; }
    var linked := LookHeld(d, temp, fd, keys, ino, w, p, Writing([]), Before);
    return CreatedFailure(linked, st.value.ino), created;
  }

  /** What is wrong with an entry that should lead to this inode (`verify_entry_identity`). */
  function LinkFailure(linked: Outcome<Option<Stat>>, identity: Ino): (failure: Option<Code>)
    ensures failure.None? ==> linked.Ok? && linked.value.Some? && linked.value.value.ino == identity
  {
    match linked
    case Raise(error) => Some(error)
    case Ok(None) => Some(EntryChanged)
    case Ok(Some(st)) =>
      match Validated(st)
      case Raise(error) => Some(error)
      case Ok(_) => if st.ino != identity then Some(EntryChanged) else None
  }

  /** The same for a file just created, where the number is looked at first. */
  function CreatedFailure(linked: Outcome<Option<Stat>>, identity: Ino): Option<Code> {
    if linked.Ok? && linked.value.Some? && linked.value.value.ino != identity then Some(EntryChanged) else LinkFailure(linked, identity)
  }

  /** The open file is an owned regular one and, if that is given, the expected one. */
  method CheckOpen(d: Disk, fd: Fd, expected: Option<Ino>, ghost keys: set<Fd>, ghost ino: Ino, ghost w: Watch, ghost p: Plan, ghost stage: Stage)
    returns (r: Outcome<Stat>)
    requires Going(d, w, p, stage, Before) && !stage.Unmade? && Holding(d, keys, fd, ino, p)
    modifies d
    ensures Going(d, w, p, stage, Before) && Holding(d, keys, fd, ino, p) && (r.Ok? ==> r.value.ino == ino) && old(d.trace) <= d.trace
    ensures r.Ok? ==> ino in d.fs.table && r.value.mode == d.fs.table[ino].mode
  {
    hide Going;
    hide Holding;
    r := StatOpen(d, fd, keys, ino, w, p, stage, Before);
    if r.Raise? { return; }
    var valid := Validated(r.value);
    if valid.Raise? { return Raise(valid.error); }
    if expected.Some? && r.value.ino != expected.value { return Raise(EntryChanged); }
  }

  /** Up to sixteen random names. The plan's object is the one made; if none is, its serial is not in use. */
  method MakeTemporary(d: Disk, temps: seq<Name>, ghost keys: set<Fd>, ghost w: Watch, ghost t0: seq<Event>, ghost dest: Name, ghost content: seq<Byte>,
                       ghost replacing: bool)
    returns (r: Outcome<Fd>, temp: Name, ghost ino: Ino, ghost p: Plan, ghost stage: Stage, ghost entry: Entry)
    requires d.Valid() && FsOk(w.start) && Extends(t0, w.start, d.trace, d.fs, None) && w.since == |t0| && d.fs.fds.Keys == keys && 0 < |temps|
    modifies d
    ensures Going(d, w, p, stage, entry) && p == Plan(temp, dest, p.serial, content, replacing, true) && temp in temps && old(d.trace) <= d.trace
    ensures r.Ok? ==> stage == Writing([]) && entry.Before? && Holding(d, keys, r.value, ino, p)
    ensures r.Raise? ==> entry.Abandoned? && d.fs.fds.Keys == keys
    ensures Founded(w.start, t0, d.trace, d.fs, p, stage)
  {
    hide Going;
    hide Holding;
    hide Extends;
    hide FsOk;
    hide FileMade;
    temp := temps[0];
    var i := 0;
    while i < |temps|
      invariant i <= |temps| && temp in temps
      invariant d.Valid() && Extends(t0, w.start, d.trace, d.fs, None) && d.fs.fds.Keys == keys && old(d.trace) <= d.trace
    {
      temp := temps[i];
      var tried;
      tried, ino, p := TryTemporary(d, temp, keys, w, t0, dest, content, replacing);
      match tried
      case MadeFile(fd) => return Ok(fd), temp, ino, p, Writing([]), Before;
      case MadeBadly(error) => return Raise(error), temp, ino, p, Writing([]), Abandoned;
      case NotMade(error) =>
        p := NoTemporary(d, temp, w, t0, dest, content, replacing);
        return Raise(error), temp, 0, p, Unmade, Abandoned;
      case NameTaken =>
      i := i + 1;
    }
    p := NoTemporary(d, temp, w, t0, dest, content, replacing);
    return Raise(OperationFailed), temp, 0, p, Unmade, Abandoned;
  }

  datatype Tried = MadeFile(fd: Fd) | MadeBadly(error: Code) | NotMade(error: Code) | NameTaken

  /** One name. */
  method TryTemporary(d: Disk, temp: Name, ghost keys: set<Fd>, ghost w: Watch, ghost t0: seq<Event>, ghost dest: Name, ghost content: seq<Byte>,
                      ghost replacing: bool)
    returns (r: Tried, ghost ino: Ino, ghost p: Plan)
    requires d.Valid() && FsOk(w.start) && Extends(t0, w.start, d.trace, d.fs, None) && w.since == |t0| && d.fs.fds.Keys == keys
    modifies d
    ensures d.Valid() && old(d.trace) <= d.trace && (!r.MadeFile? ==> d.fs.fds.Keys == keys)
    ensures r.NameTaken? || r.NotMade? ==> Extends(t0, w.start, d.trace, d.fs, None)
    ensures r.MadeFile? || r.MadeBadly? ==> p == Plan(temp, dest, p.serial, content, replacing, true)
    ensures r.MadeFile? ==> Going(d, w, p, Writing([]), Before) && Holding(d, keys, r.fd, ino, p)
    ensures r.MadeBadly? ==> Going(d, w, p, Writing([]), Abandoned)
    ensures r.MadeFile? || r.MadeBadly? ==> FileMade(w.start, d.trace, |t0|, p)
  {
    hide OnTrack;
    hide Later;
    hide Extends;
    hide FileMade;
    ghost var f, t := d.fs, d.trace;
    ghost var mask;
    var created;
    created, ino, mask := d.Create(temp);
    if created.Raise? {
      ExtendsTwice(t0, w.start, t, f, d.trace, d.fs, None);
      ExtendsIsLonger(t, f, d.trace, d.fs, None);
      p := Plan(temp, dest, 0, content, replacing, true);
      return if created.error == EntryExists then NameTaken else NotMade(created.error), 0, p;
    }
    p := Plan(temp, dest, d.fs.serials - 1, content, replacing, true);
    Begun(w.start, t0, t, f, d.trace, d.fs, p, ino, mask);
    ExtendsIsLonger(t, f, d.trace, d.fs, Some(NewFile(temp, ino, mask)));
    ghost var t1 := d.trace;
    var checked, _ := CheckCreated(d, temp, created.value, keys, ino, w, p);
    StillMade(w.start, t1, d.trace, |t0|, p);
    return if checked.Ok? then MadeFile(created.value) else MadeBadly(checked.error), ino, p;
  }

  lemma {:induction false} ExtendsIsLonger(t: seq<Event>, f: Fs, trace: seq<Event>, g: Fs, op: Option<Op>)
    requires Extends(t, f, trace, g, op)
    ensures t <= trace
  {
  }

  /** No file was made: the plan is for an object that does not exist. */
  ghost method NoTemporary(d: Disk, temp: Name, w: Watch, t0: seq<Event>, dest: Name, content: seq<Byte>, replacing: bool) returns (p: Plan)
    requires d.Valid() && FsOk(w.start) && Extends(t0, w.start, d.trace, d.fs, None) && w.since == |t0|
    ensures p == Plan(temp, dest, p.serial, content, replacing, true) && Going(d, w, p, Unmade, Abandoned)
    ensures Founded(w.start, t0, d.trace, d.fs, p, Unmade)
  {
    p := Plan(temp, dest, d.fs.serials, content, replacing, true);
    NothingBegun(w.start, t0, d.trace, d.fs, p);
  }

  lemma {:induction false} Begun(start: Fs, t0: seq<Event>, t: seq<Event>, f: Fs, trace: seq<Event>, g: Fs, p: Plan, ino: Ino, mask: Mode)
    requires FsOk(start) && Extends(t0, start, t, f, None) && Extends(t, f, trace, g, Some(NewFile(p.temp, ino, mask)))
    requires g.serials == p.serial + 1
    ensures OnTrack(start, trace, |t0|, g, p, Writing([]), Before) && FileMade(start, trace, |t0|, p)
  {
    hide OnTrack;
    BeforeIt(start, t0, t, f, trace, g, NewFile(p.temp, ino, mask));
    MadeByUs(start, t0, t, f, trace, g, p, ino, mask);
    hide FileMade;
    StartsOnTrack(start, t0, p);
    Waited(start, t0, |t0|, start, p, Unmade, Before, t, f);
    Made(start, t, |t0|, f, p, trace, g, ino, mask);
  }

  /** The plan's object is the file that this call created, under the temporary name. */
  ghost predicate FileMade(start: Fs, trace: seq<Event>, since: nat, p: Plan) {
    exists k :: since <= k < |trace| && trace[k].Ours? && trace[k].op.NewFile? && trace[k].op.name == p.temp
                && trace[k].before.serials == p.serial >= start.serials
  }

  /** What the plan is about: the file this call created, or, as long as it has only looked, none at all. */
  ghost predicate Founded(start: Fs, t0: seq<Event>, trace: seq<Event>, f: Fs, p: Plan, stage: Stage) {
    if stage.Unmade? then Extends(t0, start, trace, f, None) && p.serial == f.serials else FileMade(start, trace, |t0|, p)
  }

  lemma {:induction false} StillMade(start: Fs, trace: seq<Event>, more: seq<Event>, since: nat, p: Plan)
    requires trace <= more && FileMade(start, trace, since, p)
    ensures FileMade(start, more, since, p)
  {
    var k :| since <= k < |trace| && trace[k].Ours? && trace[k].op.NewFile? && trace[k].op.name == p.temp
             && trace[k].before.serials == p.serial >= start.serials;
    assert more[k] == trace[k];
  }

  lemma {:induction false} MadeByUs(start: Fs, t0: seq<Event>, t: seq<Event>, f: Fs, trace: seq<Event>, g: Fs, p: Plan, ino: Ino, mask: Mode)
    requires FsOk(start) && Extends(t0, start, t, f, None) && Extends(t, f, trace, g, Some(NewFile(p.temp, ino, mask)))
    requires g.serials == p.serial + 1
    ensures FileMade(start, trace, |t0|, p)
  {
    hide AllDone;
    var op := NewFile(p.temp, ino, mask);
    var a :| Extended(t0, start, t, f, None, a);
    var b :| Extended(t, f, trace, g, Some(op), b);
    AllDoneIsLater(start, a);
    AllDoneIsLater(f, b);
    assert trace[|trace| - 1] == Ours(AllDone(f, b), op);
  }

  lemma {:induction false} BeforeIt(start: Fs, t0: seq<Event>, t: seq<Event>, f: Fs, trace: seq<Event>, g: Fs, op: Op)
    requires FsOk(start) && Extends(t0, start, t, f, None) && Extends(t, f, trace, g, Some(op)) && op.NewFile?
    ensures start.serials <= f.serials < g.serials
  {
    hide AllDone;
    var a :| Extended(t0, start, t, f, None, a);
    var b :| Extended(t, f, trace, g, Some(op), b);
    AllDoneIsLater(start, a);
    AllDoneIsLater(f, b);
  }

  lemma {:induction false} NothingBegun(start: Fs, t0: seq<Event>, trace: seq<Event>, g: Fs, p: Plan)
    requires FsOk(start) && Extends(t0, start, trace, g, None) && p.serial == g.serials
    ensures OnTrack(start, trace, |t0|, g, p, Unmade, Abandoned)
  {
    hide OnTrack;
    hide Done;
    var acts :| Extended(t0, start, trace, g, None, acts);
    AllDoneIsLater(start, acts);
    StartsOnTrack(start, t0, p);
    Waited(start, t0, |t0|, start, p, Unmade, Before, trace, g);
    GivenUp(start, trace, |t0|, g, p, Unmade);
  }

  // ----- Publishing without replacing -----

  /** Some state on the way had the destination lead to our object. */
  ghost predicate WasSeen(trace: seq<Event>, since: nat, p: Plan) {
    exists i :: since <= i < |trace| && LeadsToOurs(After(trace[i]), p.dest, p)
  }

  /** The checks of the published entry. */
  method CheckPublished(d: Disk, leaf: Name, identity: Ino, fd: Fd, ghost keys: set<Fd>, ghost w: Watch, ghost p: Plan, ghost stage: Stage, ghost entry: Entry)
    returns (failure: Option<Code>)
    requires Going(d, w, p, stage, entry) && !stage.Unmade? && Holding(d, keys, fd, identity, p) && leaf == p.dest && w.since < |d.trace|
    modifies d
    ensures Going(d, w, p, stage, entry) && Holding(d, keys, fd, identity, p) && old(d.trace) <= d.trace
    ensures failure.None? ==> WasSeen(d.trace, w.since, p)
  {
    hide OnTrack;
    var published := LookHeld(d, leaf, fd, keys, identity, w, p, stage, entry);
    failure := LinkFailure(published, identity);
    if failure.None? {
      assert Pinned(d.fs, fd, identity, p.serial) && LeadsToOurs(After(d.trace[|d.trace| - 1]), leaf, p);
    }
  }

  /** The link. */
  method ExposeByLink(d: Disk, temp: Name, leaf: Name, fd: Fd, ghost keys: set<Fd>, ghost ino: Ino, ghost w: Watch, ghost p: Plan)
    returns (failure: Option<Code>, ghost entry: Entry)
    requires Going(d, w, p, Complete, Before) && Holding(d, keys, fd, ino, p) && temp == p.temp && leaf == p.dest
    modifies d
    ensures Going(d, w, p, Complete, entry) && Holding(d, keys, fd, ino, p) && old(d.trace) <= d.trace
    ensures if failure.None? then entry.Published? && w.since < |d.trace| else entry.Before?
  {
    hide OnTrack;
    ghost var f, t := d.fs, d.trace;
    var linked := d.Link(temp, leaf);
    if linked.Ok? {
      Exposed(w.start, t, w.since, f, p, d.trace, d.fs, LinkTo(temp, leaf));
      StepTaken(w.start, t, w.since, f, p, Complete, Before, d.trace, d.fs, LinkTo(temp, leaf));
      return None, Published;
    }
    Waited(w.start, t, w.since, f, p, Complete, Before, d.trace, d.fs);
    return Some(if linked.error == EntryExists then EntryChanged else OperationFailed), Before;
  }

  lemma {:induction false} StepTaken(start: Fs, trace: seq<Event>, since: nat, f: Fs, p: Plan, stage: Stage, entry: Entry, more: seq<Event>, g: Fs, op: Op)
    requires OnTrack(start, trace, since, f, p, stage, entry) && Extends(trace, f, more, g, Some(op))
    ensures since < |more|
  {
  }

  /** The file is made, written and synced, ready to be exposed. */
  method FillTemporary(d: Disk, temp: Name, fd: Fd, content: seq<Byte>, ghost keys: set<Fd>, ghost ino: Ino, ghost w: Watch, ghost p: Plan)
    returns (failure: Option<Code>, identity: Option<Ino>, ghost stage: Stage)
    requires Going(d, w, p, Writing([]), Before) && Holding(d, keys, fd, ino, p) && content == p.content
    modifies d
    ensures Going(d, w, p, stage, Before) && Holding(d, keys, fd, ino, p) && !stage.Unmade? && !stage.Existing? && old(d.trace) <= d.trace
    ensures (failure.None? ==> stage.Complete? && identity.Some?) && (identity.Some? ==> identity.value == ino)
  {
    hide Going;
    hide Holding;
    var st := StatOpen(d, fd, keys, ino, w, p, Writing([]), Before);
    if st.Raise? { return Some(st.error), None, Writing([]); }
    identity := Some(st.value.ino);
    var wrote;
    ghost var written;
    wrote, written := WriteAll(d, fd, content, keys, ino, w, p);
    stage := Writing(written);
    if wrote.Raise? { return Some(wrote.error), identity, stage; }
    var synced;
    synced, stage := Sync(d, fd, keys, ino, w, p);
    failure := if synced.Raise? then Some(synced.error) else None;
  }

  /** The last checks, the link, and the removal of the temporary name. */
  method LinkIntoPlace(d: Disk, temp: Name, leaf: Name, fd: Fd, identity: Ino, ghost keys: set<Fd>, ghost w: Watch, ghost p: Plan)
    returns (failure: Option<Code>, gone: bool, ghost entry: Entry)
    requires Going(d, w, p, Complete, Before) && Holding(d, keys, fd, identity, p) && temp == p.temp && leaf == p.dest
    modifies d
    ensures Going(d, w, p, Complete, entry) && Holding(d, keys, fd, identity, p) && old(d.trace) <= d.trace
    ensures (failure.None? ==> entry.Published? && WasSeen(d.trace, w.since, p)) && (gone ==> entry.Published?)
  {
    hide Going;
    hide Holding;
    hide WasSeen;
    gone, entry := false, Before;
    var mine := LookHeld(d, temp, fd, keys, identity, w, p, Complete, Before);
    failure := LinkFailure(mine, identity);
    if failure.Some? { return; }
    var taken := LookHeld(d, leaf, fd, keys, identity, w, p, Complete, Before);
    if taken.Raise? { return Some(taken.error), false, Before; }
    if taken.value.Some? { return Some(EntryChanged), false, Before; }
    failure, entry := ExposeByLink(d, temp, leaf, fd, keys, identity, w, p);
    if failure.Some? { return; }
    failure := CheckPublished(d, leaf, identity, fd, keys, w, p, Complete, Published);
    if failure.Some? { return; }
    failure, gone := FinishLink(d, temp, fd, keys, identity, w, p);
  }

  method FinishLink(d: Disk, temp: Name, fd: Fd, ghost keys: set<Fd>, ghost ino: Ino, ghost w: Watch, ghost p: Plan)
    returns (failure: Option<Code>, gone: bool)
    requires Going(d, w, p, Complete, Published) && Holding(d, keys, fd, ino, p) && temp == p.temp && WasSeen(d.trace, w.since, p)
    modifies d
    ensures Going(d, w, p, Complete, Published) && Holding(d, keys, fd, ino, p) && old(d.trace) <= d.trace && WasSeen(d.trace, w.since, p)
  {
    hide OnTrack;
    ghost var t0 := d.trace;
    var dropped := DropTemporary(d, temp, w, p, Complete, Published);
    StillSeen(t0, d.trace, w.since, p);
    if dropped.Raise? { return Some(dropped.error), false; }
    failure := SyncHeld(d, fd, keys, ino, w, p);
    gone := true;
  }

  method SyncHeld(d: Disk, fd: Fd, ghost keys: set<Fd>, ghost ino: Ino, ghost w: Watch, ghost p: Plan) returns (failure: Option<Code>)
    requires Going(d, w, p, Complete, Published) && Holding(d, keys, fd, ino, p) && WasSeen(d.trace, w.since, p)
    modifies d
    ensures Going(d, w, p, Complete, Published) && Holding(d, keys, fd, ino, p) && old(d.trace) <= d.trace && WasSeen(d.trace, w.since, p)
  {
    hide OnTrack;
    ghost var f, t := d.fs, d.trace;
    var synced := d.SyncDirectory();
    Waited(w.start, t, w.since, f, p, Complete, Published, d.trace, d.fs);
    StillSeen(t, d.trace, w.since, p);
    failure := if synced.Raise? then Some(synced.error) else None;
  }

  lemma {:induction false} StillSeen(t: seq<Event>, more: seq<Event>, since: nat, p: Plan)
    requires t <= more && WasSeen(t, since, p)
    ensures WasSeen(more, since, p)
  {
    var i :| since <= i < |t| && LeadsToOurs(After(t[i]), p.dest, p);
    assert more[i] == t[i];
  }

  /** The `finally` of a publication. */
  method Finish(d: Disk, temp: Name, fd: Fd, identity: Option<Ino>, gone: bool, ghost keys: set<Fd>, ghost ino: Ino, ghost w: Watch, ghost p: Plan,
                ghost stage: Stage, ghost entry: Entry)
    requires Going(d, w, p, stage, entry) && !stage.Unmade? && !stage.Existing? && Holding(d, keys, fd, ino, p) && temp == p.temp
    modifies d
    ensures Going(d, w, p, stage, AfterDrop(entry)) && d.fs.fds.Keys == keys && old(d.trace) <= d.trace
  {
    hide OnTrack;
    Release(d, fd, keys, ino, w, p, stage, entry);
    if !gone && identity.Some? { TakeBack(d, temp, identity.value, w, p, stage, entry); }
    else { StopsTrying(w.start, d.trace, w.since, d.fs, p, stage, entry); }
  }

  /** `publish_private_file_at`. */
  method Publish(d: Disk, leaf: Name, temps: seq<Name>, content: seq<Byte>)
    returns (r: Outcome<Mode>, ghost p: Plan, ghost stage: Stage, ghost entry: Entry)
    requires d.Valid() && |temps| == ATTEMPTS
    modifies d
    ensures d.Valid() && d.fs.fds.Keys == old(d.fs).fds.Keys
    ensures p == Plan(p.temp, leaf, p.serial, content, false, true) && p.temp in temps && !entry.Before?
    ensures OnTrack(old(d.fs), d.trace, |old(d.trace)|, d.fs, p, stage, entry) && Founded(old(d.fs), old(d.trace), d.trace, d.fs, p, stage)
    ensures r.Ok? ==> r.value == PRIVATE_FILE_MODE && stage.Complete? && entry.Published? && WasSeen(d.trace, |old(d.trace)|, p)
  {
    hide OnTrack;
    hide Later;
    ghost var w, t0, keys := Watch(d.fs, |d.trace|), d.trace, d.fs.fds.Keys;
    var existing := d.Lstat(leaf);
    var refused := Refusal(existing);
    if refused.Some? {
      p, stage, entry := Plan(temps[0], leaf, d.fs.serials, content, false, true), Unmade, Abandoned;
      NothingBegun(w.start, t0, d.trace, d.fs, p);
      return Raise(refused.value), p, stage, entry;
    }
    r, p, stage, entry := PublishNew(d, leaf, temps, content, keys, w, t0);
  }

  function Refusal(existing: Outcome<Option<Stat>>): (failure: Option<Code>)
    ensures failure.None? ==> existing == Ok(None)
  {
    match existing
    case Raise(error) => Some(error)
    case Ok(None) => None
    case Ok(Some(st)) => match Validated(st) case Raise(error) => Some(error) case Ok(_) => Some(EntryExists)
  }

  method PublishNew(d: Disk, leaf: Name, temps: seq<Name>, content: seq<Byte>, ghost keys: set<Fd>, ghost w: Watch, ghost t0: seq<Event>)
    returns (r: Outcome<Mode>, ghost p: Plan, ghost stage: Stage, ghost entry: Entry)
    requires d.Valid() && FsOk(w.start) && Extends(t0, w.start, d.trace, d.fs, None) && w.since == |t0| && d.fs.fds.Keys == keys && |temps| == ATTEMPTS
    modifies d
    ensures Going(d, w, p, stage, entry) && d.fs.fds.Keys == keys && old(d.trace) <= d.trace
    ensures p == Plan(p.temp, leaf, p.serial, content, false, true) && p.temp in temps && !entry.Before?
    ensures r.Ok? ==> r.value == PRIVATE_FILE_MODE && stage.Complete? && entry.Published? && WasSeen(d.trace, w.since, p)
    ensures Founded(w.start, t0, d.trace, d.fs, p, stage)
  {
    hide OnTrack;
    hide Later;
    hide Extends;
    hide WasSeen;
    hide FileMade;
    ghost var ino;
    var made, temp;
    made, temp, ino, p, stage, entry := MakeTemporary(d, temps, keys, w, t0, leaf, content, false);
    if made.Raise? { return Raise(made.error), p, stage, entry; }
    ghost var t1 := d.trace;
    var failure, identity, gone;
    failure, identity, stage := FillTemporary(d, temp, made.value, content, keys, ino, w, p);
    gone := false;
    if failure.None? { failure, gone, entry := LinkIntoPlace(d, temp, leaf, made.value, identity.value, keys, w, p); }
    ghost var t := d.trace;
    Finish(d, temp, made.value, identity, gone, keys, ino, w, p, stage, entry);
    entry := AfterDrop(entry);
    StillMade(w.start, t1, d.trace, |t0|, p);
    if failure.Some? { return Raise(failure.value), p, stage, entry; }
    StillSeen(t, d.trace, w.since, p);
    return Ok(PRIVATE_FILE_MODE), p, stage, entry;
  }

  // ----- Replacing -----

  /** `fsync`, the retained mode, and the check of both. */
  method SettleMode(d: Disk, fd: Fd, mode: Mode, identity: Ino, ghost keys: set<Fd>, ghost w: Watch, ghost p: Plan) returns (failure: Option<Code>)
    requires Going(d, w, p, Complete, Before) && Holding(d, keys, fd, identity, p)
    modifies d
    ensures Going(d, w, p, Complete, Before) && Holding(d, keys, fd, identity, p) && old(d.trace) <= d.trace
    ensures failure.None? ==> HadMode(d.trace, w.since, p, mode)
  {
    hide Going;
    hide Holding;
    var changed := Chmod(d, fd, mode, keys, identity, w, p, Complete, Before);
    if changed.Raise? { return Some(changed.error); }
    assert w.since < |d.trace|;
    var st := CheckOpen(d, fd, Some(identity), keys, identity, w, p, Complete);
    if st.Raise? { return Some(st.error); }
    if st.value.mode != mode { return Some(OperationFailed); }
    ModeIsSeen(d, w, keys, fd, identity, p, mode);
    return None;
  }

  /** Our object carried this mode, with its content complete, in some state on the way. */
  ghost predicate HadMode(trace: seq<Event>, since: nat, p: Plan, mode: Mode) {
    exists i, ino :: since <= i < |trace| && IsOurs(After(trace[i]), ino, p) && After(trace[i]).table[ino].mode == mode
  }

  lemma {:induction false} ModeIsSeen(d: Disk, w: Watch, keys: set<Fd>, fd: Fd, ino: Ino, p: Plan, mode: Mode)
    requires Going(d, w, p, Complete, Before) && Holding(d, keys, fd, ino, p) && d.fs.table[ino].mode == mode && w.since < |d.trace|
    ensures HadMode(d.trace, w.since, p, mode)
  {
    assert IsOurs(After(d.trace[|d.trace| - 1]), ino, p);
  }

  lemma {:induction false} StillHadMode(t: seq<Event>, more: seq<Event>, since: nat, p: Plan, mode: Mode)
    requires t <= more && HadMode(t, since, p, mode)
    ensures HadMode(more, since, p, mode)
  {
    var i, ino :| since <= i < |t| && IsOurs(After(t[i]), ino, p) && After(t[i]).table[ino].mode == mode;
    assert more[i] == t[i];
  }

  /** The rename over the entry. */
  method ExposeByRename(d: Disk, temp: Name, leaf: Name, fd: Fd, ghost keys: set<Fd>, ghost ino: Ino, ghost w: Watch, ghost p: Plan)
    returns (failure: Option<Code>, ghost entry: Entry)
    requires Going(d, w, p, Complete, Before) && Holding(d, keys, fd, ino, p) && temp == p.temp && leaf == p.dest && p.replacing
    modifies d
    ensures Going(d, w, p, Complete, entry) && Holding(d, keys, fd, ino, p) && old(d.trace) <= d.trace
    ensures if failure.None? then entry.Published? && w.since < |d.trace| else entry.Before?
  {
    hide OnTrack;
    ghost var f, t := d.fs, d.trace;
    var renamed := d.Try(RenameTo(temp, leaf));
    if renamed.Ok? {
      Exposed(w.start, t, w.since, f, p, d.trace, d.fs, RenameTo(temp, leaf));
      StepTaken(w.start, t, w.since, f, p, Complete, Before, d.trace, d.fs, RenameTo(temp, leaf));
      return None, Published;
    }
    Waited(w.start, t, w.since, f, p, Complete, Before, d.trace, d.fs);
    return Some(renamed.error), Before;
  }

  /** Is the destination still what it was: missing, or the entry that was found? */
  function ReplaceFailure(current: Outcome<Option<Stat>>, expected: Option<Ino>): Option<Code> {
    match current
    case Raise(error) => Some(error)
    case Ok(None) => if expected.None? then None else Some(EntryChanged)
    case Ok(Some(st)) =>
      if expected.None? then Some(EntryChanged)
      else match Validated(st) case Raise(error) => Some(error) case Ok(_) => if st.ino != expected.value then Some(EntryChanged) else None
  }

  method ReplaceInPlace(d: Disk, temp: Name, leaf: Name, fd: Fd, identity: Ino, expected: Option<Ino>, ghost keys: set<Fd>, ghost w: Watch, ghost p: Plan)
    returns (failure: Option<Code>, gone: bool, ghost entry: Entry)
    requires Going(d, w, p, Complete, Before) && Holding(d, keys, fd, identity, p) && temp == p.temp && leaf == p.dest && p.replacing == expected.Some?
    modifies d
    ensures Going(d, w, p, Complete, entry) && Holding(d, keys, fd, identity, p) && old(d.trace) <= d.trace
    ensures failure.None? ==> entry.Published? && WasSeen(d.trace, w.since, p)
  {
    hide Going;
    hide Holding;
    hide WasSeen;
    gone, entry := false, Before;
    var current := LookHeld(d, leaf, fd, keys, identity, w, p, Complete, Before);
    failure := ReplaceFailure(current, expected);
    if failure.Some? { return; }
    failure, entry := Expose(d, temp, leaf, fd, expected.Some?, keys, identity, w, p);
    if failure.Some? { return; }
    failure := CheckPublished(d, leaf, identity, fd, keys, w, p, Complete, Published);
    if failure.Some? { return; }
    gone := true;
    failure := SyncHeld(d, fd, keys, identity, w, p);
  }

  method Expose(d: Disk, temp: Name, leaf: Name, fd: Fd, replacing: bool, ghost keys: set<Fd>, ghost ino: Ino, ghost w: Watch, ghost p: Plan)
    returns (failure: Option<Code>, ghost entry: Entry)
    requires Going(d, w, p, Complete, Before) && Holding(d, keys, fd, ino, p) && temp == p.temp && leaf == p.dest && p.replacing == replacing
    modifies d
    ensures Going(d, w, p, Complete, entry) && Holding(d, keys, fd, ino, p) && old(d.trace) <= d.trace
    ensures failure.None? ==> entry.Published? && w.since < |d.trace|
  {
    hide OnTrack;
    hide Later;
    if replacing {
      failure, entry := ExposeByRename(d, temp, leaf, fd, keys, ino, w, p);
    } else {
      failure, entry := ExposeByLink(d, temp, leaf, fd, keys, ino, w, p);
      if failure.None? {
        var dropped := DropHeld(d, temp, fd, keys, ino, w, p);
        if dropped.Raise? { failure := Some(dropped.error); }
      }
    }
  }

  method DropHeld(d: Disk, temp: Name, fd: Fd, ghost keys: set<Fd>, ghost ino: Ino, ghost w: Watch, ghost p: Plan) returns (r: Outcome<Unit>)
    requires Going(d, w, p, Complete, Published) && Holding(d, keys, fd, ino, p) && temp == p.temp
    modifies d
    ensures Going(d, w, p, Complete, Published) && Holding(d, keys, fd, ino, p) && old(d.trace) <= d.trace
  {
    hide OnTrack;
    r := DropTemporary(d, temp, w, p, Complete, Published);
  }

  /** The entry found before anything was done: how it limits the mode of its replacement. */
  function RetainedMode(f: Fs, leaf: Name): Mode
    requires FsOk(f)
  {
    if leaf in f.names then f.table[f.names[leaf]].mode & PRIVATE_FILE_MODE else PRIVATE_FILE_MODE
  }

  /** `atomic_replace_private_file`, in the opened parent. `found` is the directory at the first lookup. */
  method Replace(d: Disk, leaf: Name, temps: seq<Name>, content: seq<Byte>)
    returns (r: Outcome<Mode>, ghost p: Plan, ghost stage: Stage, ghost entry: Entry, ghost found: Fs)
    requires d.Valid() && |temps| == ATTEMPTS
    modifies d
    ensures d.Valid() && d.fs.fds.Keys == old(d.fs).fds.Keys
    ensures p == Plan(p.temp, leaf, p.serial, content, p.replacing, true) && p.temp in temps && !entry.Before?
    ensures OnTrack(old(d.fs), d.trace, |old(d.trace)|, d.fs, p, stage, entry) && Founded(old(d.fs), old(d.trace), d.trace, d.fs, p, stage)
    ensures FsOk(found) && exists t :: old(d.trace) <= t <= d.trace && Extends(old(d.trace), old(d.fs), t, found, None)
    ensures r.Ok? ==> stage.Complete? && entry.Published? && WasSeen(d.trace, |old(d.trace)|, p)
    ensures r.Ok? ==> r.value == RetainedMode(found, leaf) && (p.replacing <==> leaf in found.names) && HadMode(d.trace, |old(d.trace)|, p, r.value)
  {
    hide OnTrack;
    hide Later;
    ghost var w, t0, keys := Watch(d.fs, |d.trace|), d.trace, d.fs.fds.Keys;
    var existing := d.Lstat(leaf);
    found := d.fs;
    ghost var t1 := d.trace;
    ExtendsIsLonger(t0, w.start, t1, found, None);
    var refused := if existing.Raise? then Some(existing.error)
                   else if existing.value.Some? && Validated(existing.value.value).Raise? then Some(Validated(existing.value.value).error)
                   else None;
    if refused.Some? {
      p, stage, entry := Plan(temps[0], leaf, d.fs.serials, content, false, true), Unmade, Abandoned;
      NothingBegun(w.start, t0, d.trace, d.fs, p);
      return Raise(refused.value), p, stage, entry, found;
    }
    var expected := if existing.value.None? then None else Some(existing.value.value.ino);
    var mode := if existing.value.None? then PRIVATE_FILE_MODE else existing.value.value.mode & PRIVATE_FILE_MODE;
    r, p, stage, entry := ReplaceWith(d, leaf, temps, content, expected, mode, keys, w, t0);
    assert t0 <= t1 <= d.trace && Extends(t0, w.start, t1, found, None);
  }

  method ReplaceWith(d: Disk, leaf: Name, temps: seq<Name>, content: seq<Byte>, expected: Option<Ino>, mode: Mode, ghost keys: set<Fd>, ghost w: Watch,
                     ghost t0: seq<Event>)
    returns (r: Outcome<Mode>, ghost p: Plan, ghost stage: Stage, ghost entry: Entry)
    requires d.Valid() && FsOk(w.start) && Extends(t0, w.start, d.trace, d.fs, None) && w.since == |t0| && d.fs.fds.Keys == keys && |temps| == ATTEMPTS
    modifies d
    ensures Going(d, w, p, stage, entry) && d.fs.fds.Keys == keys && old(d.trace) <= d.trace
    ensures p == Plan(p.temp, leaf, p.serial, content, expected.Some?, true) && p.temp in temps && !entry.Before?
    ensures r.Ok? ==> r.value == mode && stage.Complete? && entry.Published? && WasSeen(d.trace, w.since, p) && HadMode(d.trace, w.since, p, mode)
    ensures Founded(w.start, t0, d.trace, d.fs, p, stage)
  {
    hide Going;
    hide Holding;
    hide Later;
    hide Extends;
    hide WasSeen;
    hide HadMode;
    hide FileMade;
    ghost var ino;
    var made, temp;
    made, temp, ino, p, stage, entry := MakeTemporary(d, temps, keys, w, t0, leaf, content, expected.Some?);
    if made.Raise? { return Raise(made.error), p, stage, entry; }
    ghost var t1 := d.trace;
    var failure, identity;
    failure, identity, stage := FillTemporary(d, temp, made.value, content, keys, ino, w, p);
    var gone := false;
    if failure.None? { failure, gone, entry := SettleAndExpose(d, temp, leaf, made.value, identity.value, expected, mode, keys, w, p); }
    ghost var t := d.trace;
    Finish(d, temp, made.value, identity, gone, keys, ino, w, p, stage, entry);
    entry := AfterDrop(entry);
    StillMade(w.start, t1, d.trace, |t0|, p);
    if failure.Some? { return Raise(failure.value), p, stage, entry; }
    StillSeen(t, d.trace, w.since, p);
    StillHadMode(t, d.trace, w.since, p, mode);
    return Ok(mode), p, stage, entry;
  }

  method SettleAndExpose(d: Disk, temp: Name, leaf: Name, fd: Fd, identity: Ino, expected: Option<Ino>, mode: Mode, ghost keys: set<Fd>,
                         ghost w: Watch, ghost p: Plan)
    returns (failure: Option<Code>, gone: bool, ghost entry: Entry)
    requires Going(d, w, p, Complete, Before) && Holding(d, keys, fd, identity, p) && temp == p.temp && leaf == p.dest && p.replacing == expected.Some?
    modifies d
    ensures Going(d, w, p, Complete, entry) && Holding(d, keys, fd, identity, p) && old(d.trace) <= d.trace
    ensures failure.None? ==> entry.Published? && WasSeen(d.trace, w.since, p) && HadMode(d.trace, w.since, p, mode)
  {
    hide Going;
    hide Holding;
    hide WasSeen;
    hide HadMode;
    failure := SettleMode(d, fd, mode, identity, keys, w, p);
    if failure.Some? { return failure, false, Before; }
    ghost var t := d.trace;
    failure, gone, entry := ReplaceInPlace(d, temp, leaf, fd, identity, expected, keys, w, p);
    StillHadMode(t, d.trace, w.since, p, mode);
  }
}
