/** The last phase of a database replacement (`publish_private_sqlite_replacement_at` in
    src/tendwire/local_state.py): a verified file takes the database's name. */
module SqliteReplacement {
  import opened Options
  import opened FileSystem
  import opened PublishedEntries
  import opened Publication

  datatype Phase = ReservedPhase | ReleasedPhase | CreatedPhase

  datatype Handle = Handle(source: Name, sourceIno: Ino, sourceMode: Mode, replacement: Name, identity: Option<Ino>, retained: Mode, phase: Phase)

  predicate Insecure(mode: Mode) {
    mode & !PRIVATE_FILE_MODE != 0
  }

  /** How many names lead to the inode a lookup found. */
  function Links(f: Fs, ino: Ino): nat {
    |set n | n in f.names && f.names[n] == ino|
  }

  /** The name leads to this inode, a regular file of ours under no other name, in this mode. */
  predicate OnlyName(f: Fs, name: Name, ino: Ino, mode: Mode) {
    && name in f.names && f.names[name] == ino && ino in f.table && Links(f, ino) == 1
    && f.table[ino].regular && f.table[ino].owned && f.table[ino].mode == mode
  }

  /** The database is the one that was reserved. */
  predicate SourceIn(f: Fs, h: Handle) {
    OnlyName(f, h.source, h.sourceIno, h.sourceMode) && !Insecure(h.sourceMode)
  }

  /** The replacement is the one that was verified, and another file than the database. */
  predicate ArtifactIn(f: Fs, h: Handle, mode: Mode) {
    h.identity.Some? && OnlyName(f, h.replacement, h.identity.value, mode) && h.identity.value != h.sourceIno
  }

  /** The database's name leads to the replacement file, in the retained mode. */
  predicate ReplacedIn(f: Fs, h: Handle) {
    h.identity.Some? && OnlyName(f, h.source, h.identity.value, h.retained)
  }

  ghost predicate SourceWasSeen(t0: seq<Event>, f0: Fs, trace: seq<Event>, h: Handle) {
    exists t, f :: t0 <= t <= trace && Extends(t0, f0, t, f, None) && SourceIn(f, h)
  }

  /** This was the directory when we had only looked. */
  ghost predicate OnlyLookedYet(t0: seq<Event>, f0: Fs, trace: seq<Event>, found: Fs) {
    exists t :: t0 <= t <= trace && Extends(t0, f0, t, found, None)
  }

  /** After our flush the replacement was still the verified one. */
  ghost predicate ArtifactSeenAgain(trace: seq<Event>, since: nat, h: Handle) {
    exists i, k, mode :: since <= i <= k < |trace| && trace[i].Ours? && trace[i].op.Flush? && ArtifactIn(After(trace[k]), h, mode)
  }

  /** After our rename the database's name led to it. */
  ghost predicate ReplacedSeen(trace: seq<Event>, since: nat, h: Handle) {
    exists i, k :: since <= i <= k < |trace| && trace[i].Ours? && trace[i].op == RenameTo(h.replacement, h.source) && ReplacedIn(After(trace[k]), h)
  }

  /** A lookup that also reports the link count. */
  method LstatLinks(d: Disk, name: Name) returns (r: Outcome<Option<Stat>>, single: bool)
    requires d.Valid()
    modifies d
    ensures d.Valid() && Later(old(d.fs), d.fs) && d.fs.fds == old(d.fs).fds && Extends(old(d.trace), old(d.fs), d.trace, d.fs, None)
    ensures r == Raise(OperationFailed) || r == Ok(if name in d.fs.names then Some(StatOf(d.fs, d.fs.names[name])) else None)
    ensures r.Ok? && r.value.Some? ==> single == (Links(d.fs, r.value.value.ino) == 1)
  {
    r := d.Lstat(name);
    single := r.Ok? && r.value.Some? && Links(d.fs, r.value.value.ino) == 1;
  }

  /** `_verify_sqlite_replacement_source`. */
  method VerifySource(d: Disk, h: Handle) returns (failure: Option<Code>)
    requires d.Valid()
    modifies d
    ensures d.Valid() && Later(old(d.fs), d.fs) && d.fs.fds == old(d.fs).fds && Extends(old(d.trace), old(d.fs), d.trace, d.fs, None)
    ensures failure.None? ==> SourceIn(d.fs, h)
  {
    var looked, single := LstatLinks(d, h.source);
    failure := LinkFailure(looked, h.sourceIno);
    if failure.Some? { return; }
    var mode := looked.value.value.mode;
    if !single || mode != h.sourceMode { return Some(EntryChanged); }
    return if Insecure(mode) then Some(InsecureMode) else None;
  }

  /** `_verify_sqlite_replacement_artifact`. */
  method VerifyArtifact(d: Disk, h: Handle) returns (failure: Option<Code>, mode: Mode)
    requires d.Valid()
    modifies d
    ensures d.Valid() && Later(old(d.fs), d.fs) && d.fs.fds == old(d.fs).fds && Extends(old(d.trace), old(d.fs), d.trace, d.fs, None)
    ensures failure.None? ==> ArtifactIn(d.fs, h, mode)
  {
    if h.identity.None? {
      Still(d);
      return Some(EntryChanged), 0;
    }
    var looked, single := LstatLinks(d, h.replacement);
    failure := LinkFailure(looked, h.identity.value);
    if failure.Some? { return failure, 0; }
    mode := looked.value.value.mode;
    if !single || looked.value.value.ino == h.sourceIno { return Some(EntryChanged), mode; }
  }

  lemma {:induction false} Still(d: Disk)
    requires d.Valid()
    ensures Later(d.fs, d.fs) && Extends(d.trace, d.fs, d.trace, d.fs, None)
  {
    LaterReflexive(d.fs);
    assert Extended(d.trace, d.fs, d.trace, d.fs, None, []);
  }

  /** Both checks, and perhaps that the artifact is in the retained mode. */
  method VerifyBoth(d: Disk, h: Handle, withMode: bool) returns (failure: Option<Code>, ghost mode: Mode)
    requires d.Valid()
    modifies d
    ensures d.Valid() && Later(old(d.fs), d.fs) && d.fs.fds == old(d.fs).fds && Extends(old(d.trace), old(d.fs), d.trace, d.fs, None)
    ensures failure.None? ==> ArtifactIn(d.fs, h, mode) && (withMode ==> mode == h.retained) && SourceWasSeen(old(d.trace), old(d.fs), d.trace, h)
  {
    hide Extends;
    hide Later;
    ghost var f, t := d.fs, d.trace;
    mode := 0;
    failure := VerifySource(d, h);
    if failure.Some? { return; }
    ghost var g, u := d.fs, d.trace;
    var shown;
    failure, shown := VerifyArtifact(d, h);
    mode := shown;
    LaterTransitive(f, g, d.fs);
    ExtendsIsLonger(t, f, u, g, None);
    ExtendsIsLonger(u, g, d.trace, d.fs, None);
    assert SourceWasSeen(t, f, d.trace, h);
    ExtendsTwice(t, f, u, g, d.trace, d.fs, None);
    if failure.None? && withMode && shown != h.retained { failure := Some(EntryChanged); }
  }

  // ----- On track -----

  /** A call that only looks. */
  lemma {:induction false} Looked(w: Watch, t: seq<Event>, f: Fs, p: Plan, stage: Stage, entry: Entry, d: Disk)
    requires OnTrack(w.start, t, w.since, f, p, stage, entry) && !stage.Unmade? && d.Valid() && Extends(t, f, d.trace, d.fs, None)
    ensures Going(d, w, p, stage, entry) && t <= d.trace
  {
    hide OnTrack;
    Waited(w.start, t, w.since, f, p, stage, entry, d.trace, d.fs);
  }

  /** While nobody else uses the replacement's name, the descriptor opened by that name is open on its file. */
  ghost predicate OpenOnIt(d: Disk, w: Watch, keys: set<Fd>, fd: Fd, ino: Ino, p: Plan)
    reads d
  {
    && fd !in keys && d.fs.fds.Keys == keys + {fd} && d.fs.fds[fd] == ino
    && (HandsOff(d.trace, w.since, p) ==> Pinned(d.fs, fd, ino, p.serial))
  }

  lemma {:induction false} StillOpen(t: seq<Event>, f: Fs, d: Disk, w: Watch, keys: set<Fd>, fd: Fd, ino: Ino, p: Plan)
    requires FsOk(f) && Later(f, d.fs) && d.fs.fds == f.fds && t <= d.trace
    requires fd !in keys && f.fds.Keys == keys + {fd} && f.fds[fd] == ino && (HandsOff(t, w.since, p) ==> Pinned(f, fd, ino, p.serial))
    ensures OpenOnIt(d, w, keys, fd, ino, p)
  {
    if HandsOff(d.trace, w.since, p) { HandsOffSooner(t, d.trace, w.since, p); }
  }

  method OpenArtifact(d: Disk, h: Handle, ghost keys: set<Fd>, ghost w: Watch, ghost p: Plan) returns (r: Outcome<Fd>, ghost ino: Ino)
    requires Going(d, w, p, Existing, Before) && d.fs.fds.Keys == keys && h.replacement == p.temp
    modifies d
    ensures Going(d, w, p, Existing, Before) && old(d.trace) <= d.trace
    ensures if r.Ok? then OpenOnIt(d, w, keys, r.value, ino, p) else d.fs.fds.Keys == keys
  {
    hide OnTrack;
    hide Later;
    ghost var f, t := d.fs, d.trace;
    r := d.Open(h.replacement);
    ino := 0;
    if r.Raise? {
      Looked(w, t, f, p, Existing, Before, d);
      return;
    }
    Aside(w.start, t, w.since, f, p, Existing, Before, d.trace, d.fs, OpenFile(h.replacement));
    ExtendsIsLonger(t, f, d.trace, d.fs, Some(OpenFile(h.replacement)));
    ino := d.fs.names[h.replacement];
    OpenIsOurs(w, d.trace, d.fs, p, h.replacement, r.value);
  }

  lemma {:induction false} OpenIsOurs(w: Watch, trace: seq<Event>, f: Fs, p: Plan, name: Name, fd: Fd)
    requires OnTrack(w.start, trace, w.since, f, p, Existing, Before) && name == p.temp && name in f.names
    requires fd in f.fds && f.fds[fd] == f.names[name]
    ensures HandsOff(trace, w.since, p) ==> Pinned(f, fd, f.names[name], p.serial)
  {
  }

  /** What is wrong with the opened file. */
  method CheckOpened(d: Disk, fd: Fd, h: Handle, ghost keys: set<Fd>, ghost ino: Ino, ghost w: Watch, ghost p: Plan) returns (failure: Option<Code>)
    requires Going(d, w, p, Existing, Before) && OpenOnIt(d, w, keys, fd, ino, p)
    modifies d
    ensures Going(d, w, p, Existing, Before) && OpenOnIt(d, w, keys, fd, ino, p) && old(d.trace) <= d.trace
  {
    hide OnTrack;
    ghost var f, t := d.fs, d.trace;
    var st := d.Fstat(fd);
    Looked(w, t, f, p, Existing, Before, d);
    StillOpen(t, f, d, w, keys, fd, ino, p);
    if st.Raise? { return Some(st.error); }
    var valid := Validated(st.value);
    if valid.Raise? { return Some(valid.error); }
    return if Links(d.fs, st.value.ino) != 1 || Some(st.value.ino) != h.identity then Some(EntryChanged) else None;
  }

  method FlushOpened(d: Disk, fd: Fd, ghost keys: set<Fd>, ghost ino: Ino, ghost w: Watch, ghost p: Plan) returns (r: Outcome<Unit>)
    requires Going(d, w, p, Existing, Before) && OpenOnIt(d, w, keys, fd, ino, p)
    modifies d
    ensures Going(d, w, p, if r.Ok? then Complete else Existing, Before) && d.fs.fds.Keys == keys + {fd} && old(d.trace) <= d.trace
    ensures r.Ok? ==> FlushedSince(d.trace, |old(d.trace)|)
  {
    hide OnTrack;
    hide Later;
    ghost var f, t := d.fs, d.trace;
    r := d.Flush(fd);
    if r.Ok? {
      FlushedExisting(w.start, t, w.since, f, p, Before, d.trace, d.fs, fd, ino);
      ExtendsIsLonger(t, f, d.trace, d.fs, Some(PublishedEntries.Flush(fd)));
      LastIsOurs(t, f, d.trace, d.fs, PublishedEntries.Flush(fd));
    } else { Looked(w, t, f, p, Existing, Before, d); }
  }

  ghost predicate FlushedSince(trace: seq<Event>, since: nat) {
    exists i :: since <= i < |trace| && trace[i].Ours? && trace[i].op.Flush?
  }

  lemma {:induction false} LastIsOurs(t: seq<Event>, f: Fs, trace: seq<Event>, g: Fs, op: Op)
    requires Extends(t, f, trace, g, Some(op))
    ensures t <= trace && |t| < |trace| && trace[|trace| - 1].Ours? && trace[|trace| - 1].op == op
  {
  }

  lemma {:induction false} FlushedStill(trace: seq<Event>, more: seq<Event>, since: nat, earlier: nat)
    requires trace <= more && earlier <= since && FlushedSince(trace, since)
    ensures FlushedSince(more, earlier)
  {
    var i :| since <= i < |trace| && trace[i].Ours? && trace[i].op.Flush?;
    assert more[i] == trace[i];
  }

  method CloseOpened(d: Disk, fd: Fd, ghost keys: set<Fd>, ghost w: Watch, ghost p: Plan, ghost stage: Stage)
    requires Going(d, w, p, stage, Before) && !stage.Unmade? && fd !in keys && d.fs.fds.Keys == keys + {fd}
    modifies d
    ensures Going(d, w, p, stage, Before) && d.fs.fds.Keys == keys && old(d.trace) <= d.trace
  {
    hide OnTrack;
    hide Later;
    ghost var f, t := d.fs, d.trace;
    d.Close(fd);
    Aside(w.start, t, w.since, f, p, stage, Before, d.trace, d.fs, CloseFd(fd));
    ExtendsIsLonger(t, f, d.trace, d.fs, Some(CloseFd(fd)));
  }

  /** Open the artifact, flush it and close it again. */
  method FlushArtifact(d: Disk, h: Handle, ghost keys: set<Fd>, ghost w: Watch, ghost p: Plan) returns (failure: Option<Code>, ghost stage: Stage)
    requires Going(d, w, p, Existing, Before) && d.fs.fds.Keys == keys && h.replacement == p.temp
    modifies d
    ensures Going(d, w, p, stage, Before) && d.fs.fds.Keys == keys && old(d.trace) <= d.trace && (stage.Complete? || stage.Existing?)
    ensures failure.None? ==> stage.Complete? && FlushedSince(d.trace, |old(d.trace)|)
  {
    hide Going;
    hide OpenOnIt;
    hide FlushedSince;
    ghost var t0 := d.trace;
    stage := Existing;
    failure := LookFirst(d, h, keys, w, p);
    if failure.Some? { return; }
    var fd;
    ghost var ino;
    fd, ino := OpenArtifact(d, h, keys, w, p);
    if fd.Raise? { return Some(fd.error), Existing; }
    failure := CheckOpened(d, fd.value, h, keys, ino, w, p);
    Separate(d, w, keys, fd.value, ino, p);
    ghost var t1 := d.trace;
    if failure.None? {
      var flushed := FlushOpened(d, fd.value, keys, ino, w, p);
      if flushed.Ok? { stage := Complete; } else { failure := Some(flushed.error); }
    }
    ghost var t2 := d.trace;
    CloseOpened(d, fd.value, keys, w, p, stage);
    if failure.None? { FlushedStill(t2, d.trace, |t1|, |t0|); }
  }

  lemma {:induction false} Separate(d: Disk, w: Watch, keys: set<Fd>, fd: Fd, ino: Ino, p: Plan)
    requires OpenOnIt(d, w, keys, fd, ino, p)
    ensures fd !in keys && d.fs.fds.Keys == keys + {fd}
  {
  }

  /** The lookup that precedes the open. */
  method LookFirst(d: Disk, h: Handle, ghost keys: set<Fd>, ghost w: Watch, ghost p: Plan) returns (failure: Option<Code>)
    requires Going(d, w, p, Existing, Before) && d.fs.fds.Keys == keys
    modifies d
    ensures Going(d, w, p, Existing, Before) && d.fs.fds.Keys == keys && old(d.trace) <= d.trace
  {
    hide OnTrack;
    hide Later;
    ghost var f, t := d.fs, d.trace;
    var looked := d.Lstat(h.replacement);
    Looked(w, t, f, p, Existing, Before, d);
    if looked.Raise? { return Some(looked.error); }
    if looked.value.None? { return Some(MissingEntry); }
    var valid := Validated(looked.value.value);
    return if valid.Raise? then Some(valid.error) else None;
  }

  // ----- Publishing -----

  /** The rename and the checks after it. */
  method RenameIntoPlace(d: Disk, h: Handle, ghost keys: set<Fd>, ghost w: Watch, ghost p: Plan) returns (failure: Option<Code>, ghost entry: Entry)
    requires Going(d, w, p, Complete, Before) && d.fs.fds.Keys == keys && h.replacement == p.temp && h.source == p.dest && p.replacing && h.identity.Some?
    requires FlushedSince(d.trace, w.since)
    modifies d
    ensures Going(d, w, p, Complete, entry) && d.fs.fds.Keys == keys && old(d.trace) <= d.trace && !entry.Abandoned?
    ensures failure.None? ==> entry.Published? && ArtifactSeenAgain(d.trace, w.since, h) && ReplacedSeen(d.trace, w.since, h)
  {
    hide OnTrack;
    hide Later;
    hide SourceIn;
    ghost var f, t := d.fs, d.trace;
    entry := Before;
    ghost var mode;
    failure, mode := VerifyBoth(d, h, false);
    Looked(w, t, f, p, Complete, Before, d);
    if failure.Some? { return; }
    ghost var g, u := d.fs, d.trace;
    FlushedStill(t, u, w.since, w.since);
    SeenAgain(d, w.since, h, mode);
    hide ArtifactIn;
    hide ArtifactSeenAgain;
    hide ReplacedSeen;
    var renamed := d.Try(RenameTo(h.replacement, h.source));
    if renamed.Raise? {
      Looked(w, u, g, p, Complete, Before, d);
      return Some(renamed.error), Before;
    }
    entry := Published;
    Exposed(w.start, u, w.since, g, p, d.trace, d.fs, RenameTo(h.replacement, h.source));
    ExtendsIsLonger(u, g, d.trace, d.fs, Some(RenameTo(h.replacement, h.source)));
    LastIsOurs(u, g, d.trace, d.fs, RenameTo(h.replacement, h.source));
    failure := CheckReplaced(d, h, keys, w, p);
    StillSeenAgain(u, d.trace, w.since, h);
  }

  lemma {:induction false} SeenAgain(d: Disk, since: nat, h: Handle, mode: Mode)
    requires d.Valid() && FlushedSince(d.trace, since) && ArtifactIn(d.fs, h, mode)
    ensures ArtifactSeenAgain(d.trace, since, h)
  {
    var i :| since <= i < |d.trace| && d.trace[i].Ours? && d.trace[i].op.Flush?;
    assert ArtifactIn(After(d.trace[|d.trace| - 1]), h, mode);
  }

  lemma {:induction false} StillSeenAgain(trace: seq<Event>, more: seq<Event>, since: nat, h: Handle)
    requires trace <= more && ArtifactSeenAgain(trace, since, h)
    ensures ArtifactSeenAgain(more, since, h)
  {
    var i, k, mode :| since <= i <= k < |trace| && trace[i].Ours? && trace[i].op.Flush? && ArtifactIn(After(trace[k]), h, mode);
    assert more[i] == trace[i] && more[k] == trace[k];
  }

  method CheckReplaced(d: Disk, h: Handle, ghost keys: set<Fd>, ghost w: Watch, ghost p: Plan) returns (failure: Option<Code>)
    requires Going(d, w, p, Complete, Published) && d.fs.fds.Keys == keys && h.identity.Some?
    requires w.since < |d.trace| && d.trace[|d.trace| - 1].Ours? && d.trace[|d.trace| - 1].op == RenameTo(h.replacement, h.source)
    modifies d
    ensures Going(d, w, p, Complete, Published) && d.fs.fds.Keys == keys && old(d.trace) <= d.trace
    ensures failure.None? ==> ReplacedSeen(d.trace, w.since, h)
  {
    hide OnTrack;
    hide Later;
    hide ReplacedSeen;
    ghost var t := d.trace;
    failure := LookReplaced(d, h, keys, w, p);
    if failure.Some? { return; }
    SeenReplaced(d, t, w.since, h);
    ghost var u := d.trace;
    failure := SyncReplaced(d, keys, w, p);
    StillReplaced(u, d.trace, w.since, h);
  }

  method LookReplaced(d: Disk, h: Handle, ghost keys: set<Fd>, ghost w: Watch, ghost p: Plan) returns (failure: Option<Code>)
    requires Going(d, w, p, Complete, Published) && d.fs.fds.Keys == keys && h.identity.Some?
    modifies d
    ensures Going(d, w, p, Complete, Published) && d.fs.fds.Keys == keys && old(d.trace) <= d.trace
    ensures failure.None? ==> ReplacedIn(d.fs, h)
  {
    hide OnTrack;
    hide Later;
    ghost var f, t := d.fs, d.trace;
    var published, single := LstatLinks(d, h.source);
    Looked(w, t, f, p, Complete, Published, d);
    failure := LinkFailure(published, h.identity.value);
    if failure.Some? { return; }
    if !single || published.value.value.mode != h.retained { return Some(EntryChanged); }
  }

  method SyncReplaced(d: Disk, ghost keys: set<Fd>, ghost w: Watch, ghost p: Plan) returns (failure: Option<Code>)
    requires Going(d, w, p, Complete, Published) && d.fs.fds.Keys == keys
    modifies d
    ensures Going(d, w, p, Complete, Published) && d.fs.fds.Keys == keys && old(d.trace) <= d.trace
  {
    hide OnTrack;
    hide Later;
    ghost var f, t := d.fs, d.trace;
    var synced := d.SyncDirectory();
    Looked(w, t, f, p, Complete, Published, d);
    return if synced.Raise? then Some(synced.error) else None;
  }

  lemma {:induction false} SeenReplaced(d: Disk, t: seq<Event>, since: nat, h: Handle)
    requires d.Valid() && t <= d.trace && since < |t| && ReplacedIn(d.fs, h)
    requires t[|t| - 1].Ours? && t[|t| - 1].op == RenameTo(h.replacement, h.source)
    ensures ReplacedSeen(d.trace, since, h)
  {
    var i, k := |t| - 1, |d.trace| - 1;
    assert d.trace[i] == t[i] && ReplacedIn(After(d.trace[k]), h);
  }

  lemma {:induction false} StillReplaced(trace: seq<Event>, more: seq<Event>, since: nat, h: Handle)
    requires trace <= more && ReplacedSeen(trace, since, h)
    ensures ReplacedSeen(more, since, h)
  {
    var i, k :| since <= i <= k < |trace| && trace[i].Ours? && trace[i].op == RenameTo(h.replacement, h.source) && ReplacedIn(After(trace[k]), h);
    assert more[i] == trace[i] && more[k] == trace[k];
  }

  /** `publish_private_sqlite_replacement_at`. Either it only looked, or it took on the file that it had verified
      under the replacement's name in the directory `found`, as the plan `p`; then every state on the way is as
      `OnTrack` says: in a calm run the database's name leads to the old file or to that very file, synced,
      with its content. Success means that everything was verified, before the flush and after it, and that
      the database's name was then found to lead to the replacement. */
  method Replace(d: Disk, h: Handle, expected: Ino)
    returns (r: Outcome<Ino>, ghost p: Option<Plan>, ghost stage: Stage, ghost entry: Entry, ghost found: Fs)
    requires d.Valid()
    modifies d
    ensures d.Valid() && d.fs.fds.Keys == old(d.fs).fds.Keys
    ensures h.phase != CreatedPhase || expected != h.sourceIno ==> r == Raise(EntryChanged) && d.trace == old(d.trace)
    ensures p.None? ==> r.Raise? && Extends(old(d.trace), old(d.fs), d.trace, d.fs, None)
    ensures p.Some? ==> FsOk(found) && OnlyLookedYet(old(d.trace), old(d.fs), d.trace, found) && SourceWasSeen(old(d.trace), old(d.fs), d.trace, h)
                        && ArtifactIn(found, h, h.retained) && p.value == PlanFor(found, h)
                        && OnTrack(old(d.fs), d.trace, |old(d.trace)|, d.fs, p.value, stage, entry)
    ensures r.Ok? ==> p.Some? && stage.Complete? && entry.Published? && Some(r.value) == h.identity
                      && ArtifactSeenAgain(d.trace, |old(d.trace)|, h) && ReplacedSeen(d.trace, |old(d.trace)|, h)
  {
    hide OnTrack;
    hide Later;
    ghost var w, f, t, keys := Watch(d.fs, |d.trace|), d.fs, d.trace, d.fs.fds.Keys;
    p, stage, entry, found := None, Existing, Before, f;
    if h.phase != CreatedPhase || expected != h.sourceIno {
      Still(d);
      return Raise(EntryChanged), None, Existing, Before, found;
    }
    ghost var mode;
    var failure;
    failure, mode := VerifyBoth(d, h, true);
    if failure.Some? { return Raise(failure.value), None, Existing, Before, found; }
    found := d.fs;
    ghost var t1, plan := d.trace, PlanFor(found, h);
    ExtendsIsLonger(t, f, t1, found, None);
    Adopted(w.start, t, t1, found, plan);
    p := Some(plan);
    failure, stage, entry := Proceed(d, h, keys, w, plan);
    LookedBefore(t, f, t1, d.trace, found, h);
    return if failure.Some? then Raise(failure.value) else Ok(h.identity.value), p, stage, entry, found;
  }

  method Proceed(d: Disk, h: Handle, ghost keys: set<Fd>, ghost w: Watch, ghost p: Plan) returns (failure: Option<Code>, ghost stage: Stage, ghost entry: Entry)
    requires Going(d, w, p, Existing, Before) && d.fs.fds.Keys == keys && h.replacement == p.temp && h.source == p.dest && p.replacing && h.identity.Some?
    requires w.since <= |d.trace|
    modifies d
    ensures Going(d, w, p, stage, entry) && d.fs.fds.Keys == keys && old(d.trace) <= d.trace
    ensures failure.None? ==> stage.Complete? && entry.Published? && ArtifactSeenAgain(d.trace, w.since, h) && ReplacedSeen(d.trace, w.since, h)
  {
    hide OnTrack;
    entry := Before;
    ghost var t := d.trace;
    failure, stage := FlushArtifact(d, h, keys, w, p);
    if failure.None? {
      FlushedStill(d.trace, d.trace, |t|, w.since);
      failure, entry := RenameIntoPlace(d, h, keys, w, p);
    }
  }

  lemma {:induction false} LookedBefore(t: seq<Event>, f: Fs, t1: seq<Event>, trace: seq<Event>, found: Fs, h: Handle)
    requires t <= t1 <= trace && Extends(t, f, t1, found, None) && SourceWasSeen(t, f, t1, h)
    ensures OnlyLookedYet(t, f, trace, found) && SourceWasSeen(t, f, trace, h)
  {
    var u, g :| t <= u <= t1 && Extends(t, f, u, g, None) && SourceIn(g, h);
    assert u <= trace;
  }

  ghost function PlanFor(f: Fs, h: Handle): (p: Plan)
    requires FsOk(f) && h.replacement in f.names
    ensures p.temp == h.replacement && p.dest == h.source && p.replacing && !p.made
    ensures LeadsToOurs(f, h.replacement, p) && f.table[f.names[h.replacement]].content == p.content
  {
    var o := f.table[f.names[h.replacement]];
    Plan(h.replacement, h.source, o.serial, o.content, true, false)
  }
}
