/** The same directory with every state it passes through kept, so that what holds at a crash can be
    said of each of them: a new file's content, and where its names lead, step by step. */
module PublishedEntries {
  import opened Options
  import opened FileSystem

  // ----- Our own steps -----

  datatype Op =
    | NewFile(name: Name, ino: Ino, mask: Mode)
    | Append(fd: Fd, bytes: seq<Byte>)
    | Flush(fd: Fd)
    | SetMode(fd: Fd, mode: Mode)
    | LinkTo(source: Name, name: Name)
    | RenameTo(source: Name, name: Name)
    | Drop(name: Name)
    | OpenFile(name: Name)
    | CloseFd(fd: Fd)

  predicate Live(f: Fs, d: Fd) {
    d in f.fds && f.fds[d] in f.table
  }

  function WithObject(f: Fs, d: Fd, o: Object): Fs
    requires Live(f, d)
  {
    f.(table := f.table[f.fds[d] := o])
  }

  function Effect(f: Fs, op: Op): Fs {
    match op
    case NewFile(n, i, mask) =>
      if n in f.names || i in f.table then f
      else f.(names := f.names[n := i], table := f.table[i := Object(true, true, PRIVATE_FILE_MODE & mask, [], false, f.serials)],
              serials := f.serials + 1, fds := f.fds[f.nextFd := i], nextFd := f.nextFd + 1)
    case Append(d, bytes) =>
      if !Live(f, d) then f
      else WithObject(f, d, f.table[f.fds[d]].(content := f.table[f.fds[d]].content + bytes, synced := false))
    case Flush(d) => if !Live(f, d) then f else WithObject(f, d, f.table[f.fds[d]].(synced := true))
    case SetMode(d, mode) => if !Live(f, d) then f else WithObject(f, d, f.table[f.fds[d]].(mode := mode))
    case LinkTo(o, n) => if o !in f.names || n in f.names then f else f.(names := f.names[n := f.names[o]])
    case RenameTo(o, n) =>
      if o !in f.names || (n in f.names && f.names[n] == f.names[o]) then f else f.(names := (f.names - {o})[n := f.names[o]])
    case Drop(n) => f.(names := f.names - {n})
    case OpenFile(n) => if n !in f.names then f else f.(fds := f.fds[f.nextFd := f.names[n]], nextFd := f.nextFd + 1)
    case CloseFd(d) => f.(fds := f.fds - {d})
  }

  lemma {:induction false} EffectIsLater(f: Fs, op: Op)
    requires FsOk(f)
    ensures Later(f, Effect(f, op))
  {
    hide Later;
    var g := Effect(f, op);
    if g == f { LaterReflexive(f); }
    else {
      match op
      case NewFile(n, i, mask) => NewFileIsLater(f, n, i, mask);
      case Append(d, _) => TouchedIsLater(f, g, f.fds[d]);
      case Flush(d) => TouchedIsLater(f, g, f.fds[d]);
      case SetMode(d, _) => TouchedIsLater(f, g, f.fds[d]);
      case LinkTo(_, _) => RenamedIsLater(f, g);
      case RenameTo(_, _) => RenamedIsLater(f, g);
      case Drop(_) => RenamedIsLater(f, g);
      case OpenFile(n) => OpenedIsLater(f, n);
      case CloseFd(d) => if d in f.fds { ClosedIsLater(f, d); }
    }
  }

  lemma {:induction false} NewFileIsLater(f: Fs, n: Name, i: Ino, mask: Mode)
    requires FsOk(f) && n !in f.names && i !in f.table
    ensures Later(f, Effect(f, NewFile(n, i, mask)))
  {
    hide Later;
    hide FsOk;
    var g := Effect(f, NewFile(n, i, mask));
    var h := f.(names := g.names, table := g.table, serials := g.serials);
    MadeIsLater(f, h, n, i);
    LaterOk(f, h);
    OpenedIsLater(h, n);
    LaterTransitive(f, h, g);
  }

  lemma {:induction false} LaterOk(f: Fs, g: Fs)
    requires Later(f, g)
    ensures FsOk(g)
  {
  }

  // ----- Every step of anybody -----

  datatype Event = Theirs(before: Fs, act: Outside) | Ours(before: Fs, op: Op)

  function After(e: Event): Fs {
    match e
    case Theirs(before, act) => Done(before, act)
    case Ours(before, op) => Effect(before, op)
  }

  function TheirTrace(f: Fs, acts: seq<Outside>): (t: seq<Event>)
    ensures |t| == |acts|
  {
    if acts == [] then []
    else TheirTrace(f, acts[..|acts| - 1]) + [Theirs(AllDone(f, acts[..|acts| - 1]), acts[|acts| - 1])]
  }

  /** The system does not refuse the step. */
  predicate Possible(f: Fs, op: Op) {
    match op
    case NewFile(n, i, _) => n !in f.names && i !in f.table
    case LinkTo(o, n) => o in f.names && n !in f.names
    case RenameTo(o, _) => o in f.names
    case Drop(n) => n in f.names
    case OpenFile(n) => n in f.names
    case _ => true
  }

  /** Others act, and then, perhaps, we do one thing. */
  predicate Extended(before: seq<Event>, f: Fs, trace: seq<Event>, g: Fs, op: Option<Op>, acts: seq<Outside>) {
    var h := AllDone(f, acts);
    match op
    case None => trace == before + TheirTrace(f, acts) && g == h
    case Some(o) => Possible(h, o) && trace == before + TheirTrace(f, acts) + [Ours(h, o)] && g == Effect(h, o)
  }

  ghost predicate Extends(before: seq<Event>, f: Fs, trace: seq<Event>, g: Fs, op: Option<Op>) {
    exists acts: seq<Outside> :: Extended(before, f, trace, g, op, acts)
  }

  lemma {:induction false} AllDoneJoined(f: Fs, a: seq<Outside>, b: seq<Outside>)
    ensures AllDone(f, a + b) == AllDone(AllDone(f, a), b) && TheirTrace(f, a + b) == TheirTrace(f, a) + TheirTrace(AllDone(f, a), b)
    decreases |b|
  {
    hide Done;
    if b == [] {
      assert a + b == a;
    } else {
      var c, act := b[..|b| - 1], b[|b| - 1];
      AllDoneJoined(f, a, c);
      assert (a + b)[..|a + b| - 1] == a + c && (a + b)[|a + b| - 1] == act;
      var h := AllDone(f, a);
      assert TheirTrace(h, b) == TheirTrace(h, c) + [Theirs(AllDone(h, c), act)];
      assert TheirTrace(f, a + b) == TheirTrace(f, a + c) + [Theirs(AllDone(f, a + c), act)];
    }
  }

  lemma {:induction false} ExtendsTwice(t0: seq<Event>, f0: Fs, t1: seq<Event>, f1: Fs, t2: seq<Event>, f2: Fs, op: Option<Op>)
    requires Extends(t0, f0, t1, f1, None) && Extends(t1, f1, t2, f2, op)
    ensures Extends(t0, f0, t2, f2, op)
  {
    hide Done;
    hide Effect;
    hide AllDone;
    hide TheirTrace;
    var a :| Extended(t0, f0, t1, f1, None, a);
    var b :| Extended(t1, f1, t2, f2, op, b);
    AllDoneJoined(f0, a, b);
    assert Extended(t0, f0, t2, f2, op, a + b);
  }

  // ----- What is claimed of each state -----

  /** A file under way: its temporary name, its destination, the serial of its object, what that is to
      contain, whether the destination may be replaced, and whether the object is made here. */
  datatype Plan = Plan(temp: Name, dest: Name, serial: nat, content: seq<Byte>, replacing: bool, made: bool)

  predicate Mentions(act: Outside, n: Name) {
    match act
    case Make(name, _, _, _, _, _) => name == n
    case Link(source, name) => source == n || name == n
    case Unlink(name) => name == n
    case Rename(source, name) => source == n || name == n
    case _ => false
  }

  /** Our object: the one with the plan's serial. */
  predicate IsOurs(f: Fs, i: Ino, p: Plan) {
    i in f.table && f.table[i].serial == p.serial
  }

  predicate LeadsToOurs(f: Fs, n: Name, p: Plan) {
    n in f.names && IsOurs(f, f.names[n], p)
  }

  predicate LeavesAlone(e: Event, p: Plan) {
    e.Theirs? ==> !Mentions(e.act, p.temp) && (e.act.Write? ==> !IsOurs(e.before, e.act.ino, p))
  }

  /** In the steps before the k-th, nobody else uses the temporary name or writes to our object. */
  ghost predicate HandsOffTo(trace: seq<Event>, since: nat, k: nat, p: Plan)
    requires k <= |trace|
  {
    forall i :: since <= i < k ==> LeavesAlone(trace[i], p)
  }

  ghost predicate HandsOff(trace: seq<Event>, since: nat, p: Plan) {
    HandsOffTo(trace, since, |trace|, p)
  }

  predicate LeavesDestination(e: Event, p: Plan) {
    e.Theirs? ==> !Mentions(e.act, p.dest)
  }

  /** Nobody else uses the destination name either. */
  ghost predicate CalmTo(trace: seq<Event>, since: nat, k: nat, p: Plan)
    requires k <= |trace|
  {
    p.temp != p.dest && HandsOffTo(trace, since, k, p) && forall i :: since <= i < k ==> LeavesDestination(trace[i], p)
  }

  ghost predicate Calm(trace: seq<Event>, since: nat, p: Plan) {
    CalmTo(trace, since, |trace|, p)
  }

  predicate Finished(f: Fs, i: Ino, p: Plan)
    requires i in f.table
  {
    f.table[i].content == p.content && f.table[i].synced
  }

  /** No name but the temporary one leads to our object before it is complete and synced. */
  ghost predicate NeverPartial(f: Fs, p: Plan) {
    forall n :: LeadsToOurs(f, n, p) && n != p.temp ==> Finished(f, f.names[n], p)
  }

  /** The name leads where it led at the start: nowhere, or to that very object. */
  predicate SameEntry(start: Fs, f: Fs, n: Name) {
    && (n in start.names <==> n in f.names)
    && (n in f.names && f.names[n] in f.table && start.names[n] in start.table
        ==> f.names[n] == start.names[n] && f.table[f.names[n]].serial == start.table[start.names[n]].serial)
  }

  /** The destination is the old entry or the complete new one. */
  ghost predicate OldOrNew(start: Fs, f: Fs, p: Plan) {
    SameEntry(start, f, p.dest) || (LeadsToOurs(f, p.dest, p) && Finished(f, f.names[p.dest], p))
  }

  /** Our step leaves every entry but the temporary one, and a destination to be replaced. */
  predicate KeepsEntries(e: Event, p: Plan) {
    e.Ours? ==> forall n :: n in e.before.names && n != p.temp && !(p.replacing && n == p.dest)
                            ==> n in After(e).names && After(e).names[n] == e.before.names[n]
  }

  ghost predicate AllKeepEntries(trace: seq<Event>, since: nat, p: Plan) {
    forall i :: since <= i < |trace| ==> KeepsEntries(trace[i], p)
  }

  /** After each step, provided that nobody has interfered up to it. */
  ghost predicate AlwaysComplete(trace: seq<Event>, since: nat, p: Plan) {
    forall i :: since <= i < |trace| ==> (HandsOffTo(trace, since, i + 1, p) ==> NeverPartial(After(trace[i]), p))
  }

  ghost predicate AlwaysOldOrNew(start: Fs, trace: seq<Event>, since: nat, p: Plan) {
    forall i :: since <= i < |trace| ==> (CalmTo(trace, since, i + 1, p) ==> OldOrNew(start, After(trace[i]), p))
  }

  // ----- Where a publication stands -----

  datatype Stage = Unmade | Writing(written: seq<Byte>) | Existing | Complete

  datatype Entry = Before | Published | Abandoned

  ghost predicate ContentStands(f: Fs, p: Plan, stage: Stage) {
    match stage
    case Unmade => f.serials <= p.serial
    case Writing(written) =>
      && p.serial < f.serials && (forall n :: LeadsToOurs(f, n, p) ==> n == p.temp)
      && forall i :: IsOurs(f, i, p) ==> f.table[i].content == written
    case Existing =>
      && p.serial < f.serials && !p.made && LeadsToOurs(f, p.temp, p)
      && forall i :: IsOurs(f, i, p) ==> f.table[i].content == p.content
    case Complete => p.serial < f.serials && forall i :: IsOurs(f, i, p) ==> Finished(f, i, p)
  }

  ghost predicate EntryStands(start: Fs, f: Fs, p: Plan, stage: Stage, entry: Entry) {
    match entry
    case Before => SameEntry(start, f, p.dest) && (!stage.Unmade? ==> LeadsToOurs(f, p.temp, p))
    case Abandoned => SameEntry(start, f, p.dest)
    case Published => stage.Complete? && LeadsToOurs(f, p.dest, p) && (!p.replacing ==> p.dest !in start.names)
  }

  /** So far every state was as promised, and the last one stands at this stage. */
  ghost predicate OnTrack(start: Fs, trace: seq<Event>, since: nat, f: Fs, p: Plan, stage: Stage, entry: Entry) {
    && since <= |trace| && FsOk(f) && AllKeepEntries(trace, since, p)
    && (p.made ==> AlwaysComplete(trace, since, p)) && AlwaysOldOrNew(start, trace, since, p)
    && (HandsOff(trace, since, p) ==> ContentStands(f, p, stage))
    && (Calm(trace, since, p) ==> EntryStands(start, f, p, stage, entry))
  }

  lemma {:induction false} StartsOnTrack(f: Fs, trace: seq<Event>, p: Plan)
    requires FsOk(f) && f.serials <= p.serial
    ensures OnTrack(f, trace, |trace|, f, p, Unmade, Before)
  {
  }

  lemma {:induction false} StandsIsGood(start: Fs, f: Fs, p: Plan, stage: Stage, entry: Entry)
    requires FsOk(f) && ContentStands(f, p, stage)
    ensures p.made ==> NeverPartial(f, p)
    ensures EntryStands(start, f, p, stage, entry) ==> OldOrNew(start, f, p)
  {
  }

  /** One more step, of anybody. */
  lemma {:induction false} OneMore(start: Fs, trace: seq<Event>, since: nat, p: Plan, stage: Stage, entry: Entry, e: Event,
                                   stage': Stage, entry': Entry)
    requires OnTrack(start, trace, since, e.before, p, stage, entry) && FsOk(After(e)) && KeepsEntries(e, p)
    requires (HandsOff(trace, since, p) && ContentStands(e.before, p, stage) && LeavesAlone(e, p)) ==> ContentStands(After(e), p, stage')
    requires (HandsOff(trace, since, p) && ContentStands(e.before, p, stage) && EntryStands(start, e.before, p, stage, entry)
              && LeavesAlone(e, p) && LeavesDestination(e, p) && p.temp != p.dest) ==> EntryStands(start, After(e), p, stage', entry')
    ensures OnTrack(start, trace + [e], since, After(e), p, stage', entry')
  {
    hide ContentStands;
    hide EntryStands;
    hide LeavesAlone;
    hide LeavesDestination;
    hide KeepsEntries;
    hide NeverPartial;
    hide OldOrNew;
    var more, g := trace + [e], After(e);
    assert more[|trace|] == e;
    SamePrefix(trace, more, since, |trace|, p);
    if HandsOff(more, since, p) { StandsIsGood(start, g, p, stage', entry'); }
    if p.made { StillAlwaysComplete(trace, e, since, p); }
    StillAlwaysOldOrNew(start, trace, e, since, p);
  }

  lemma {:induction false} StillAlwaysComplete(trace: seq<Event>, e: Event, since: nat, p: Plan)
    requires AlwaysComplete(trace, since, p) && (HandsOff(trace + [e], since, p) ==> NeverPartial(After(e), p))
    ensures AlwaysComplete(trace + [e], since, p)
  {
    hide NeverPartial;
    hide HandsOffTo;
    var more := trace + [e];
    forall i | since <= i < |more| ensures HandsOffTo(more, since, i + 1, p) ==> NeverPartial(After(more[i]), p) {
      if i < |trace| {
        assert more[i] == trace[i];
        SamePrefix(trace, more, since, i + 1, p);
      }
    }
  }

  lemma {:induction false} StillAlwaysOldOrNew(start: Fs, trace: seq<Event>, e: Event, since: nat, p: Plan)
    requires AlwaysOldOrNew(start, trace, since, p) && (Calm(trace + [e], since, p) ==> OldOrNew(start, After(e), p))
    ensures AlwaysOldOrNew(start, trace + [e], since, p)
  {
    hide OldOrNew;
    hide CalmTo;
    var more := trace + [e];
    forall i | since <= i < |more| ensures CalmTo(more, since, i + 1, p) ==> OldOrNew(start, After(more[i]), p) {
      if i < |trace| {
        assert more[i] == trace[i];
        SamePrefix(trace, more, since, i + 1, p);
      }
    }
  }

  lemma {:induction false} SamePrefix(trace: seq<Event>, more: seq<Event>, since: nat, k: nat, p: Plan)
    requires k <= |trace| && trace <= more
    ensures HandsOffTo(more, since, k, p) <==> HandsOffTo(trace, since, k, p)
    ensures CalmTo(more, since, k, p) <==> CalmTo(trace, since, k, p)
  {
    forall i | since <= i < k ensures more[i] == trace[i] {}
  }

  lemma {:induction false} TheirStepKeepsContent(f: Fs, act: Outside, p: Plan, stage: Stage)
    requires FsOk(f) && ContentStands(f, p, stage) && LeavesAlone(Theirs(f, act), p) && (stage.Unmade? ==> Done(f, act).serials <= p.serial)
    ensures ContentStands(Done(f, act), p, stage)
  {
    var g := Done(f, act);
    if stage.Existing? { TheirStepKeepsEntry(f, act, p.temp); }
    if g != f && !stage.Unmade? {
      forall i | IsOurs(g, i, p) ensures IsOurs(f, i, p) && g.table[i].content == f.table[i].content && g.table[i].synced == f.table[i].synced {}
      if stage.Writing? {
        forall n | LeadsToOurs(g, n, p) ensures n == p.temp {
          match act
          case Make(_, _, _, _, _, _) => assert LeadsToOurs(f, n, p);
          case Link(o, m) => assert if n == m then LeadsToOurs(f, o, p) else LeadsToOurs(f, n, p);
          case Rename(o, m) => assert if n == m then LeadsToOurs(f, o, p) else LeadsToOurs(f, n, p);
          case _ => assert LeadsToOurs(f, n, p);
        }
      }
    }
  }

  lemma {:induction false} TheirStepKeepsEntry(f: Fs, act: Outside, n: Name)
    requires FsOk(f) && !Mentions(act, n)
    ensures n in f.names <==> n in Done(f, act).names
    ensures n in f.names ==> Done(f, act).names[n] == f.names[n] && f.names[n] in f.table && f.names[n] in Done(f, act).table
                             && Done(f, act).table[f.names[n]].serial == f.table[f.names[n]].serial
  {
  }

  lemma {:induction false} TheirStepOnTrack(start: Fs, trace: seq<Event>, since: nat, f: Fs, p: Plan, stage: Stage, entry: Entry, act: Outside)
    requires OnTrack(start, trace, since, f, p, stage, entry) && (stage.Unmade? ==> Done(f, act).serials <= p.serial)
    ensures OnTrack(start, trace + [Theirs(f, act)], since, Done(f, act), p, stage, entry)
  {
    hide ContentStands;
    hide OnTrack;
    hide FsOk;
    assert FsOk(f) by { TrackOk(start, trace, since, f, p, stage, entry); }
    var e := Theirs(f, act);
    DoneIsLater(f, act);
    hide Later;
    assert FsOk(Done(f, act)) by { LaterOk(f, Done(f, act)); }
    if ContentStands(f, p, stage) && LeavesAlone(e, p) { TheirStepKeepsContent(f, act, p, stage); }
    if !Mentions(act, p.temp) { TheirStepKeepsEntry(f, act, p.temp); }
    if !Mentions(act, p.dest) { TheirStepKeepsEntry(f, act, p.dest); }
    OneMore(start, trace, since, p, stage, entry, e, stage, entry);
  }

  lemma {:induction false} TrackOk(start: Fs, trace: seq<Event>, since: nat, f: Fs, p: Plan, stage: Stage, entry: Entry)
    requires OnTrack(start, trace, since, f, p, stage, entry)
    ensures FsOk(f)
  {
  }

  lemma {:induction false} TheirStepsOnTrack(start: Fs, trace: seq<Event>, since: nat, f: Fs, p: Plan, stage: Stage, entry: Entry, acts: seq<Outside>)
    requires OnTrack(start, trace, since, f, p, stage, entry) && (stage.Unmade? ==> AllDone(f, acts).serials <= p.serial)
    ensures OnTrack(start, trace + TheirTrace(f, acts), since, AllDone(f, acts), p, stage, entry)
  {
    hide OnTrack;
    if acts == [] { assert trace + TheirTrace(f, acts) == trace; }
    else {
      var init, act := acts[..|acts| - 1], acts[|acts| - 1];
      TrackOk(start, trace, since, f, p, stage, entry);
      AllDoneIsLater(f, init);
      DoneIsLater(AllDone(f, init), act);
      TheirStepsOnTrack(start, trace, since, f, p, stage, entry, init);
      TheirStepOnTrack(start, trace + TheirTrace(f, init), since, AllDone(f, init), p, stage, entry, act);
      assert trace + TheirTrace(f, acts) == trace + TheirTrace(f, init) + [Theirs(AllDone(f, init), act)];
    }
  }

  // ----- Our steps -----

  /** Others acted, and then the temporary name leads to a file that was there: it is taken on as it is. */
  lemma {:induction false} Adopted(start: Fs, t0: seq<Event>, trace: seq<Event>, g: Fs, p: Plan)
    requires FsOk(start) && Extends(t0, start, trace, g, None) && !p.made
    requires LeadsToOurs(g, p.temp, p) && g.table[g.names[p.temp]].content == p.content
    ensures OnTrack(start, trace, |t0|, g, p, Existing, Before)
  {
    hide Done;
    var acts :| Extended(t0, start, trace, g, None, acts);
    AllDoneIsLater(start, acts);
    TheirsAreTheirs(start, acts);
    if HandsOff(trace, |t0|, p) {
      forall i | 0 <= i < |acts| ensures LeavesAlone(TheirTrace(start, acts)[i], p) { assert trace[|t0| + i] == TheirTrace(start, acts)[i]; }
      LedThere(start, acts, p);
      assert t0[..|t0|] == t0;
      StartsExisting(start, t0, p);
      TheirStepsOnTrack(start, t0, |t0|, start, p, Existing, Before, acts);
    } else {
      forall i | |t0| <= i < |trace|
        ensures KeepsEntries(trace[i], p) && (CalmTo(trace, |t0|, i + 1, p) ==> OldOrNew(start, After(trace[i]), p))
      {
        assert trace[i] == TheirTrace(start, acts)[i - |t0|];
        if CalmTo(trace, |t0|, i + 1, p) { TheirsKeepDestination(start, t0, trace, acts, i - |t0|, p); }
      }
    }
  }

  lemma {:induction false} TheirsKeepDestination(start: Fs, t0: seq<Event>, trace: seq<Event>, acts: seq<Outside>, k: nat, p: Plan)
    requires FsOk(start) && trace == t0 + TheirTrace(start, acts) && k < |acts| && CalmTo(trace, |t0|, |t0| + k + 1, p)
    ensures SameEntry(start, After(TheirTrace(start, acts)[k]), p.dest)
  {
    PrefixTrace(start, acts, k);
    forall i | 0 <= i <= k ensures !Mentions(acts[i], p.dest) {
      PrefixTrace(start, acts, i);
      assert trace[|t0| + i] == TheirTrace(start, acts)[i] && LeavesDestination(trace[|t0| + i], p);
    }
    UnmentionedStays(start, acts[..k + 1], p.dest);
  }

  lemma {:induction false} PrefixTrace(f: Fs, acts: seq<Outside>, k: nat)
    requires k < |acts|
    ensures TheirTrace(f, acts)[k] == Theirs(AllDone(f, acts[..k]), acts[k]) && After(TheirTrace(f, acts)[k]) == AllDone(f, acts[..k + 1])
    decreases |acts|
  {
    hide Done;
    assert acts[..k + 1][..k] == acts[..k];
    if k < |acts| - 1 {
      PrefixTrace(f, acts[..|acts| - 1], k);
      assert acts[..|acts| - 1][..k] == acts[..k] && acts[..|acts| - 1][..k + 1] == acts[..k + 1];
    }
  }

  lemma {:induction false} UnmentionedStays(f: Fs, acts: seq<Outside>, n: Name)
    requires FsOk(f) && forall i :: 0 <= i < |acts| ==> !Mentions(acts[i], n)
    ensures SameEntry(f, AllDone(f, acts), n)
    decreases |acts|
  {
    hide Done;
    if acts != [] {
      UnmentionedStays(f, acts[..|acts| - 1], n);
      AllDoneIsLater(f, acts[..|acts| - 1]);
      TheirStepKeepsEntry(AllDone(f, acts[..|acts| - 1]), acts[|acts| - 1], n);
    }
  }

  lemma {:induction false} StartsExisting(f: Fs, trace: seq<Event>, p: Plan)
    requires FsOk(f) && LeadsToOurs(f, p.temp, p) && f.table[f.names[p.temp]].content == p.content && !p.made
    ensures OnTrack(f, trace, |trace|, f, p, Existing, Before)
  {
  }

  lemma {:induction false} TheirsAreTheirs(f: Fs, acts: seq<Outside>)
    ensures forall i :: 0 <= i < |acts| ==> TheirTrace(f, acts)[i].Theirs?
    decreases |acts|
  {
    if acts != [] { TheirsAreTheirs(f, acts[..|acts| - 1]); }
  }

  /** A name that nobody mentioned led there from the start, and what was not written to is as it was. */
  lemma {:induction false} LedThere(f: Fs, acts: seq<Outside>, p: Plan)
    requires FsOk(f) && forall i :: 0 <= i < |acts| ==> LeavesAlone(TheirTrace(f, acts)[i], p)
    requires LeadsToOurs(AllDone(f, acts), p.temp, p)
    ensures LeadsToOurs(f, p.temp, p) && f.names[p.temp] == AllDone(f, acts).names[p.temp]
    ensures f.table[f.names[p.temp]].content == AllDone(f, acts).table[f.names[p.temp]].content
    decreases |acts|
  {
    if acts != [] {
      var init, act := acts[..|acts| - 1], acts[|acts| - 1];
      var h := AllDone(f, init);
      AllDoneIsLater(f, init);
      assert LeavesAlone(TheirTrace(f, acts)[|acts| - 1], p);
      LedOneStep(h, act, p);
      forall i | 0 <= i < |init| ensures LeavesAlone(TheirTrace(f, init)[i], p) { assert TheirTrace(f, init)[i] == TheirTrace(f, acts)[i]; }
      LedThere(f, init, p);
    }
  }

  lemma {:induction false} LedOneStep(h: Fs, act: Outside, p: Plan)
    requires FsOk(h) && LeavesAlone(Theirs(h, act), p) && LeadsToOurs(Done(h, act), p.temp, p)
    ensures LeadsToOurs(h, p.temp, p) && h.names[p.temp] == Done(h, act).names[p.temp]
    ensures h.table[h.names[p.temp]].content == Done(h, act).table[h.names[p.temp]].content
  {
    TheirStepKeepsEntry(h, act, p.temp);
  }

  /** Nothing of ours: others acted. */
  lemma {:induction false} Waited(start: Fs, trace: seq<Event>, since: nat, f: Fs, p: Plan, stage: Stage, entry: Entry, more: seq<Event>, g: Fs)
    requires OnTrack(start, trace, since, f, p, stage, entry) && Extends(trace, f, more, g, None) && (stage.Unmade? ==> g.serials <= p.serial)
    ensures OnTrack(start, more, since, g, p, stage, entry)
  {
    hide OnTrack;
    var acts :| Extended(trace, f, more, g, None, acts);
    TheirStepsOnTrack(start, trace, since, f, p, stage, entry, acts);
  }

  /** Up to our step. */
  lemma {:induction false} UpTo(start: Fs, trace: seq<Event>, since: nat, f: Fs, p: Plan, stage: Stage, entry: Entry, more: seq<Event>, g: Fs, op: Op)
    returns (middle: seq<Event>, h: Fs)
    requires OnTrack(start, trace, since, f, p, stage, entry) && Extends(trace, f, more, g, Some(op))
    requires stage.Unmade? ==> forall acts :: Extended(trace, f, more, g, Some(op), acts) ==> AllDone(f, acts).serials <= p.serial
    ensures OnTrack(start, middle, since, h, p, stage, entry) && more == middle + [Ours(h, op)] && g == Effect(h, op) && FsOk(g)
    ensures Later(f, h) && h.fds == f.fds && Possible(h, op) && trace <= middle
  {
    hide OnTrack;
    var acts :| Extended(trace, f, more, g, Some(op), acts);
    TheirStepsOnTrack(start, trace, since, f, p, stage, entry, acts);
    middle, h := trace + TheirTrace(f, acts), AllDone(f, acts);
    TrackOk(start, trace, since, f, p, stage, entry);
    AllDoneIsLater(f, acts);
    EffectIsLater(h, op);
  }

  lemma {:induction false} Made(start: Fs, trace: seq<Event>, since: nat, f: Fs, p: Plan, more: seq<Event>, g: Fs, ino: Ino, mask: Mode)
    requires OnTrack(start, trace, since, f, p, Unmade, Before) && Extends(trace, f, more, g, Some(NewFile(p.temp, ino, mask)))
    requires g.serials == p.serial + 1
    ensures OnTrack(start, more, since, g, p, Writing([]), Before)
  {
    hide OnTrack;
    hide ContentStands;
    hide EntryStands;
    var op := NewFile(p.temp, ino, mask);
    var middle, h := UpTo(start, trace, since, f, p, Unmade, Before, more, g, op);
    NewFileStands(start, h, p, ino, mask);
    OneMore(start, middle, since, p, Unmade, Before, Ours(h, op), Writing([]), Before);
  }

  lemma {:induction false} NewFileStands(start: Fs, h: Fs, p: Plan, ino: Ino, mask: Mode)
    requires FsOk(h) && p.temp !in h.names && ino !in h.table && h.serials == p.serial
    ensures ContentStands(Effect(h, NewFile(p.temp, ino, mask)), p, Writing([]))
    ensures EntryStands(start, h, p, Unmade, Before) && p.temp != p.dest
            ==> EntryStands(start, Effect(h, NewFile(p.temp, ino, mask)), p, Writing([]), Before)
  {
  }

  lemma {:induction false} Appended(start: Fs, trace: seq<Event>, since: nat, f: Fs, p: Plan, written: seq<Byte>, entry: Entry,
                                    more: seq<Event>, g: Fs, d: Fd, i: Ino, bytes: seq<Byte>)
    requires OnTrack(start, trace, since, f, p, Writing(written), entry) && Extends(trace, f, more, g, Some(Append(d, bytes)))
    requires Pinned(f, d, i, p.serial)
    ensures OnTrack(start, more, since, g, p, Writing(written + bytes), entry)
  {
    var middle, h := UpTo(start, trace, since, f, p, Writing(written), entry, more, g, Append(d, bytes));
    assert Pinned(h, d, i, p.serial);
    AppendStands(start, h, p, written, entry, d, i, bytes);
    OneMore(start, middle, since, p, Writing(written), entry, Ours(h, Append(d, bytes)), Writing(written + bytes), entry);
  }

  lemma {:induction false} AppendStands(start: Fs, h: Fs, p: Plan, written: seq<Byte>, entry: Entry, d: Fd, i: Ino, bytes: seq<Byte>)
    requires FsOk(h) && Pinned(h, d, i, p.serial)
    ensures ContentStands(h, p, Writing(written)) ==> ContentStands(Effect(h, Append(d, bytes)), p, Writing(written + bytes))
    ensures EntryStands(start, h, p, Writing(written), entry) ==> EntryStands(start, Effect(h, Append(d, bytes)), p, Writing(written + bytes), entry)
  {
    var g := Effect(h, Append(d, bytes));
    assert forall j :: IsOurs(g, j, p) <==> IsOurs(h, j, p);
    assert forall n :: LeadsToOurs(g, n, p) <==> LeadsToOurs(h, n, p);
  }

  lemma {:induction false} Flushed(start: Fs, trace: seq<Event>, since: nat, f: Fs, p: Plan, entry: Entry, more: seq<Event>, g: Fs, d: Fd, i: Ino)
    requires OnTrack(start, trace, since, f, p, Writing(p.content), entry) && Extends(trace, f, more, g, Some(Flush(d)))
    requires Pinned(f, d, i, p.serial)
    ensures OnTrack(start, more, since, g, p, Complete, entry)
  {
    var middle, h := UpTo(start, trace, since, f, p, Writing(p.content), entry, more, g, Flush(d));
    assert Pinned(h, d, i, p.serial);
    FlushStands(start, h, p, entry, d, i);
    OneMore(start, middle, since, p, Writing(p.content), entry, Ours(h, Flush(d)), Complete, entry);
  }

  lemma {:induction false} FlushStands(start: Fs, h: Fs, p: Plan, entry: Entry, d: Fd, i: Ino)
    requires FsOk(h) && Pinned(h, d, i, p.serial)
    ensures ContentStands(h, p, Writing(p.content)) ==> ContentStands(Effect(h, Flush(d)), p, Complete)
    ensures EntryStands(start, h, p, Writing(p.content), entry) ==> EntryStands(start, Effect(h, Flush(d)), p, Complete, entry)
  {
    var g := Effect(h, Flush(d));
    assert forall j :: IsOurs(g, j, p) <==> IsOurs(h, j, p);
    assert forall n :: LeadsToOurs(g, n, p) <==> LeadsToOurs(h, n, p);
  }

  /** The same for a file that was there, if the descriptor is open on it. */
  lemma {:induction false} FlushedExisting(start: Fs, trace: seq<Event>, since: nat, f: Fs, p: Plan, entry: Entry, more: seq<Event>, g: Fs, d: Fd, i: Ino)
    requires OnTrack(start, trace, since, f, p, Existing, entry) && Extends(trace, f, more, g, Some(Flush(d)))
    requires HandsOff(trace, since, p) ==> Pinned(f, d, i, p.serial)
    ensures OnTrack(start, more, since, g, p, Complete, entry)
  {
    var middle, h := UpTo(start, trace, since, f, p, Existing, entry, more, g, Flush(d));
    if HandsOff(middle, since, p) {
      HandsOffSooner(trace, middle, since, p);
      assert Pinned(h, d, i, p.serial);
      FlushExistingStands(start, h, p, entry, d, i);
    }
    OneMore(start, middle, since, p, Existing, entry, Ours(h, Flush(d)), Complete, entry);
  }

  lemma {:induction false} HandsOffSooner(trace: seq<Event>, more: seq<Event>, since: nat, p: Plan)
    requires trace <= more && HandsOff(more, since, p)
    ensures HandsOff(trace, since, p)
  {
    forall i | since <= i < |trace| ensures LeavesAlone(trace[i], p) { assert more[i] == trace[i]; }
  }

  lemma {:induction false} FlushExistingStands(start: Fs, h: Fs, p: Plan, entry: Entry, d: Fd, i: Ino)
    requires FsOk(h) && Pinned(h, d, i, p.serial)
    ensures ContentStands(h, p, Existing) ==> ContentStands(Effect(h, Flush(d)), p, Complete)
    ensures EntryStands(start, h, p, Existing, entry) ==> EntryStands(start, Effect(h, Flush(d)), p, Complete, entry)
  {
    var g := Effect(h, Flush(d));
    assert forall j :: IsOurs(g, j, p) <==> IsOurs(h, j, p);
    assert forall n :: LeadsToOurs(g, n, p) <==> LeadsToOurs(h, n, p);
  }

  /** A mode change, an open or a close. */
  lemma {:induction false} Aside(start: Fs, trace: seq<Event>, since: nat, f: Fs, p: Plan, stage: Stage, entry: Entry, more: seq<Event>, g: Fs, op: Op)
    requires OnTrack(start, trace, since, f, p, stage, entry) && Extends(trace, f, more, g, Some(op)) && !stage.Unmade?
    requires op.SetMode? || op.OpenFile? || op.CloseFd?
    ensures OnTrack(start, more, since, g, p, stage, entry)
  {
    var middle, h := UpTo(start, trace, since, f, p, stage, entry, more, g, op);
    AsideStands(start, h, p, stage, entry, op);
    OneMore(start, middle, since, p, stage, entry, Ours(h, op), stage, entry);
  }

  lemma {:induction false} AsideStands(start: Fs, h: Fs, p: Plan, stage: Stage, entry: Entry, op: Op)
    requires FsOk(h) && (op.SetMode? || op.OpenFile? || op.CloseFd?)
    ensures ContentStands(h, p, stage) ==> ContentStands(Effect(h, op), p, stage)
    ensures EntryStands(start, h, p, stage, entry) ==> EntryStands(start, Effect(h, op), p, stage, entry)
  {
    if op.SetMode? { ModeStands(start, h, p, stage, entry, op); }
    else {
      var g := Effect(h, op);
      assert g.table == h.table && g.names == h.names && g.serials == h.serials;
      SameFilesStand(start, h, g, p, stage, entry);
    }
  }

  lemma {:induction false} SameFilesStand(start: Fs, h: Fs, g: Fs, p: Plan, stage: Stage, entry: Entry)
    requires g.table == h.table && g.names == h.names && g.serials == h.serials
    ensures ContentStands(h, p, stage) ==> ContentStands(g, p, stage)
    ensures EntryStands(start, h, p, stage, entry) ==> EntryStands(start, g, p, stage, entry)
  {
    assert forall j :: IsOurs(g, j, p) <==> IsOurs(h, j, p);
    assert forall n :: LeadsToOurs(g, n, p) <==> LeadsToOurs(h, n, p);
  }

  lemma {:induction false} ModeStands(start: Fs, h: Fs, p: Plan, stage: Stage, entry: Entry, op: Op)
    requires FsOk(h) && op.SetMode?
    ensures ContentStands(h, p, stage) ==> ContentStands(Effect(h, op), p, stage)
    ensures EntryStands(start, h, p, stage, entry) ==> EntryStands(start, Effect(h, op), p, stage, entry)
  {
    var g := Effect(h, op);
    assert forall j :: IsOurs(g, j, p) <==> IsOurs(h, j, p);
    assert forall n :: LeadsToOurs(g, n, p) <==> LeadsToOurs(h, n, p);
  }

  /** The link or the rename that gives the destination to the complete object. */
  lemma {:induction false} Exposed(start: Fs, trace: seq<Event>, since: nat, f: Fs, p: Plan, more: seq<Event>, g: Fs, op: Op)
    requires OnTrack(start, trace, since, f, p, Complete, Before) && Extends(trace, f, more, g, Some(op))
    requires op == LinkTo(p.temp, p.dest) || (op == RenameTo(p.temp, p.dest) && p.replacing)
    ensures OnTrack(start, more, since, g, p, Complete, Published)
  {
    hide OnTrack;
    hide ContentStands;
    hide EntryStands;
    hide Extends;
    var middle, h := UpTo(start, trace, since, f, p, Complete, Before, more, g, op);
    ExposeStands(start, h, p, op);
    OneMore(start, middle, since, p, Complete, Before, Ours(h, op), Complete, Published);
  }

  lemma {:induction false} ExposeStands(start: Fs, h: Fs, p: Plan, op: Op)
    requires FsOk(h) && (op == LinkTo(p.temp, p.dest) || (op == RenameTo(p.temp, p.dest) && p.replacing)) && Possible(h, op)
    ensures ContentStands(h, p, Complete) ==> ContentStands(Effect(h, op), p, Complete)
    ensures EntryStands(start, h, p, Complete, Before) ==> EntryStands(start, Effect(h, op), p, Complete, Published)
  {
    assert Effect(h, op).table == h.table && Effect(h, op).serials == h.serials;
    assert forall j :: IsOurs(Effect(h, op), j, p) <==> IsOurs(h, j, p);
  }

  /** The temporary name goes. */
  lemma {:induction false} Dropped(start: Fs, trace: seq<Event>, since: nat, f: Fs, p: Plan, stage: Stage, entry: Entry, more: seq<Event>, g: Fs)
    requires OnTrack(start, trace, since, f, p, stage, entry) && Extends(trace, f, more, g, Some(Drop(p.temp))) && !stage.Unmade? && !stage.Existing?
    ensures OnTrack(start, more, since, g, p, stage, if entry.Published? then Published else Abandoned)
  {
    var middle, h := UpTo(start, trace, since, f, p, stage, entry, more, g, Drop(p.temp));
    DropStands(start, h, p, stage, entry);
    OneMore(start, middle, since, p, stage, entry, Ours(h, Drop(p.temp)), stage, if entry.Published? then Published else Abandoned);
  }

  lemma {:induction false} DropStands(start: Fs, h: Fs, p: Plan, stage: Stage, entry: Entry)
    requires FsOk(h) && !stage.Existing?
    ensures ContentStands(h, p, stage) ==> ContentStands(Effect(h, Drop(p.temp)), p, stage)
    ensures EntryStands(start, h, p, stage, entry) && p.temp != p.dest
            ==> EntryStands(start, Effect(h, Drop(p.temp)), p, stage, if entry.Published? then Published else Abandoned)
  {
    var g := Effect(h, Drop(p.temp));
    assert forall j :: IsOurs(g, j, p) <==> IsOurs(h, j, p);
    assert forall n :: LeadsToOurs(g, n, p) ==> LeadsToOurs(h, n, p);
  }

  /** An abandoned temporary name that could not be removed. */
  lemma {:induction false} GivenUp(start: Fs, trace: seq<Event>, since: nat, f: Fs, p: Plan, stage: Stage)
    requires OnTrack(start, trace, since, f, p, stage, Before)
    ensures OnTrack(start, trace, since, f, p, stage, Abandoned)
  {
  }
}
