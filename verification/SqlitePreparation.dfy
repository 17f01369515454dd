/** The public operations on a SQLite family: inspect, repair, prepare. Whatever other processes do in
    between and however the call ends, each descriptor it opened is closed, and only objects it had
    pinned (or created) have their mode changed, to no more than was recorded. */
module SqlitePreparation {
  import opened Options
  import opened FileSystem
  import opened SqliteFamily

  // ----- Descriptors of stages and terminals together -----

  /** Only the descriptor matters for ownership. */
  function AsMember(s: Stage): Member {
    Member(s.leaf, s.optional, Invalid, None, s.identity, s.mode, s.fd, s.error, s.serial)
  }

  ghost function StagesNow(ss: seq<MemberStage>): (vs: seq<Stage>)
    reads ss
    ensures |vs| == |ss| && forall i :: 0 <= i < |ss| ==> vs[i] == ss[i].Now()
  {
    if ss == [] then [] else StagesNow(ss[..|ss| - 1]) + [ss[|ss| - 1].Now()]
  }

  function AsMembers(vs: seq<Stage>): (ms: seq<Member>)
    ensures |ms| == |vs| && forall i :: 0 <= i < |vs| ==> ms[i] == AsMember(vs[i])
  {
    if vs == [] then [] else AsMembers(vs[..|vs| - 1]) + [AsMember(vs[|vs| - 1])]
  }

  lemma {:induction false} FdsConcat(a: seq<Member>, b: seq<Member>)
    ensures Fds(a + b) == Fds(a) + Fds(b)
  {
    forall d | d in Fds(a) + Fds(b) ensures d in Fds(a + b) {
      if d in Fds(a) {
        var i :| 0 <= i < |a| && a[i].fd == Some(d);
        assert (a + b)[i].fd == Some(d);
      } else {
        var i :| 0 <= i < |b| && b[i].fd == Some(d);
        assert (a + b)[|a| + i].fd == Some(d);
      }
    }
    forall d | d in Fds(a + b) ensures d in Fds(a) + Fds(b) {
      var i :| 0 <= i < |a + b| && (a + b)[i].fd == Some(d);
      if i < |a| { assert a[i].fd == Some(d); } else { assert b[i - |a|].fd == Some(d); }
    }
  }

  lemma {:induction false} DistinctConcat(a: seq<Member>, b: seq<Member>)
    ensures DistinctFds(a + b) <==> DistinctFds(a) && DistinctFds(b) && Fds(a) !! Fds(b)
  {
    if DistinctFds(a) && DistinctFds(b) && Fds(a) !! Fds(b) {
      forall i, j | 0 <= i < j < |a + b| && (a + b)[i].fd.Some? ensures (a + b)[i].fd != (a + b)[j].fd {
        if i < |a| <= j { assert (a + b)[i].fd.value in Fds(a) && (b[j - |a|].fd.Some? ==> b[j - |a|].fd.value in Fds(b)); }
      }
    }
    if DistinctFds(a + b) {
      forall i, j | 0 <= i < j < |a| && a[i].fd.Some? ensures a[i].fd != a[j].fd { assert (a + b)[i] == a[i] && (a + b)[j] == a[j]; }
      forall i, j | 0 <= i < j < |b| && b[i].fd.Some? ensures b[i].fd != b[j].fd {
        assert (a + b)[|a| + i] == b[i] && (a + b)[|a| + j] == b[j];
      }
      forall d | d in Fds(a) ensures d !in Fds(b) {
        var i :| 0 <= i < |a| && a[i].fd == Some(d);
        forall j | 0 <= j < |b| ensures b[j].fd != Some(d) { assert (a + b)[i] == a[i] && (a + b)[|a| + j] == b[j]; }
      }
    }
  }

  lemma {:induction false} OneFd(m: Member)
    ensures Fds([m]) == FdSet(m.fd) && DistinctFds([m])
  {
    if m.fd.Some? { assert [m][0].fd == Some(m.fd.value); }
  }

  /** The descriptors of `b` counted among the base of `a`. */
  lemma {:induction false} OwnedApart(f: Fs, a: seq<Member>, b: seq<Member>, base: set<Fd>)
    requires OwnedBy(f, a + b, base)
    ensures OwnedBy(f, a, base + Fds(b)) && OwnedBy(f, b, base + Fds(a))
  {
    FdsConcat(a, b);
    DistinctConcat(a, b);
  }

  /** One more member, with a descriptor of its own or none. */
  lemma {:induction false} OwnedMore(f: Fs, g: Fs, ms: seq<Member>, m: Member, base: set<Fd>)
    requires OwnedBy(f, ms, base) && FsOk(g) && g.fds.Keys == f.fds.Keys + FdSet(m.fd) && FdSet(m.fd) !! f.fds.Keys
    ensures OwnedBy(g, ms + [m], base)
  {
    FdsConcat(ms, [m]);
    DistinctConcat(ms, [m]);
    OneFd(m);
  }

  // ----- Capturing the family -----

  ghost predicate AllStagesHold(f: Fs, vs: seq<Stage>) {
    forall i :: 0 <= i < |vs| ==> StageHolds(vs[i], f)
  }

  predicate ApartStages(ss: seq<MemberStage>) {
    forall i, j :: 0 <= i < j < |ss| ==> ss[i] != ss[j]
  }

  ghost predicate Staged(k: Kernel, ss: seq<MemberStage>, base: set<Fd>)
    reads k, ss
  {
    k.Valid() && ApartStages(ss) && OwnedBy(k.fs, AsMembers(StagesNow(ss)), base) && AllStagesHold(k.fs, StagesNow(ss))
  }

  method CloseStages(k: Kernel, ss: seq<MemberStage>, ghost base: set<Fd>)
    requires k.Valid() && ApartStages(ss) && OwnedBy(k.fs, AsMembers(StagesNow(ss)), base)
    modifies k`fs, ss
    ensures k.Valid() && Later(old(k.fs), k.fs) && k.fs.fds.Keys == base && DirectoryOf(k.fs) == DirectoryOf(old(k.fs))
  {
    hide OwnedBy;
    hide StagesNow;
    hide AsMembers;
    LaterReflexive(k.fs);
    hide Later;
    var i := 0;
    while i < |ss|
      invariant 0 <= i <= |ss| && k.Valid() && OwnedBy(k.fs, AsMembers(StagesNow(ss)), base) && Later(old(k.fs), k.fs)
      invariant DirectoryOf(k.fs) == DirectoryOf(old(k.fs)) && forall j :: 0 <= j < i ==> AsMembers(StagesNow(ss))[j].fd.None?
    {
      ghost var f1, ms := k.fs, AsMembers(StagesNow(ss));
      CloseStage(k, ss[i], ms, i, base);
      LaterTransitive(old(k.fs), f1, k.fs);
      assert AsMembers(StagesNow(ss)) == ms[i := AsMember(ss[i].Now())];
      i := i + 1;
    }
    NothingOwned(k.fs, AsMembers(StagesNow(ss)), base);
  }

  method CloseStage(k: Kernel, s: MemberStage, ghost ms: seq<Member>, ghost i: nat, ghost base: set<Fd>)
    requires k.Valid() && OwnedBy(k.fs, ms, base) && i < |ms| && ms[i] == AsMember(s.Now())
    modifies k`fs, s`fd
    ensures k.Valid() && Later(old(k.fs), k.fs) && s.fd.None? && OwnedBy(k.fs, ms[i := AsMember(s.Now())], base)
    ensures DirectoryOf(k.fs) == DirectoryOf(old(k.fs))
  {
    LaterReflexive(k.fs);
    assert ms == ms[i := ms[i]];
    if s.fd.Some? {
      assert s.fd.value in Fds(ms);
      ghost var f := k.fs;
      k.Close(s.fd.value);
      s.fd := None;
      OwnerMoved(f, k.fs, ms, i, AsMember(s.Now()), base);
    }
  }

  function Leaves(name: Name): seq<Name> {
    [name, name + "-wal", name + "-shm", name + "-journal"]
  }

  lemma {:induction false} StagesHoldLater(f: Fs, g: Fs, vs: seq<Stage>, base: set<Fd>)
    requires FsOk(f) && AllStagesHold(f, vs) && Later(f, g) && f.fds.Keys <= g.fds.Keys
    ensures AllStagesHold(g, vs)
  {
    forall i | 0 <= i < |vs| ensures StageHolds(vs[i], g) { assert StageHolds(vs[i], f); }
  }

  /** The members so far are the first of the family, in order, with what was seen of them; only the main
      is not optional. */
  ghost predicate SeenInOrder(vs: seq<Stage>, name: Name, looks: seq<Look>, since: nat) {
    |vs| <= 4 && forall i :: 0 <= i < |vs| ==> vs[i].leaf == Leaves(name)[i] && vs[i].optional == (i != 0) && StageSeen(vs[i], looks, since)
  }

  /** The whole family as it was captured: its four names, and for each of them what was seen since the
      call began; the descriptors are new ones. */
  ghost predicate FamilyCaptured(vs: seq<Stage>, name: Name, keys: set<Fd>, looks: seq<Look>, since: nat) {
    && |vs| == 4 && SeenInOrder(vs, name, looks, since)
    && forall i :: 0 <= i < 4 && vs[i].fd.Some? ==> vs[i].fd.value !in keys
  }

  lemma {:induction false} CapturedGrew(vs: seq<Stage>, name: Name, keys: set<Fd>, looks: seq<Look>, more: seq<Look>, since: nat)
    requires looks <= more && FamilyCaptured(vs, name, keys, looks, since)
    ensures FamilyCaptured(vs, name, keys, more, since)
  {
    LooksGrew(looks, more);
  }

  lemma {:induction false} StagedIsCaptured(f: Fs, vs: seq<Stage>, name: Name, base: set<Fd>, looks: seq<Look>, since: nat)
    requires |vs| == 4 && SeenInOrder(vs, name, looks, since) && OwnedBy(f, AsMembers(vs), base)
    ensures FamilyCaptured(vs, name, base, looks, since)
  {
    forall i | 0 <= i < 4 && vs[i].fd.Some? ensures vs[i].fd.value !in base {
      assert AsMembers(vs)[i].fd == vs[i].fd;
      OwnFd(AsMembers(vs), i);
    }
  }

  /** The stages say what the directory says. */
  predicate AllStagesFit(vs: seq<Stage>, d: Directory) {
    forall i :: 0 <= i < |vs| ==> StageFits(vs[i], d)
  }

  /** `_stage_sqlite_family_at`. */
  method StageFamily(k: Kernel, name: Name) returns (r: Outcome<seq<MemberStage>>)
    requires k.Valid()
    modifies k
    ensures k.Valid() && Later(old(k.fs), k.fs) && k.chmods == old(k.chmods) && old(k.looks) <= k.looks
    ensures k.quiet ==> DirectoryOf(k.fs) == DirectoryOf(old(k.fs))
    ensures r.Raise? ==> k.fs.fds.Keys == old(k.fs).fds.Keys
    ensures r.Ok? ==> fresh(r.value) && |r.value| == 4 && Staged(k, r.value, old(k.fs).fds.Keys)
                      && FamilyCaptured(StagesNow(r.value), name, old(k.fs).fds.Keys, k.looks, |old(k.looks)|)
    ensures k.quiet ==> r.Ok? && AllStagesFit(StagesNow(r.value), DirectoryOf(k.fs))
  {
    ghost var keys, start, seen, d := k.fs.fds.Keys, k.fs, k.looks, DirectoryOf(k.fs);
    NothingStaged(k, name);
    hide *;
    var failure, ss := StageAll(k, name, keys, start, seen, d);
    if failure.Some? { return Raise(failure.value); }
    FamilyIsCaptured(k, ss, name, keys, start, seen, d);
    return Ok(ss);
  }

  /** Midway through the captures: `ss` is what has been captured since the call began with this state. */
  ghost predicate Staging(k: Kernel, ss: seq<MemberStage>, name: Name, base: set<Fd>, start: Fs, seen: seq<Look>, d: Directory)
    reads k, ss
  {
    && Staged(k, ss, base) && SeenInOrder(StagesNow(ss), name, k.looks, |seen|)
    && FsOk(start) && Later(start, k.fs) && seen <= k.looks
    && (k.quiet ==> DirectoryOf(k.fs) == d && AllStagesFit(StagesNow(ss), d))
  }

  method StageAll(k: Kernel, name: Name, ghost base: set<Fd>, ghost start: Fs, ghost seen: seq<Look>, ghost d: Directory)
    returns (failure: Option<Code>, ss: seq<MemberStage>)
    requires k.Valid() && Staging(k, [], name, base, start, seen, d)
    modifies k
    ensures k.Valid() && k.chmods == old(k.chmods)
    ensures failure.Some? ==> Later(start, k.fs) && seen <= k.looks && k.fs.fds.Keys == base && !k.quiet
    ensures failure.None? ==> fresh(ss) && |ss| == 4 && Staging(k, ss, name, base, start, seen, d)
  {
    hide *;
    ss := [];
    while |ss| < 4
      invariant |ss| <= 4 && fresh(ss) && Staging(k, ss, name, base, start, seen, d)
      invariant k.Valid() && k.chmods == old(k.chmods)
      decreases 4 - |ss|
    {
      var more := StageOneMore(k, ss, name, base, start, seen, d);
      if more.Raise? { return Some(more.error), ss; }
      ss := ss + [more.value];
    }
    return None, ss;
  }

  lemma {:induction false} FamilyIsCaptured(k: Kernel, ss: seq<MemberStage>, name: Name, base: set<Fd>, start: Fs, seen: seq<Look>, d: Directory)
    requires Staging(k, ss, name, base, start, seen, d) && |ss| == 4
    ensures Staged(k, ss, base) && Later(start, k.fs) && seen <= k.looks && FamilyCaptured(StagesNow(ss), name, base, k.looks, |seen|)
    ensures k.quiet ==> DirectoryOf(k.fs) == d && AllStagesFit(StagesNow(ss), d)
  {
    hide OwnedBy;
    hide Later;
    StagedIsCaptured(k.fs, StagesNow(ss), name, base, k.looks, |seen|);
  }

  lemma {:induction false} NothingStaged(k: Kernel, name: Name)
    requires k.Valid()
    ensures Staging(k, [], name, k.fs.fds.Keys, k.fs, k.looks, DirectoryOf(k.fs))
  {
    LaterReflexive(k.fs);
  }

  /** Capture one more member; if that raises, the members already captured are closed. */
  method StageOneMore(k: Kernel, ss: seq<MemberStage>, name: Name, ghost base: set<Fd>, ghost start: Fs, ghost seen: seq<Look>, ghost d: Directory)
    returns (r: Outcome<MemberStage>)
    requires k.Valid() && Staging(k, ss, name, base, start, seen, d) && |ss| < 4
    modifies k, ss
    ensures k.Valid() && k.chmods == old(k.chmods)
    ensures r.Raise? ==> Later(start, k.fs) && seen <= k.looks && k.fs.fds.Keys == base && !k.quiet
    ensures r.Ok? ==> fresh(r.value) && Staging(k, ss + [r.value], name, base, start, seen, d)
  {
    hide OwnedBy;
    hide AsMembers;
    hide AllStagesHold;
    hide SeenInOrder;
    hide StageSeen;
    hide Later;
    hide StageHolds;
    hide StageFits;
    ghost var f, vs, looks := k.fs, StagesNow(ss), k.looks;
    r := Capture(k, Leaves(name)[|ss|], |ss| != 0);
    LaterTransitive(start, f, k.fs);
    ghost var f1 := k.fs;
    if r.Raise? {
      StillOwned(f, f1, AsMembers(vs), base);
      CloseStages(k, ss, base);
      LaterTransitive(start, f1, k.fs);
      return;
    }
    StagedMore(k, f, ss, r.value, base);
    StagesSnoc(ss, r.value);
    SeenSnoc(vs, r.value.Now(), name, looks, k.looks, |seen|);
  }

  lemma {:induction false} SeenSnoc(vs: seq<Stage>, v: Stage, name: Name, looks: seq<Look>, more: seq<Look>, since: nat)
    requires SeenInOrder(vs, name, looks, since) && |vs| < 4 && looks <= more && since <= |looks|
    requires v.leaf == Leaves(name)[|vs|] && v.optional == (|vs| != 0) && StageSeen(v, more, |looks|)
    ensures SeenInOrder(vs + [v], name, more, since)
  {
    LooksGrew(looks, more);
    SeenSinceEarlier(more, |looks|, since);
  }

  lemma {:induction false} StagedMore(k: Kernel, f: Fs, ss: seq<MemberStage>, s: MemberStage, base: set<Fd>)
    requires k.Valid() && FsOk(f) && Later(f, k.fs) && ApartStages(ss) && s !in ss && s.Holds(k.fs)
    requires OwnedBy(f, AsMembers(StagesNow(ss)), base) && AllStagesHold(f, StagesNow(ss))
    requires k.fs.fds.Keys == f.fds.Keys + FdSet(s.fd) && FdSet(s.fd) !! f.fds.Keys
    ensures Staged(k, ss + [s], base)
  {
    hide OwnedBy;
    hide AllStagesHold;
    hide AsMembers;
    var vs := StagesNow(ss);
    OwnedMore(f, k.fs, AsMembers(vs), AsMember(s.Now()), base);
    StagesHoldLater(f, k.fs, vs, base);
    StagesSnoc(ss, s);
    AsMembersSnoc(vs, s.Now());
    HoldSnoc(k.fs, vs, s.Now());
  }

  lemma {:induction false} StagesSnoc(ss: seq<MemberStage>, s: MemberStage)
    ensures StagesNow(ss + [s]) == StagesNow(ss) + [s.Now()]
  {
    assert (ss + [s])[..|ss|] == ss;
  }

  lemma {:induction false} HoldSnoc(f: Fs, vs: seq<Stage>, v: Stage)
    requires AllStagesHold(f, vs) && StageHolds(v, f)
    ensures AllStagesHold(f, vs + [v])
  {
  }

  lemma {:induction false} AsMembersSnoc(vs: seq<Stage>, v: Stage)
    ensures AsMembers(vs + [v]) == AsMembers(vs) + [AsMember(v)]
  {
    assert (vs + [v])[..|vs|] == vs;
  }

  lemma {:induction false} StillOwned(f: Fs, g: Fs, ms: seq<Member>, base: set<Fd>)
    requires OwnedBy(f, ms, base) && FsOk(g) && f.fds.Keys == g.fds.Keys
    ensures OwnedBy(g, ms, base)
  {
  }

  // ----- Settling the family -----

  /** What the terminal of a stage is: a required member that was captured is never settled as absent,
      and stays pinned on the object it was captured on. */
  ghost predicate SettledFrom(v: Stage, m: Member, requireMain: bool, looks: seq<Look>, since: nat) {
    && m.leaf == v.leaf && m.optional == v.optional && Inspected(m)
    && (m.state.Absent? ==> SeenAbsent(looks, since, m.leaf) && (v.optional || (!requireMain && !v.present)))
    && (v.fd.Some? && !v.optional ==> m.identity == v.identity && !m.state.Absent?)
    && (v.fd.Some? && m.state.Present? ==> m.serial == v.serial && m.fd == v.fd && m.identity == v.identity)
    && (m.state.Present? ==> ModeSeen(m, looks, since) && (v.fd.None? ==> FileGrabbed(m, looks, since)))
  }

  ghost predicate AllSettledFrom(vs: seq<Stage>, ms: seq<Member>, requireMain: bool, looks: seq<Look>, since: nat) {
    |vs| == |ms| && forall i :: 0 <= i < |vs| ==> SettledFrom(vs[i], ms[i], requireMain, looks, since)
  }

  /** Midway: the first terminals exist, the other stages are untouched. */
  ghost predicate Settling(k: Kernel, ss: seq<MemberStage>, ts: seq<MemberTerminal>, base: set<Fd>, vs: seq<Stage>, requireMain: bool,
                           since: nat)
    reads k, ss, ts
  {
    k.Valid() && ApartStages(ss) && Apart(ts) && SettlingValues(k.fs, k.looks, StagesNow(ss), AllNow(ts), base, vs, requireMain, since)
  }

  ghost predicate SettlingValues(f: Fs, looks: seq<Look>, now: seq<Stage>, ms: seq<Member>, base: set<Fd>, vs: seq<Stage>,
                                 requireMain: bool, since: nat) {
    && FsOk(f) && |ms| <= |now| == |vs| && since <= |looks|
    && OwnedBy(f, ms + AsMembers(now), base)
    && AllHold(f, ms)
    && (forall j :: 0 <= j < |ms| ==> now[j].fd.None?)
    && (forall j :: |ms| <= j < |now| ==> now[j] == vs[j] && StageHolds(vs[j], f))
    && AllSettledFrom(vs[..|ms|], ms, requireMain, looks, since)
  }

  /** The descriptor of stage i passes to a new terminal, or is closed. */
  lemma {:induction false} Handed(f: Fs, g: Fs, a: seq<Member>, b: seq<Member>, i: nat, m: Member, s: Member, base: set<Fd>)
    requires OwnedBy(f, a + b, base) && i < |b| && FsOk(g) && s.fd.None?
    requires g.fds.Keys - FdSet(m.fd) == f.fds.Keys - FdSet(b[i].fd) && FdSet(m.fd) <= g.fds.Keys
    requires m.fd == b[i].fd || m.fd.None? || m.fd.value !in f.fds
    ensures OwnedBy(g, (a + [m]) + b[i := s], base)
  {
    FdsConcat(a, b);
    DistinctConcat(a, b);
    var c := b[i := s];
    FdDropped(b, i, s);
    FdsConcat(a, [m]);
    DistinctConcat(a, [m]);
    FdsConcat(a + [m], c);
    DistinctConcat(a + [m], c);
    OneFd(m);
    OwnFd(b, i);
    assert f.fds.Keys - FdSet(b[i].fd) == base + Fds(a) + Fds(c);
    assert g.fds.Keys == base + Fds(a) + Fds(c) + FdSet(m.fd);
  }

  lemma {:induction false} SameButFor(x: set<Fd>, y: set<Fd>, z: set<Fd>)
    requires z <= x && z <= y && x - z == y - z
    ensures x == y
  {
    assert x == (x - z) + z && y == (y - z) + z;
  }

  lemma {:induction false} OwnFd(ms: seq<Member>, i: nat)
    requires i < |ms|
    ensures FdSet(ms[i].fd) <= Fds(ms)
  {
    if ms[i].fd.Some? { assert ms[i].fd.value in Fds(ms); }
  }

  /** A stage alone changes its descriptor, from none to a new one if at all. */
  lemma {:induction false} StageMoved(f: Fs, g: Fs, a: seq<Member>, b: seq<Member>, i: nat, s: Member, base: set<Fd>)
    requires OwnedBy(f, a + b, base) && i < |b| && FsOk(g) && FdSet(s.fd) <= g.fds.Keys
    requires g.fds.Keys - FdSet(s.fd) == f.fds.Keys - FdSet(b[i].fd) && (s.fd == b[i].fd || (b[i].fd.None? && s.fd.value !in f.fds))
    ensures OwnedBy(g, a + b[i := s], base)
  {
    FdsConcat(a, b);
    DistinctConcat(a, b);
    var c := b[i := s];
    FdsConcat(a, c);
    DistinctConcat(a, c);
    OwnFd(b, i);
    if s.fd == b[i].fd {
      FdsKept(b, i, s);
      SameButFor(g.fds.Keys, f.fds.Keys, FdSet(s.fd));
    } else {
      FdGained(b, i, s);
      SameButFor(g.fds.Keys, f.fds.Keys + FdSet(s.fd), FdSet(s.fd));
    }
  }

  lemma {:induction false} FdGained(ms: seq<Member>, i: nat, m: Member)
    requires i < |ms| && ms[i].fd.None? && m.fd.Some? && m.fd.value !in Fds(ms) && DistinctFds(ms)
    ensures Fds(ms[i := m]) == Fds(ms) + FdSet(m.fd) && DistinctFds(ms[i := m])
  {
    var ns := ms[i := m];
    FdDropped(ns, i, ms[i]);
    assert ns[i := ms[i]] == ms;
    assert ns[i].fd == Some(m.fd.value);
  }

  method SettleOne(k: Kernel, s: MemberStage, requireMain: bool) returns (r: Outcome<MemberTerminal>)
    requires k.Valid() && s.Holds(k.fs)
    modifies k, s
    ensures k.Valid() && Later(old(k.fs), k.fs) && k.chmods == old(k.chmods) && old(k.looks) <= k.looks
    ensures k.quiet ==> DirectoryOf(k.fs) == DirectoryOf(old(k.fs))
    ensures r.Raise? ==> FdSet(s.fd) <= k.fs.fds.Keys && k.fs.fds.Keys - FdSet(s.fd) == old(k.fs).fds.Keys - FdSet(old(s.fd))
                         && (s.fd == old(s.fd) || (old(s.fd).None? && s.fd.value !in old(k.fs).fds))
    ensures r.Ok? ==> fresh(r.value) && MemberHolds(r.value.Now(), k.fs) && s.fd.None?
                      && SettledFrom(old(s.Now()), r.value.Now(), requireMain, k.looks, |old(k.looks)|)
                      && FdSet(r.value.fd) <= k.fs.fds.Keys
                      && k.fs.fds.Keys - FdSet(r.value.fd) == old(k.fs).fds.Keys - FdSet(old(s.fd))
                      && (r.value.fd == old(s.fd) || r.value.fd.None? || r.value.fd.value !in old(k.fs).fds)
    ensures k.quiet && StageFits(old(s.Now()), DirectoryOf(k.fs)) && !(requireMain && !old(s.present)) ==>
              r.Ok? && Fits(r.value.Now(), DirectoryOf(k.fs)) && Current(r.value.Now(), DirectoryOf(k.fs))
  {
    hide Fits;
    hide Current;
    hide StageFits;
    r := Terminalize(k, s, requireMain);
  }

  /** Midway through settling, which began with this state. */
  ghost predicate SettlingSince(k: Kernel, ss: seq<MemberStage>, ts: seq<MemberTerminal>, base: set<Fd>, vs: seq<Stage>, requireMain: bool,
                                start: Fs, seen: seq<Look>, d: Directory)
    reads k, ss, ts
  {
    && Settling(k, ss, ts, base, vs, requireMain, |seen|) && FsOk(start) && Later(start, k.fs) && seen <= k.looks
    && (k.quiet ==> DirectoryOf(k.fs) == d && (!requireMain && AllStagesFit(vs, d) ==> Faithful(AllNow(ts), d)))
  }

  /** Settling has raised: the terminals made so far and the stages own what is open. */
  ghost predicate SettlingBroken(k: Kernel, ss: seq<MemberStage>, ts: seq<MemberTerminal>, base: set<Fd>, vs: seq<Stage>, requireMain: bool,
                                 start: Fs, seen: seq<Look>, d: Directory)
    reads k, ss, ts
  {
    && Apart(ts) && ApartStages(ss) && OwnedBy(k.fs, AllNow(ts) + AsMembers(StagesNow(ss)), base)
    && FsOk(start) && Later(start, k.fs) && seen <= k.looks
    && (k.quiet ==> DirectoryOf(k.fs) == d && (requireMain || !AllStagesFit(vs, d)))
  }

  /** Make one more terminal, or fail with the stages still owning what is theirs. */
  method SettleNext(k: Kernel, ss: seq<MemberStage>, ts: seq<MemberTerminal>, requireMain: bool, ghost base: set<Fd>,
                    ghost vs: seq<Stage>, ghost start: Fs, ghost seen: seq<Look>, ghost d: Directory) returns (r: Outcome<MemberTerminal>)
    requires k.Valid() && SettlingSince(k, ss, ts, base, vs, requireMain, start, seen, d) && |ts| < |ss|
    modifies k, ss[|ts|]
    ensures k.Valid() && k.chmods == old(k.chmods)
    ensures r.Raise? ==> SettlingBroken(k, ss, ts, base, vs, requireMain, start, seen, d)
    ensures r.Ok? ==> fresh(r.value) && SettlingSince(k, ss, ts + [r.value], base, vs, requireMain, start, seen, d)
  {
    hide StageFits;
    hide Fits;
    hide Current;
    hide OwnedBy;
    hide AllNow;
    hide AsMembers;
    hide StagesNow;
    hide MemberHolds;
    hide StageHolds;
    hide SettledFrom;
    hide Later;
    hide SettlingValues;
    var i := |ts|;
    ghost var f, a, b, looks := k.fs, AllNow(ts), StagesNow(ss), k.looks;
    NextToSettle(f, looks, b, a, base, vs, requireMain, |seen|);
    r := SettleOne(k, ss[i], requireMain);
    LaterTransitive(start, f, k.fs);
    ghost var b' := b[i := ss[i].Now()];
    assert StagesNow(ss) == b';
    if r.Raise? {
      MembersUpdated(b, i, b'[i]);
      StageMoved(f, k.fs, a, AsMembers(b), i, AsMember(b'[i]), base);
      return;
    }
    AllNowSnoc(ts, r.value);
    OneMoreSettled(f, k.fs, looks, k.looks, b, b'[i], a, r.value.Now(), base, vs, requireMain, |seen|);
  }

  lemma {:induction false} NextToSettle(f: Fs, looks: seq<Look>, now: seq<Stage>, a: seq<Member>, base: set<Fd>, vs: seq<Stage>,
                                        requireMain: bool, since: nat)
    requires SettlingValues(f, looks, now, a, base, vs, requireMain, since) && |a| < |now|
    ensures |vs| == |now| && now[|a|] == vs[|a|] && StageHolds(vs[|a|], f) && OwnedBy(f, a + AsMembers(now), base)
  {
  }

  lemma {:induction false} MembersUpdated(b: seq<Stage>, i: nat, v: Stage)
    requires i < |b|
    ensures AsMembers(b[i := v]) == AsMembers(b)[i := AsMember(v)]
  {
  }

  /** The next stage's descriptor has passed to its terminal, or is closed. */
  lemma {:induction false} OneMoreSettled(f: Fs, g: Fs, looks: seq<Look>, more: seq<Look>, now: seq<Stage>, v: Stage, a: seq<Member>, m: Member,
                                          base: set<Fd>, vs: seq<Stage>, requireMain: bool, since: nat)
    requires SettlingValues(f, looks, now, a, base, vs, requireMain, since) && |a| < |vs| && Later(f, g) && FsOk(g) && looks <= more
    requires v.fd.None? && MemberHolds(m, g) && SettledFrom(vs[|a|], m, requireMain, more, |looks|)
    requires FdSet(m.fd) <= g.fds.Keys && g.fds.Keys - FdSet(m.fd) == f.fds.Keys - FdSet(vs[|a|].fd)
    requires m.fd == vs[|a|].fd || m.fd.None? || m.fd.value !in f.fds
    ensures SettlingValues(g, more, now[|a| := v], a + [m], base, vs, requireMain, since)
  {
    hide OwnedBy;
    hide AsMembers;
    hide AllHold;
    hide AllSettledFrom;
    hide SettledFrom;
    hide MemberHolds;
    hide StageHolds;
    hide Later;
    var i, later := |a|, now[|a| := v];
    MembersUpdated(now, i, v);
    Handed(f, g, a, AsMembers(now), i, m, AsMember(v), base);
    var owners := (a + [m]) + AsMembers(later);
    HoldersStay(f, g, a, owners, base);
    HoldAppended(g, a, m);
    StagesStay(f, g, now, later, i + 1, a + [m], base);
    SettledLater(vs[i], m, requireMain, more, |looks|, since);
    SettledSnoc(a, vs, i, m, requireMain, looks, more, since);
  }

  lemma {:induction false} SettledLater(v: Stage, m: Member, requireMain: bool, looks: seq<Look>, since: nat, earlier: nat)
    requires earlier <= since && SettledFrom(v, m, requireMain, looks, since)
    ensures SettledFrom(v, m, requireMain, looks, earlier)
  {
    SeenSinceEarlier(looks, since, earlier);
  }

  lemma {:induction false} AllNowSnoc(ts: seq<MemberTerminal>, t: MemberTerminal)
    ensures AllNow(ts + [t]) == AllNow(ts) + [t.Now()]
  {
    assert (ts + [t])[..|ts|] == ts;
  }

  /** Members whose descriptors are still owned hold what they held. */
  lemma {:induction false} HoldersStay(f: Fs, g: Fs, a: seq<Member>, owners: seq<Member>, base: set<Fd>)
    requires Later(f, g) && AllHold(f, a) && OwnedBy(g, owners, base) && a <= owners
    ensures AllHold(g, a)
  {
    forall j | 0 <= j < |a| ensures MemberHolds(a[j], g) {
      assert MemberHolds(a[j], f) && owners[j] == a[j];
      OwnFd(owners, j);
    }
  }

  lemma {:induction false} HoldAppended(f: Fs, a: seq<Member>, m: Member)
    requires AllHold(f, a) && MemberHolds(m, f)
    ensures AllHold(f, a + [m])
  {
  }

  lemma {:induction false} StagesStay(f: Fs, g: Fs, b: seq<Stage>, c: seq<Stage>, from: nat, ms: seq<Member>, base: set<Fd>)
    requires Later(f, g) && OwnedBy(g, ms + AsMembers(c), base) && |c| == |b|
    requires forall j {:trigger c[j]} :: from <= j < |b| ==> c[j] == b[j] && StageHolds(b[j], f)
    ensures forall j {:trigger c[j]} :: from <= j < |b| ==> StageHolds(c[j], g)
  {
    var owners := ms + AsMembers(c);
    forall j | from <= j < |b| ensures StageHolds(c[j], g) {
      assert c[j] == b[j] && owners[|ms| + j] == AsMembers(c)[j];
      OwnFd(owners, |ms| + j);
    }
  }

  lemma {:induction false} SettledSnoc(a: seq<Member>, vs: seq<Stage>, i: nat, m: Member, requireMain: bool, looks: seq<Look>, more: seq<Look>, since: nat)
    requires i == |a| < |vs| && looks <= more
    requires AllSettledFrom(vs[..i], a, requireMain, looks, since) && SettledFrom(vs[i], m, requireMain, more, since)
    ensures AllSettledFrom(vs[..i + 1], a + [m], requireMain, more, since)
  {
    LooksGrew(looks, more);
    var us, ms := vs[..i + 1], a + [m];
    forall j | 0 <= j < |us| ensures SettledFrom(us[j], ms[j], requireMain, more, since) {
      if j < i { assert us[j] == vs[..i][j] && ms[j] == a[j]; }
    }
  }

  /** `_terminalize_sqlite_family_at`. On a raise the terminals made so far are closed; the stages keep
      what is theirs. */
  method TerminalizeFamily(k: Kernel, ss: seq<MemberStage>, requireMain: bool, ghost base: set<Fd>) returns (r: Outcome<seq<MemberTerminal>>)
    requires k.Valid() && Staged(k, ss, base)
    modifies k, ss
    ensures k.Valid() && Later(old(k.fs), k.fs) && k.chmods == old(k.chmods) && old(k.looks) <= k.looks
    ensures k.quiet ==> DirectoryOf(k.fs) == DirectoryOf(old(k.fs))
    ensures r.Raise? ==> ApartStages(ss) && OwnedBy(k.fs, AsMembers(StagesNow(ss)), base)
    ensures r.Ok? ==> fresh(r.value) && |r.value| == |ss| && Family(k, r.value, base) && AllInspected(AllNow(r.value))
                      && AllSettledFrom(old(StagesNow(ss)), AllNow(r.value), requireMain, k.looks, |old(k.looks)|)
    ensures k.quiet && !requireMain && AllStagesFit(old(StagesNow(ss)), DirectoryOf(k.fs)) ==>
              r.Ok? && Faithful(AllNow(r.value), DirectoryOf(k.fs))
  {
    ghost var vs, start, seen, d := StagesNow(ss), k.fs, k.looks, DirectoryOf(k.fs);
    NothingSettled(k, ss, base, requireMain);
    hide *;
    var failure, ts := SettleAll(k, ss, requireMain, base, vs, start, seen, d);
    r := if failure.Some? then Raise(failure.value) else Ok(ts);
    Conclude(k, ss, ts, failure, requireMain, base, vs, start, seen, d);
  }

  /** After a raise the terminals are closed again. */
  method Conclude(k: Kernel, ss: seq<MemberStage>, ts: seq<MemberTerminal>, failure: Option<Code>, ghost requireMain: bool, ghost base: set<Fd>,
                  ghost vs: seq<Stage>, ghost start: Fs, ghost seen: seq<Look>, ghost d: Directory)
    requires k.Valid() && if failure.Some? then SettlingBroken(k, ss, ts, base, vs, requireMain, start, seen, d)
                          else |ts| == |ss| && SettlingSince(k, ss, ts, base, vs, requireMain, start, seen, d)
    modifies k`fs, ts
    ensures k.Valid() && Later(start, k.fs) && seen <= k.looks && (k.quiet ==> DirectoryOf(k.fs) == d)
    ensures k.chmods == old(k.chmods)
    ensures failure.Some? ==> ApartStages(ss) && OwnedBy(k.fs, AsMembers(StagesNow(ss)), base)
    ensures failure.None? ==> Family(k, ts, base) && AllInspected(AllNow(ts)) && AllSettledFrom(vs, AllNow(ts), requireMain, k.looks, |seen|)
    ensures k.quiet && !requireMain && AllStagesFit(vs, d) ==> failure.None? && Faithful(AllNow(ts), d)
  {
    hide *;
    if failure.Some? {
      Abandon(k, ss, ts, base, vs, requireMain, start, seen, d);
    } else {
      AllSettled(k, ss, ts, base, vs, requireMain, start, seen, d);
    }
  }

  /** Settle member after member until one raises. */
  method SettleAll(k: Kernel, ss: seq<MemberStage>, requireMain: bool, ghost base: set<Fd>, ghost vs: seq<Stage>,
                   ghost start: Fs, ghost seen: seq<Look>, ghost d: Directory) returns (failure: Option<Code>, ts: seq<MemberTerminal>)
    requires k.Valid() && SettlingSince(k, ss, [], base, vs, requireMain, start, seen, d)
    modifies k, ss
    ensures k.Valid() && k.chmods == old(k.chmods) && fresh(ts)
    ensures failure.Some? ==> SettlingBroken(k, ss, ts, base, vs, requireMain, start, seen, d)
    ensures failure.None? ==> |ts| == |ss| && SettlingSince(k, ss, ts, base, vs, requireMain, start, seen, d)
  {
    hide *;
    ts := [];
    while |ts| < |ss|
      invariant |ts| <= |ss| && fresh(ts) && SettlingSince(k, ss, ts, base, vs, requireMain, start, seen, d)
      invariant k.Valid() && k.chmods == old(k.chmods)
      decreases |ss| - |ts|
    {
      var next := SettleNext(k, ss, ts, requireMain, base, vs, start, seen, d);
      if next.Raise? { return Some(next.error), ts; }
      ts := ts + [next.value];
    }
    return None, ts;
  }

  lemma {:induction false} NothingSettled(k: Kernel, ss: seq<MemberStage>, base: set<Fd>, requireMain: bool)
    requires Staged(k, ss, base)
    ensures SettlingSince(k, ss, [], base, StagesNow(ss), requireMain, k.fs, k.looks, DirectoryOf(k.fs))
  {
    LaterReflexive(k.fs);
    NoneSettled(k, ss, base, requireMain);
    hide Later;
    hide Settling;
    hide StagesNow;
    hide AllStagesFit;
  }

  lemma {:induction false} NoneSettled(k: Kernel, ss: seq<MemberStage>, base: set<Fd>, requireMain: bool)
    requires Staged(k, ss, base)
    ensures Settling(k, ss, [], base, StagesNow(ss), requireMain, |k.looks|)
  {
    hide OwnedBy;
    hide AsMembers;
    hide StagesNow;
    assert [] + AsMembers(StagesNow(ss)) == AsMembers(StagesNow(ss));
  }

  lemma {:induction false} AllSettled(k: Kernel, ss: seq<MemberStage>, ts: seq<MemberTerminal>, base: set<Fd>, vs: seq<Stage>, requireMain: bool,
                                      start: Fs, seen: seq<Look>, d: Directory)
    requires SettlingSince(k, ss, ts, base, vs, requireMain, start, seen, d) && |ts| == |ss|
    ensures Family(k, ts, base) && AllInspected(AllNow(ts)) && AllSettledFrom(vs, AllNow(ts), requireMain, k.looks, |seen|)
    ensures Later(start, k.fs) && seen <= k.looks
    ensures k.quiet ==> DirectoryOf(k.fs) == d && (!requireMain && AllStagesFit(vs, d) ==> Faithful(AllNow(ts), d))
  {
    hide OwnedBy;
    hide AllHold;
    hide SettledFrom;
    hide AsMembers;
    hide Later;
    assert vs[..|ts|] == vs;
    NoStageOpen(k.fs, AllNow(ts), StagesNow(ss), base);
    SettledIsInspected(vs, AllNow(ts), requireMain, k.looks, |seen|);
  }

  lemma {:induction false} NoStageOpen(f: Fs, a: seq<Member>, vs: seq<Stage>, base: set<Fd>)
    requires OwnedBy(f, a + AsMembers(vs), base) && forall i :: 0 <= i < |vs| ==> vs[i].fd.None?
    ensures OwnedBy(f, a, base)
  {
    hide OwnedBy;
    hide Fds;
    OwnedApart(f, a, AsMembers(vs), base);
    NoFds(AsMembers(vs));
    assert base + {} == base;
  }

  lemma {:induction false} NoFds(ms: seq<Member>)
    requires forall i :: 0 <= i < |ms| ==> ms[i].fd.None?
    ensures Fds(ms) == {}
  {
  }

  lemma {:induction false} SettledIsInspected(vs: seq<Stage>, ms: seq<Member>, requireMain: bool, looks: seq<Look>, since: nat)
    requires AllSettledFrom(vs, ms, requireMain, looks, since)
    ensures AllInspected(ms)
  {
    forall i | 0 <= i < |ms| ensures Inspected(ms[i]) { assert SettledFrom(vs[i], ms[i], requireMain, looks, since); }
  }

  /** Close the terminals; the stages keep theirs. */
  method Abandon(k: Kernel, ss: seq<MemberStage>, ts: seq<MemberTerminal>, ghost base: set<Fd>, ghost vs: seq<Stage>, ghost requireMain: bool,
                 ghost start: Fs, ghost seen: seq<Look>, ghost d: Directory)
    requires k.Valid() && SettlingBroken(k, ss, ts, base, vs, requireMain, start, seen, d)
    modifies k`fs, ts
    ensures k.Valid() && Later(start, k.fs) && seen <= k.looks && ApartStages(ss) && OwnedBy(k.fs, AsMembers(StagesNow(ss)), base)
    ensures k.quiet ==> DirectoryOf(k.fs) == d && (requireMain || !AllStagesFit(vs, d))
  {
    hide OwnedBy;
    hide AllNow;
    hide StagesNow;
    hide AsMembers;
    hide Fds;
    hide AllStagesFit;
    ghost var f, a, b := k.fs, AllNow(ts), AsMembers(StagesNow(ss));
    OwnedApart(f, a, b, base);
    CloseTerminals(k, ts, base + Fds(b));
    hide Later;
    LaterTransitive(start, f, k.fs);
    OnlyStagesLeft(f, k.fs, b, base, Fds(a));
  }

  lemma {:induction false} OnlyStagesLeft(f: Fs, g: Fs, b: seq<Member>, base: set<Fd>, gone: set<Fd>)
    requires OwnedBy(f, b, base + gone) && FsOk(g) && g.fds.Keys == base + Fds(b)
    ensures OwnedBy(g, b, base)
  {
  }

  // ----- What a whole call did -----

  /** A member at the end against the same member when it was captured: what is still present is the
      captured object under the captured descriptor, with the mode it showed there; what is absent was
      looked up and not found, and is never a main that had been found. */
  ghost predicate Accounted(v: Stage, m: Member, looks: seq<Look>, since: nat) {
    && m.leaf == v.leaf && m.optional == v.optional && MemberSeen(m, looks, since)
    && (v.fd.Some? && m.state.Present? ==> m.serial == v.serial && m.fd == v.fd && m.identity == v.identity)
    && (m.state.Absent? ==> v.optional || !v.present)
    && (v.fd.Some? && !v.optional ==> !m.state.Absent?)
  }

  ghost predicate AllStagesSeen(vs: seq<Stage>, looks: seq<Look>, since: nat) {
    forall i :: 0 <= i < |vs| ==> StageSeen(vs[i], looks, since)
  }

  lemma {:induction false} CapturedIsSeen(vs: seq<Stage>, name: Name, keys: set<Fd>, looks: seq<Look>, since: nat)
    requires FamilyCaptured(vs, name, keys, looks, since)
    ensures AllStagesSeen(vs, looks, since) && |vs| == 4 && !vs[0].optional
  {
  }

  ghost predicate AllAccounted(vs: seq<Stage>, ms: seq<Member>, looks: seq<Look>, since: nat) {
    |vs| == |ms| && forall i :: 0 <= i < |vs| ==> Accounted(vs[i], ms[i], looks, since)
  }

  lemma {:induction false} KeptIsAccounted(v: Stage, m: Member, n: Member, requireMain: bool, looks: seq<Look>, more: seq<Look>,
                                           later: nat, since: nat)
    requires since <= later && looks <= more && StageSeen(v, looks, since)
    requires SettledFrom(v, m, requireMain, looks, since) && KeptOrGone(m, n, more, later)
    ensures Accounted(v, n, more, since)
  {
    SettledIsSeen(v, m, requireMain, looks, since);
    KeptIsSeen(m, n, looks, more, later, since);
  }

  lemma {:induction false} SettledIsSeen(v: Stage, m: Member, requireMain: bool, looks: seq<Look>, since: nat)
    requires StageSeen(v, looks, since) && SettledFrom(v, m, requireMain, looks, since)
    ensures MemberSeen(m, looks, since)
  {
  }

  lemma {:induction false} KeptIsSeen(m: Member, n: Member, looks: seq<Look>, more: seq<Look>, later: nat, since: nat)
    requires since <= later && looks <= more && MemberSeen(m, looks, since) && KeptOrGone(m, n, more, later)
    ensures MemberSeen(n, more, since)
  {
    LooksGrew(looks, more);
    SeenSinceEarlier(more, later, since);
  }

  lemma {:induction false} AllKeptIsAccounted(vs: seq<Stage>, ms: seq<Member>, ns: seq<Member>, requireMain: bool, looks: seq<Look>,
                                              more: seq<Look>, later: nat, since: nat)
    requires since <= later && looks <= more && AllStagesSeen(vs, looks, since)
    requires AllSettledFrom(vs, ms, requireMain, looks, since) && AllKept(ms, ns, more, later)
    ensures AllAccounted(vs, ns, more, since)
  {
    forall i | 0 <= i < |vs| ensures Accounted(vs[i], ns[i], more, since) {
      assert StageSeen(vs[i], looks, since) && SettledFrom(vs[i], ms[i], requireMain, looks, since) && KeptOrGone(ms[i], ns[i], more, later);
      KeptIsAccounted(vs[i], ms[i], ns[i], requireMain, looks, more, later, since);
    }
  }

  // ----- Repair -----

  lemma {:induction false} RefusedIsOutcome(ms: seq<Member>, d: Directory)
    requires Faithful(ms, d)
    ensures !NoInvalid(ms) ==> RepairOutcome(false, d, d, LeavesOf(ms))
  {
    FaithfulIsInOrder(ms, d);
  }

  lemma {:induction false} SettledLeaves(vs: seq<Stage>, ms: seq<Member>, name: Name, keys: set<Fd>, requireMain: bool, looks: seq<Look>,
                                         since: nat, later: nat)
    requires FamilyCaptured(vs, name, keys, looks, since) && AllSettledFrom(vs, ms, requireMain, looks, later)
    ensures LeavesOf(ms) == Leaves(name)
  {
    forall i | 0 <= i < 4 ensures LeavesOf(ms)[i] == Leaves(name)[i] { assert SettledFrom(vs[i], ms[i], requireMain, looks, later); }
  }

  /** The members were checked and, if that went well, repaired. */
  method RepairSettled(k: Kernel, ts: seq<MemberTerminal>, ghost base: set<Fd>)
    returns (r: Outcome<seq<PermissionResult>>, ghost pins: seq<Member>)
    requires Family(k, ts, base) && |ts| > 0 && AllInspected(AllNow(ts))
    modifies k, ts
    ensures Family(k, ts, base) && Later(old(k.fs), k.fs) && old(k.looks) <= k.looks && old(k.chmods) <= k.chmods
    ensures RepairedFrom(old(AllNow(ts)), pins, AllNow(ts), k.looks, |old(k.looks)|, k.chmods, |old(k.chmods)|)
    ensures r.Ok? ==> r.value == ResultsOf(AllNow(ts)) && AllRepairedTo(pins, AllNow(ts))
    ensures k.quiet && old(Faithful(AllNow(ts), DirectoryOf(k.fs))) ==>
              RepairOutcome(r.Ok?, DirectoryOf(old(k.fs)), DirectoryOf(k.fs), LeavesOf(old(AllNow(ts))))
  {
    hide OwnedBy;
    hide AllHold;
    hide AllNow;
    hide KeptOrGone;
    hide Later;
    hide RepairedTo;
    hide Faithful;
    ghost var before, since := AllNow(ts), |k.looks|;
    if Faithful(before, DirectoryOf(k.fs)) { RefusedIsOutcome(before, DirectoryOf(k.fs)); }
    hide RepairOutcome;
    var checked := Preflight(k, ts, false, base);
    ghost var middle, f1, looks := AllNow(ts), k.fs, k.looks;
    SameLeaves(before, middle, looks, since);
    if checked.Raise? { return Raise(checked.error), middle; }
    r, pins := RepairWithAuthority(k, ts, base);
    LaterTransitive(old(k.fs), f1, k.fs);
    AllKeptTwice(before, middle, pins, looks, k.looks, since);
    AllKeptTwice(before, middle, AllNow(ts), looks, k.looks, since);
  }

  /** What one call on a family did to the outside: each descriptor it opened is closed; what it captured is
      what it saw under the family's names; only objects pinned by its members had their mode changed,
      to no more than they showed; and each member is accounted for. */
  ghost predicate CallOutcome(k: Kernel, name: Name, keys: set<Fd>, captured: seq<Stage>, pins: seq<Member>, final: seq<Member>,
                              looks: seq<Look>, changes: seq<ModeChange>)
    reads k
  {
    && k.Valid() && k.fs.fds.Keys == keys && looks <= k.looks && changes <= k.chmods
    && AllNarrow(k.chmods, |changes|, pins)
    && (captured != [] ==> FamilyCaptured(captured, name, keys, k.looks, |looks|))
    && (pins != [] ==> captured != [] && AllAccounted(captured, pins, k.looks, |looks|) && AllAccounted(captured, final, k.looks, |looks|))
  }

  /** `repair_sqlite_family_at`. */
  method RepairFamily(k: Kernel, name: Name)
    returns (r: Outcome<seq<PermissionResult>>, ghost captured: seq<Stage>, ghost pins: seq<Member>, ghost final: seq<Member>)
    requires k.Valid()
    modifies k
    ensures CallOutcome(k, name, old(k.fs).fds.Keys, captured, pins, final, old(k.looks), old(k.chmods))
    ensures r.Ok? ==> |final| == 4 && pins != [] && r.value == ResultsOf(final) && AllRepairedTo(pins, final)
    ensures r.Ok? ==> |captured| == 4 && (captured[0].fd.Some? ==> final[0].state.Present? && final[0].serial == captured[0].serial)
    ensures k.quiet ==> RepairOutcome(r.Ok?, DirectoryOf(old(k.fs)), DirectoryOf(k.fs), Leaves(name))
  {
    captured, pins, final := [], [], [];
    ghost var keys, looks0 := k.fs.fds.Keys, k.looks;
    var staged := StageFamily(k, name);
    NothingNarrowed(k.chmods, []);
    if staged.Raise? { return Raise(staged.error), [], [], []; }
    r, captured, pins, final := RepairStaged(k, name, staged.value, keys, looks0);
  }

  method RepairStaged(k: Kernel, ghost name: Name, ss: seq<MemberStage>, ghost keys: set<Fd>, ghost looks0: seq<Look>)
    returns (r: Outcome<seq<PermissionResult>>, ghost captured: seq<Stage>, ghost pins: seq<Member>, ghost final: seq<Member>)
    requires k.Valid() && Staged(k, ss, keys) && looks0 <= k.looks && FamilyCaptured(StagesNow(ss), name, keys, k.looks, |looks0|)
    modifies k, ss
    ensures CallOutcome(k, name, keys, captured, pins, final, looks0, old(k.chmods))
    ensures r.Ok? ==> |captured| == 4 && |final| == 4 && pins != [] && r.value == ResultsOf(final) && AllRepairedTo(pins, final)
    ensures r.Ok? && captured[0].fd.Some? ==> final[0].state.Present? && final[0].serial == captured[0].serial
    ensures k.quiet && AllStagesFit(old(StagesNow(ss)), DirectoryOf(old(k.fs))) ==>
              RepairOutcome(r.Ok?, DirectoryOf(old(k.fs)), DirectoryOf(k.fs), Leaves(name))
  {
    hide Faithful;
    hide AllStagesFit;
    hide RepairOutcome;
    hide OwnedBy;
    hide AllStagesHold;
    hide Family;
    hide Later;
    hide FsOk;
    hide StagesNow;
    hide AsMembers;
    hide AllNow;
    hide AllInspected;
    hide AllSettledFrom;
    hide AllNarrow;
    hide RepairedTo;
    hide AllAccounted;
    hide FamilyCaptured;
    captured, pins, final := StagesNow(ss), [], [];
    ghost var looks1 := k.looks;
    NothingNarrowed(k.chmods, []);
    var settled := TerminalizeFamily(k, ss, false, keys);
    CapturedGrew(captured, name, keys, looks1, k.looks, |looks0|);
    if settled.Raise? {
      CloseStages(k, ss, keys);
      return Raise(settled.error), captured, [], [];
    }
    r, pins, final := RepairAndClose(k, name, settled.value, keys, captured, looks0, looks1);
  }

  lemma {:induction false} NothingNarrowed(changes: seq<ModeChange>, pins: seq<Member>)
    ensures AllNarrow(changes, |changes|, pins)
  {
  }

  method RepairAndClose(k: Kernel, ghost name: Name, ts: seq<MemberTerminal>, ghost keys: set<Fd>, ghost captured: seq<Stage>,
                        ghost looks0: seq<Look>, ghost looks1: seq<Look>)
    returns (r: Outcome<seq<PermissionResult>>, ghost pins: seq<Member>, ghost final: seq<Member>)
    requires Family(k, ts, keys) && FamilyCaptured(captured, name, keys, k.looks, |looks0|) && AllInspected(AllNow(ts))
    requires looks0 <= looks1 <= k.looks && AllSettledFrom(captured, AllNow(ts), false, k.looks, |looks1|)
    modifies k, ts
    ensures CallOutcome(k, name, keys, captured, pins, final, looks0, old(k.chmods)) && |captured| == 4
    ensures r.Ok? ==> |final| == 4 && pins != [] && r.value == ResultsOf(final) && AllRepairedTo(pins, final)
    ensures r.Ok? && captured[0].fd.Some? ==> final[0].state.Present? && final[0].serial == captured[0].serial
    ensures k.quiet && old(Faithful(AllNow(ts), DirectoryOf(k.fs))) ==>
              RepairOutcome(r.Ok?, DirectoryOf(old(k.fs)), DirectoryOf(k.fs), Leaves(name))
  {
    hide Faithful;
    hide RepairOutcome;
    hide OwnedBy;
    hide AllHold;
    hide Later;
    hide FsOk;
    hide AllNow;
    hide AllInspected;
    hide AllNarrow;
    hide RepairedTo;
    hide Accounted;
    hide FamilyCaptured;
    ghost var ms, looks2, changes := AllNow(ts), k.looks, k.chmods;
    CapturedIsSeen(captured, name, keys, k.looks, |looks0|);
    SettledLeaves(captured, ms, name, keys, false, k.looks, |looks0|, |looks1|);
    r, pins := RepairSettled(k, ts, keys);
    final := AllNow(ts);
    CapturedGrew(captured, name, keys, looks2, k.looks, |looks0|);
    Account(captured, ms, pins, final, looks0, looks1, looks2, k.looks, k.chmods, |changes|);
    MainAccounted(captured, pins, final, k.looks, |looks0|);
    FamilyIsOwned(k, ts, keys);
    CloseTerminals(k, ts, keys);
  }

  lemma {:induction false} FamilyIsOwned(k: Kernel, ts: seq<MemberTerminal>, base: set<Fd>)
    requires Family(k, ts, base)
    ensures k.Valid() && Apart(ts) && OwnedBy(k.fs, AllNow(ts), base)
  {
  }

  lemma {:induction false} Account(vs: seq<Stage>, ms: seq<Member>, pins: seq<Member>, final: seq<Member>, looks0: seq<Look>,
                                   looks1: seq<Look>, looks2: seq<Look>, looks3: seq<Look>, changes: seq<ModeChange>, changed: nat)
    requires looks0 <= looks1 <= looks2 <= looks3
    requires AllSettledFrom(vs, ms, false, looks2, |looks1|) && AllStagesSeen(vs, looks2, |looks0|)
    requires RepairedFrom(ms, pins, final, looks3, |looks2|, changes, changed)
    ensures AllAccounted(vs, pins, looks3, |looks0|) && AllAccounted(vs, final, looks3, |looks0|)
  {
    SettledIsAccounted(vs, ms, pins, looks0, looks1, looks2, looks3);
    SettledIsAccounted(vs, ms, final, looks0, looks1, looks2, looks3);
  }

  lemma {:induction false} MainAccounted(vs: seq<Stage>, pins: seq<Member>, final: seq<Member>, looks: seq<Look>, since: nat)
    requires AllAccounted(vs, final, looks, since) && |vs| > 0 && !vs[0].optional
    ensures vs[0].fd.Some? && AllRepairedTo(pins, final) ==> final[0].state.Present? && final[0].serial == vs[0].serial
  {
    assert Accounted(vs[0], final[0], looks, since);
  }

  /** A database with a link to it under its log's name, both with mode 0644, is in order but cannot be repaired: the second
      name shows another mode than was recorded of it. */
  lemma {:induction false} LinkedLogIsNotRepaired(name: Name)
    ensures var d := Dir(map[name := 1, name + "-wal" := 1], map[1 := Object(true, true, 0x1A4, [], false, 0)]);
            InOrder(d, Leaves(name)) && !Repairable(d, Leaves(name))
  {
    var d := Dir(map[name := 1, name + "-wal" := 1], map[1 := Object(true, true, 0x1A4, [], false, 0)]);
    var leaves := Leaves(name);
    assert leaves[0] == name && leaves[1] == name + "-wal" && |leaves[1]| > |leaves[0]|;
    assert Loose(d, leaves[1]) && leaves[0] in d.names;
  }

  // ----- Inspection -----

  /** What is reported of a settled member: its own mode and whether that is private, or that it is absent. */
  function ReportOf(m: Member): PermissionResult {
    if m.state.Present? && m.mode.Some? then PermissionResult(ModeState(m.mode.value), m.mode) else PermissionResult(AbsentEntry, None)
  }

  ghost predicate Reports(results: seq<PermissionResult>, ms: seq<Member>) {
    |results| == |ms| && forall i :: 0 <= i < |ms| ==> !ms[i].state.Invalid? && results[i] == ReportOf(ms[i])
  }

  /** What one inspection did to the outside, nothing that lasts, and what its members are accounted as. */
  ghost predicate InspectionOutcome(k: Kernel, name: Name, keys: set<Fd>, captured: seq<Stage>, final: seq<Member>, looks: seq<Look>, changes: seq<ModeChange>)
    reads k
  {
    && k.Valid() && k.fs.fds.Keys == keys && k.chmods == changes && looks <= k.looks
    && (captured != [] ==> FamilyCaptured(captured, name, keys, k.looks, |looks|))
    && (final != [] ==> captured != [] && AllAccounted(captured, final, k.looks, |looks|))
  }

  /** What is to be reported of an entry. */
  function EntryReport(d: Directory, leaf: Name): PermissionResult {
    if leaf in d.names && d.names[leaf] in d.table then PermissionResult(ModeState(d.table[d.names[leaf]].mode), Some(d.table[d.names[leaf]].mode))
    else PermissionResult(AbsentEntry, None)
  }

  /** What an undisturbed inspection comes to: a refusal if an entry is not in order, and else a report of each. */
  predicate InspectionAnswer(r: Outcome<seq<PermissionResult>>, d: Directory, leaves: seq<Name>) {
    && (r.Ok? <==> InOrder(d, leaves))
    && (r.Ok? ==> |r.value| == |leaves| && forall i :: 0 <= i < |leaves| ==> r.value[i] == EntryReport(d, leaves[i]))
  }

  lemma {:induction false} FaithfulReports(r: Outcome<seq<PermissionResult>>, ms: seq<Member>, before: seq<Member>, d: Directory)
    requires Faithful(before, d) && Faithful(ms, d) && LeavesOf(ms) == LeavesOf(before) && (r.Ok? <==> NoInvalid(before))
    requires r.Ok? ==> Reports(r.value, ms)
    ensures InspectionAnswer(r, d, LeavesOf(before))
  {
    FaithfulIsInOrder(before, d);
    if r.Ok? {
      forall i | 0 <= i < |ms| ensures r.value[i] == EntryReport(d, LeavesOf(before)[i]) {
        assert Fits(ms[i], d) && Current(ms[i], d) && LeavesOf(ms)[i] == ms[i].leaf && r.value[i] == ReportOf(ms[i]);
      }
    }
  }

  /** `inspect_sqlite_family_at`: what repair checks, without its changes. */
  method InspectFamily(k: Kernel, name: Name)
    returns (r: Outcome<seq<PermissionResult>>, ghost captured: seq<Stage>, ghost final: seq<Member>)
    requires k.Valid()
    modifies k
    ensures InspectionOutcome(k, name, old(k.fs).fds.Keys, captured, final, old(k.looks), old(k.chmods))
    ensures r.Ok? ==> |final| == 4 && Reports(r.value, final)
    ensures k.quiet ==> DirectoryOf(k.fs) == DirectoryOf(old(k.fs)) && InspectionAnswer(r, DirectoryOf(k.fs), Leaves(name))
  {
    captured, final := [], [];
    ghost var keys, looks0 := k.fs.fds.Keys, k.looks;
    var staged := StageFamily(k, name);
    if staged.Raise? { return Raise(staged.error), [], []; }
    r, captured, final := InspectStaged(k, name, staged.value, keys, looks0);
  }

  method InspectStaged(k: Kernel, ghost name: Name, ss: seq<MemberStage>, ghost keys: set<Fd>, ghost looks0: seq<Look>)
    returns (r: Outcome<seq<PermissionResult>>, ghost captured: seq<Stage>, ghost final: seq<Member>)
    requires k.Valid() && Staged(k, ss, keys) && looks0 <= k.looks && FamilyCaptured(StagesNow(ss), name, keys, k.looks, |looks0|)
    modifies k, ss
    ensures InspectionOutcome(k, name, keys, captured, final, looks0, old(k.chmods))
    ensures r.Ok? ==> |final| == 4 && Reports(r.value, final)
    ensures k.quiet ==> DirectoryOf(k.fs) == DirectoryOf(old(k.fs))
    ensures k.quiet && AllStagesFit(old(StagesNow(ss)), DirectoryOf(k.fs)) ==> InspectionAnswer(r, DirectoryOf(k.fs), Leaves(name))
  {
    hide AllStagesFit;
    hide Faithful;
    hide InspectionAnswer;
    hide Staged;
    hide FsOk;
    hide Later;
    hide Family;
    hide AllInspected;
    hide OwnedBy;
    hide ApartStages;
    hide AllSettledFrom;
    hide AllNow;
    hide StagesNow;
    hide AsMembers;
    hide FamilyCaptured;
    captured, final := StagesNow(ss), [];
    ghost var looks1 := k.looks;
    CapturedIsSeen(captured, name, keys, looks1, |looks0|);
    var settled := TerminalizeFamily(k, ss, false, keys);
    CapturedGrew(captured, name, keys, looks1, k.looks, |looks0|);
    if settled.Raise? {
      CloseStages(k, ss, keys);
      return Raise(settled.error), captured, [];
    }
    r, final := InspectSettled(k, name, settled.value, keys, captured, looks0, looks1);
  }

  method InspectSettled(k: Kernel, ghost name: Name, ts: seq<MemberTerminal>, ghost keys: set<Fd>, ghost captured: seq<Stage>, ghost looks0: seq<Look>,
                        ghost looks1: seq<Look>)
    returns (r: Outcome<seq<PermissionResult>>, ghost final: seq<Member>)
    requires Family(k, ts, keys) && |ts| == 4 && AllInspected(AllNow(ts)) && FamilyCaptured(captured, name, keys, k.looks, |looks0|)
    requires looks0 <= looks1 <= k.looks && AllSettledFrom(captured, AllNow(ts), false, k.looks, |looks1|)
    modifies k, ts
    ensures InspectionOutcome(k, name, keys, captured, final, looks0, old(k.chmods))
    ensures r.Ok? ==> |final| == 4 && Reports(r.value, final)
    ensures k.quiet ==> DirectoryOf(k.fs) == DirectoryOf(old(k.fs))
    ensures k.quiet && Faithful(old(AllNow(ts)), DirectoryOf(k.fs)) ==> InspectionAnswer(r, DirectoryOf(k.fs), Leaves(name))
  {
    hide Faithful;
    hide Reports;
    hide InspectionAnswer;
    hide OwnedBy;
    hide AllHold;
    hide FsOk;
    hide Later;
    hide AllNow;
    hide AllKept;
    hide AllSettledFrom;
    hide AllInspected;
    hide NoInvalid;
    hide AllAccounted;
    hide ResultsOf;
    hide FamilyCaptured;
    ghost var ms, looks2 := AllNow(ts), k.looks;
    CapturedIsSeen(captured, name, keys, k.looks, |looks0|);
    SettledLeaves(captured, ms, name, keys, false, k.looks, |looks0|, |looks1|);
    var checked := Preflight(k, ts, false, keys);
    final := AllNow(ts);
    SameLeaves(ms, final, k.looks, |looks2|);
    CapturedGrew(captured, name, keys, looks2, k.looks, |looks0|);
    SettledIsAccounted(captured, ms, final, looks0, looks1, looks2, k.looks);
    var results := Results(ts);
    if checked.Ok? { ResultsAreReports(k.fs, final); }
    FamilyIsOwned(k, ts, keys);
    CloseTerminals(k, ts, keys);
    r := if checked.Raise? then Raise(checked.error) else Ok(results);
    if k.quiet && Faithful(ms, DirectoryOf(k.fs)) { FaithfulReports(r, final, ms, DirectoryOf(k.fs)); }
  }

  lemma {:induction false} SettledIsAccounted(vs: seq<Stage>, ms: seq<Member>, final: seq<Member>, looks0: seq<Look>, looks1: seq<Look>,
                                               looks2: seq<Look>, looks3: seq<Look>)
    requires looks0 <= looks1 <= looks2 <= looks3
    requires AllSettledFrom(vs, ms, false, looks2, |looks1|) && AllStagesSeen(vs, looks2, |looks0|) && AllKept(ms, final, looks3, |looks2|)
    ensures AllAccounted(vs, final, looks3, |looks0|)
  {
    forall i | 0 <= i < |vs| ensures SettledFrom(vs[i], ms[i], false, looks2, |looks0|) {
      SettledLater(vs[i], ms[i], false, looks2, |looks1|, |looks0|);
    }
    AllKeptIsAccounted(vs, ms, final, false, looks2, looks3, |looks2|, |looks0|);
  }

  lemma {:induction false} ResultsAreReports(f: Fs, ms: seq<Member>)
    requires AllHold(f, ms) && AllInspected(ms) && NoInvalid(ms)
    ensures Reports(ResultsOf(ms), ms)
    decreases |ms|
  {
    if ms != [] {
      var rest, last := ms[..|ms| - 1], ms[|ms| - 1];
      forall i | 0 <= i < |rest| ensures MemberHolds(rest[i], f) { assert MemberHolds(ms[i], f); }
      ResultsAreReports(f, rest);
      assert MemberHolds(last, f) && Inspected(last);
    }
  }

  // ----- Creating the main database -----

  /** A mode change of the object this call created, if it did create one, to the private mode. */
  predicate OfCreated(change: ModeChange, made: Option<nat>) {
    made == Some(change.serial) && change.to == PRIVATE_FILE_MODE
  }

  ghost predicate OnlyCreated(changes: seq<ModeChange>, since: nat, made: Option<nat>) {
    forall c :: since <= c < |changes| ==> OfCreated(changes[c], made)
  }

  /** If an object was made, it was by an exclusive create of this name. */
  ghost predicate MadeSince(looks: seq<Look>, since: nat, leaf: Name, made: Option<nat>) {
    made.Some? ==> exists i :: since <= i < |looks| && looks[i].Created? && looks[i].name == leaf && looks[i].serial == made.value
  }

  lemma {:induction false} MadeGrew(looks: seq<Look>, more: seq<Look>, since: nat, earlier: nat, leaf: Name, made: Option<nat>)
    requires looks <= more && earlier <= since && MadeSince(looks, since, leaf, made)
    ensures MadeSince(more, earlier, leaf, made)
  {
    if made.Some? {
      var i :| since <= i < |looks| && looks[i].Created? && looks[i].name == leaf && looks[i].serial == made.value;
      assert more[i] == looks[i];
    }
  }

  /** The new main is there, and private. */
  predicate Made(before: Directory, after: Directory, leaf: Name) {
    AddedTo(before, after, leaf) && Shows(after, leaf, after.names[leaf], PRIVATE_FILE_MODE)
  }

  /** `create_private_file_at`: an exclusive create, checked and given exactly the private mode; on a
      failure the descriptor is closed and the new entry removed if it is still there. */
  method CreatePrivate(k: Kernel, leaf: Name) returns (r: Outcome<Fd>, ghost made: Option<nat>)
    requires k.Valid()
    modifies k
    ensures k.Valid() && Later(old(k.fs), k.fs) && old(k.looks) <= k.looks && old(k.chmods) <= k.chmods
    ensures OnlyCreated(k.chmods, |old(k.chmods)|, made) && MadeSince(k.looks, |old(k.looks)|, leaf, made)
    ensures made.Some? ==> made.value >= old(k.fs).serials
    ensures r.Raise? ==> k.fs.fds.Keys == old(k.fs).fds.Keys
    ensures r.Ok? ==> r.value !in old(k.fs).fds && k.fs.fds.Keys == old(k.fs).fds.Keys + {r.value}
                      && made.Some? && Pinned(k.fs, r.value, k.fs.fds[r.value], made.value)
    ensures k.quiet && leaf !in old(k.fs).names ==>
              r.Ok? && Made(DirectoryOf(old(k.fs)), DirectoryOf(k.fs), leaf) && LeadsTo(DirectoryOf(k.fs), leaf, k.fs.fds[r.value])
  {
    made := None;
    var opening := k.Create(leaf);
    ghost var f1, looks1 := k.fs, k.looks;
    if opening.Exists? { return Raise(EntryExists), None; }
    if !opening.Opened? { return Raise(OperationFailed), None; }
    made := Some(k.fs.table[k.fs.fds[opening.fd]].serial);
    assert looks1[|old(k.looks)|].Created?;
    ghost var keys := old(k.fs).fds.Keys;
    r := CheckCreated(k, leaf, opening.fd, made.value, keys);
    LaterTransitive(old(k.fs), f1, k.fs);
    MadeGrew(looks1, k.looks, |old(k.looks)|, |old(k.looks)|, leaf, made);
  }

  method CheckCreated(k: Kernel, leaf: Name, fd: Fd, ghost serial: nat, ghost keys: set<Fd>) returns (r: Outcome<Fd>)
    requires k.Valid() && fd in k.fs.fds && k.fs.fds.Keys == keys + {fd} && fd !in keys && Pinned(k.fs, fd, k.fs.fds[fd], serial)
    modifies k
    ensures k.Valid() && Later(old(k.fs), k.fs) && old(k.looks) <= k.looks && old(k.chmods) <= k.chmods
    ensures OnlyCreated(k.chmods, |old(k.chmods)|, Some(serial))
    ensures r.Raise? ==> k.fs.fds.Keys == keys
    ensures r.Ok? ==> r.value == fd && k.fs.fds.Keys == keys + {fd} && Pinned(k.fs, fd, k.fs.fds[fd], serial)
    ensures k.quiet && LeadsTo(DirectoryOf(old(k.fs)), leaf, old(k.fs).fds[fd]) ==>
              r.Ok? && k.fs.fds[fd] == old(k.fs).fds[fd]
              && DirectoryOf(k.fs) == WithMode(DirectoryOf(old(k.fs)), old(k.fs).fds[fd], PRIVATE_FILE_MODE)
  {
    hide WithMode;
    ghost var f0 := k.fs;
    var st := k.Fstat(fd);
    assert Pinned(k.fs, fd, f0.fds[fd], serial);
    hide Later;
    ghost var f1 := k.fs;
    var failure := if st.Raise? then Some(st.error) else CaptureError(st.value.ino, st);
    var created := if st.Ok? && failure.None? then Some(st.value.ino) else None;
    if failure.None? {
      failure := MakePrivate(k, leaf, fd, created.value, serial);
      LaterTransitive(f0, f1, k.fs);
    }
    if failure.None? { return Ok(fd); }
    ghost var f2 := k.fs;
    DiscardCreated(k, leaf, fd, created);
    LaterTransitive(f0, f2, k.fs);
    return Raise(failure.value);
  }

  /** Close the descriptor, and remove the entry if it is known to lead to the created object. */
  method DiscardCreated(k: Kernel, leaf: Name, fd: Fd, created: Option<Ino>)
    requires k.Valid() && fd in k.fs.fds
    modifies k`fs, k`script, k`looks
    ensures k.Valid() && Later(old(k.fs), k.fs) && k.fs.fds.Keys == old(k.fs).fds.Keys - {fd} && old(k.looks) <= k.looks
  {
    k.Close(fd);
    ghost var f1 := k.fs;
    if created.Some? {
      RemoveIfSame(k, leaf, created.value);
      LaterTransitive(old(k.fs), f1, k.fs);
    }
  }

  /** Give the created object its mode, and check object and entry again. */
  method MakePrivate(k: Kernel, leaf: Name, fd: Fd, created: Ino, ghost serial: nat) returns (failure: Option<Code>)
    requires k.Valid() && Pinned(k.fs, fd, created, serial)
    modifies k
    ensures k.Valid() && Later(old(k.fs), k.fs) && old(k.looks) <= k.looks && old(k.chmods) <= k.chmods
    ensures OnlyCreated(k.chmods, |old(k.chmods)|, Some(serial)) && k.fs.fds == old(k.fs).fds && Pinned(k.fs, fd, created, serial)
    ensures k.quiet && LeadsTo(DirectoryOf(old(k.fs)), leaf, created) ==>
              failure.None? && DirectoryOf(k.fs) == WithMode(DirectoryOf(old(k.fs)), created, PRIVATE_FILE_MODE)
  {
    var changed := k.Fchmod(fd, PRIVATE_FILE_MODE);
    ghost var f1 := k.fs;
    assert Pinned(k.fs, fd, created, serial);
    if changed.Raise? { return Some(changed.error); }
    var st := k.Fstat(fd);
    LaterTransitive(old(k.fs), f1, k.fs);
    ghost var f2 := k.fs;
    failure := CaptureError(created, st);
    if failure.Some? { return; }
    if st.value.mode != PRIVATE_FILE_MODE { return Some(OperationFailed); }
    var published := k.Lstat(leaf);
    LaterTransitive(old(k.fs), f2, k.fs);
    failure := LinkError(created, published);
  }

  /** Remove an entry that still leads to this inode; failures are ignored. */
  method RemoveIfSame(k: Kernel, leaf: Name, created: Ino)
    requires k.Valid()
    modifies k`fs, k`script, k`looks
    ensures k.Valid() && Later(old(k.fs), k.fs) && k.fs.fds.Keys == old(k.fs).fds.Keys && old(k.looks) <= k.looks
  {
    var looked := k.Lstat(leaf);
    ghost var f1 := k.fs;
    if looked.Raise? || looked.value.None? || looked.value.value.ino != created { return; }
    var removed := k.Remove(leaf);
    LaterTransitive(old(k.fs), f1, k.fs);
    ghost var f2 := k.fs;
    if removed.Ok? {
      var _ := k.Sync();
      LaterTransitive(old(k.fs), f2, k.fs);
    }
  }
}
