/** `prepare_sqlite_family_at`: create a missing main database, or narrow what is there, under one
    bounded mutation phase. */
module SqliteMainCreation {
  import opened Options
  import opened FileSystem
  import opened SqliteFamily
  import opened SqlitePreparation

  // ----- What a preparation makes of an undisturbed directory -----

  /** The main is the expected one, if one is expected. */
  predicate AsExpected(d: Directory, leaves: seq<Name>, expected: Option<Ino>) {
    expected.Some? ==> |leaves| > 0 && leaves[0] in d.names && expected.value == d.names[leaves[0]]
  }

  /** A new, empty and private main, and everything else as a repair leaves it. */
  predicate MainAdded(before: Directory, after: Directory, leaves: seq<Name>) {
    && |leaves| > 0 && leaves[0] !in before.names && leaves[0] in after.names
    && var i := after.names[leaves[0]];
    && i !in before.table && i in after.table && after.table[i].regular && after.table[i].owned && after.table[i].content == []
    && after.table[i].mode == PRIVATE_FILE_MODE
    && Narrowed(before, Dir(after.names - {leaves[0]}, after.table - {i}), leaves)
  }

  predicate Brought(before: Directory, after: Directory, leaves: seq<Name>) {
    if |leaves| > 0 && leaves[0] in before.names then Narrowed(before, after, leaves) else MainAdded(before, after, leaves)
  }

  /** What an undisturbed preparation comes to: it fails exactly if an entry is not in order, the main is not the expected
      one, or two names are links to one loose file; in the first two cases nothing is changed. */
  predicate PreparationAnswer(done: bool, before: Directory, after: Directory, leaves: seq<Name>, expected: Option<Ino>) {
    && (done <==> Repairable(before, leaves) && AsExpected(before, leaves, expected))
    && (done ==> Brought(before, after, leaves))
    && (!(InOrder(before, leaves) && AsExpected(before, leaves, expected)) ==> after == before)
  }

  /** The same before a main created in vain is taken back: only then is there one. */
  predicate Answered(done: bool, before: Directory, after: Directory, leaves: seq<Name>, expected: Option<Ino>, created: Option<Ino>) {
    PreparationAnswer(done, before, after, leaves, expected) && (created.Some? ==> InOrder(before, leaves) && AsExpected(before, leaves, expected))
  }

  predicate BroughtAbout(done: bool, before: Directory, after: Directory, leaves: seq<Name>) {
    (done <==> !LooseTwice(before, leaves)) && (done ==> Brought(before, after, leaves))
  }

  /** Settled terminals of an undisturbed directory. */
  predicate Ready(ms: seq<Member>, d: Directory) {
    Faithful(ms, d) && MainApart(LeavesOf(ms)) && Whole(d)
  }

  /** Every name leads to something. */
  predicate Whole(d: Directory) {
    forall n :: n in d.names ==> d.names[n] in d.table
  }

  predicate MainApart(leaves: seq<Name>) {
    |leaves| > 0 && forall i :: 0 < i < |leaves| ==> leaves[i] != leaves[0]
  }

  lemma {:induction false} LeavesApart(name: Name)
    ensures MainApart(Leaves(name))
  {
    forall i | 0 < i < 4 ensures Leaves(name)[i] != Leaves(name)[0] { assert |Leaves(name)[i]| > |name|; }
  }

  /** The other members still say what the directory says once the main is made. */
  lemma {:induction false} OthersStillFit(m: Member, before: Directory, after: Directory, leaf: Name)
    requires Fits(m, before) && Current(m, before) && Made(before, after, leaf) && m.leaf != leaf && Whole(before)
    ensures Fits(m, after) && Current(m, after)
  {
  }

  lemma {:induction false} NewMainIsFaithful(ms: seq<Member>, main: Member, before: Directory, after: Directory)
    requires Faithful(ms, before) && MainApart(LeavesOf(ms)) && Made(before, after, ms[0].leaf) && main.leaf == ms[0].leaf
    requires Fits(main, after) && Current(main, after) && Whole(before)
    ensures Faithful(ms[0 := main], after)
  {
    hide Made;
    hide Fits;
    hide Current;
    var now := ms[0 := main];
    forall i | 0 <= i < |ms| ensures Fits(now[i], after) && Current(now[i], after) {
      if i > 0 {
        assert LeavesOf(ms)[i] != LeavesOf(ms)[0];
        OthersStillFit(ms[i], before, after, ms[0].leaf);
      }
    }
  }

  /** What the names lead to is the same but for the new main, which is nobody's link and not loose. */
  lemma {:induction false} LooseTwiceAsBefore(before: Directory, made: Directory, leaves: seq<Name>)
    requires MainApart(leaves) && Made(before, made, leaves[0]) && InOrder(before, leaves)
    ensures LooseTwice(made, leaves) <==> LooseTwice(before, leaves)
  {
    NewIsPrivate();
    forall i | 0 <= i < |leaves| ensures Loose(made, leaves[i]) <==> Loose(before, leaves[i]) {}
    if LooseTwice(before, leaves) {
      var i, j :| 0 <= i < j < |leaves| && Loose(before, leaves[j]) && leaves[i] in before.names && before.names[leaves[i]] == before.names[leaves[j]];
      assert Loose(made, leaves[j]);
    }
    if LooseTwice(made, leaves) {
      var i, j :| 0 <= i < j < |leaves| && Loose(made, leaves[j]) && leaves[i] in made.names && made.names[leaves[i]] == made.names[leaves[j]];
      assert Loose(before, leaves[j]) && i != 0;
    }
  }

  lemma {:induction false} NewIsPrivate()
    ensures IsPrivate(PRIVATE_FILE_MODE) && PRIVATE_FILE_MODE & PRIVATE_FILE_MODE == PRIVATE_FILE_MODE
  {
  }

  lemma {:induction false} ReachedAsBefore(before: Directory, made: Directory, leaves: seq<Name>, i: Ino)
    requires MainApart(leaves) && Made(before, made, leaves[0]) && i in before.table
    ensures Reached(made, leaves, i) <==> Reached(before, leaves, i)
  {
    if Reached(before, leaves, i) {
      var j :| 0 <= j < |leaves| && leaves[j] in before.names && before.names[leaves[j]] == i;
      assert leaves[j] in made.names && made.names[leaves[j]] == i;
    }
    if Reached(made, leaves, i) {
      var j :| 0 <= j < |leaves| && leaves[j] in made.names && made.names[leaves[j]] == i;
      assert leaves[j] in before.names && before.names[leaves[j]] == i;
    }
  }

  lemma {:induction false} MadeThenNarrowed(before: Directory, made: Directory, after: Directory, leaves: seq<Name>)
    requires MainApart(leaves) && Made(before, made, leaves[0]) && Narrowed(made, after, leaves)
    ensures MainAdded(before, after, leaves)
  {
    var i := made.names[leaves[0]];
    var rest := Dir(after.names - {leaves[0]}, after.table - {i});
    NewIsPrivate();
    assert Reached(made, leaves, i);
    assert rest.names == before.names;
    assert rest.table.Keys == before.table.Keys;
    forall j | j in before.table
      ensures rest.table[j] == if Reached(before, leaves, j) then before.table[j].(mode := before.table[j].mode & PRIVATE_FILE_MODE) else before.table[j]
    {
      ReachedAsBefore(before, made, leaves, j);
    }
  }

  lemma {:induction false} OutcomeInPlace(start: seq<Member>, before: Directory, after: Directory, done: bool)
    requires Ready(start, before) && NoInvalid(start) && !start[0].state.Absent? && RepairOutcome(done, before, after, LeavesOf(start))
    ensures BroughtAbout(done, before, after, LeavesOf(start))
  {
    FaithfulIsInOrder(start, before);
    assert Fits(start[0], before) && LeavesOf(start)[0] == start[0].leaf;
  }

  lemma {:induction false} OutcomeOfNew(start: seq<Member>, main: Member, before: Directory, made: Directory, after: Directory, done: bool)
    requires Ready(start, before) && NoInvalid(start) && Made(before, made, start[0].leaf) && main.leaf == start[0].leaf
    requires Faithful(start[0 := main], made) && RepairOutcome(done, made, after, LeavesOf(start[0 := main]))
    ensures BroughtAbout(done, before, after, LeavesOf(start))
  {
    hide Narrowed;
    hide LooseTwice;
    hide MainAdded;
    var leaves, ms := LeavesOf(start), start[0 := main];
    assert LeavesOf(ms) == leaves;
    FaithfulIsInOrder(start, before);
    MainIsInOrder(before, made, leaves);
    LooseTwiceAsBefore(before, made, leaves);
    if done { MadeThenNarrowed(before, made, after, leaves); }
  }

  lemma {:induction false} MainIsInOrder(before: Directory, made: Directory, leaves: seq<Name>)
    requires MainApart(leaves) && Made(before, made, leaves[0]) && InOrder(before, leaves)
    ensures InOrder(made, leaves) && leaves[0] !in before.names
  {
    forall i | 0 <= i < |leaves| ensures Plain(made, leaves[i]) { assert Plain(before, leaves[i]); }
  }

  lemma {:induction false} RefusalIsAnswer(ms: seq<Member>, d: Directory, expected: Option<Ino>)
    requires Faithful(ms, d) && |ms| > 0
    ensures !(NoInvalid(ms) && AsExpected(d, LeavesOf(ms), expected)) ==> Answered(false, d, d, LeavesOf(ms), expected, None)
  {
    FaithfulIsInOrder(ms, d);
  }

  /** The members as they were settled give the answer of those that were checked again. */
  lemma {:induction false} CheckedIsAnswered(start: seq<Member>, ms: seq<Member>, d: Directory, after: Directory, expected: Option<Ino>,
                                             created: Option<Ino>, done: bool)
    requires Ready(start, d) && Faithful(ms, d) && NoInvalid(ms) && LeavesOf(ms) == LeavesOf(start) && AsExpected(d, LeavesOf(start), expected)
    requires BroughtAbout(done, d, after, LeavesOf(ms))
    ensures Answered(done, d, after, LeavesOf(start), expected, created)
  {
    FaithfulIsInOrder(ms, d);
  }

  // ----- The main, created or appeared -----

  /** The main was created by somebody else just before us: capture that one. */
  method CaptureAppeared(k: Kernel, leaf: Name) returns (r: Outcome<MemberStage>)
    requires k.Valid()
    modifies k
    ensures k.Valid() && Later(old(k.fs), k.fs) && k.chmods == old(k.chmods) && old(k.looks) <= k.looks
    ensures k.quiet ==> DirectoryOf(k.fs) == DirectoryOf(old(k.fs))
    ensures r.Raise? ==> k.fs.fds.Keys == old(k.fs).fds.Keys
    ensures r.Ok? ==> fresh(r.value) && r.value.leaf == leaf && !r.value.optional && r.value.Holds(k.fs)
                      && k.fs.fds.Keys == old(k.fs).fds.Keys + FdSet(r.value.fd) && FdSet(r.value.fd) !! old(k.fs).fds.Keys
                      && StageSeen(r.value.Now(), k.looks, |old(k.looks)|)
  {
    r := Capture(k, leaf, false);
    if r.Ok? && !r.value.present && r.value.error.None? { r.value.error := Some(EntryChanged); }
  }

  /** Capture the main we just created, while its first descriptor is still open; only that very
      object will do. */
  method CaptureCreated(k: Kernel, leaf: Name, created: Fd, ghost serial: nat) returns (r: Outcome<MemberStage>, identity: Option<Ino>)
    requires k.Valid() && created in k.fs.fds && Pinned(k.fs, created, k.fs.fds[created], serial)
    modifies k
    ensures k.Valid() && Later(old(k.fs), k.fs) && k.chmods == old(k.chmods) && old(k.looks) <= k.looks
    ensures k.quiet ==> DirectoryOf(k.fs) == DirectoryOf(old(k.fs))
    ensures r.Raise? ==> k.fs.fds.Keys == old(k.fs).fds.Keys
    ensures r.Ok? ==> fresh(r.value) && r.value.leaf == leaf && !r.value.optional && r.value.Holds(k.fs) && r.value.fd.Some?
                      && k.fs.fds.Keys == old(k.fs).fds.Keys + FdSet(r.value.fd) && FdSet(r.value.fd) !! old(k.fs).fds.Keys
                      && identity.Some? && r.value.identity == identity && r.value.serial == serial
                      && StageSeen(r.value.Now(), k.looks, |old(k.looks)|)
    ensures k.quiet && LeadsTo(DirectoryOf(k.fs), leaf, old(k.fs).fds[created]) ==> r.Ok? && StageFits(r.value.Now(), DirectoryOf(k.fs))
  {
    hide StageFits;
    ghost var f0, ino := k.fs, k.fs.fds[created];
    var st := k.Fstat(created);
    assert Pinned(k.fs, created, ino, serial);
    ghost var f1 := k.fs;
    if st.Raise? { return Raise(st.error), None; }
    identity := Some(st.value.ino);
    var valid := Validated(st.value);
    if valid.Raise? { return Raise(valid.error), identity; }
    var synced := SyncAndSeam(k);
    LaterTransitive(f0, f1, k.fs);
    ghost var f2, looks := k.fs, k.looks;
    if synced.Raise? { return Raise(synced.error), identity; }
    r := CaptureSame(k, leaf, created, identity.value, serial);
    LaterTransitive(f0, f2, k.fs);
    SeenSinceEarlier(k.looks, |looks|, |old(k.looks)|);
  }

  method SyncAndSeam(k: Kernel) returns (r: Outcome<Unit>)
    requires k.Valid()
    modifies k`fs, k`script
    ensures k.Valid() && Later(old(k.fs), k.fs) && k.fs.fds == old(k.fs).fds
    ensures k.quiet ==> r.Ok? && DirectoryOf(k.fs) == DirectoryOf(old(k.fs))
  {
    r := k.Sync();
    if r.Raise? { return; }
    ghost var f1 := k.fs;
    var raised := k.Seam();
    LaterTransitive(old(k.fs), f1, k.fs);
    if raised { r := Raise(Interrupted); }
  }

  method CaptureSame(k: Kernel, leaf: Name, created: Fd, identity: Ino, ghost serial: nat) returns (r: Outcome<MemberStage>)
    requires k.Valid() && Pinned(k.fs, created, identity, serial)
    modifies k
    ensures k.Valid() && Later(old(k.fs), k.fs) && k.chmods == old(k.chmods) && old(k.looks) <= k.looks
    ensures k.quiet ==> DirectoryOf(k.fs) == DirectoryOf(old(k.fs))
    ensures r.Raise? ==> k.fs.fds.Keys == old(k.fs).fds.Keys
    ensures r.Ok? ==> fresh(r.value) && r.value.leaf == leaf && !r.value.optional && r.value.Holds(k.fs) && r.value.fd.Some?
                      && k.fs.fds.Keys == old(k.fs).fds.Keys + FdSet(r.value.fd) && FdSet(r.value.fd) !! old(k.fs).fds.Keys
                      && r.value.identity == Some(identity) && r.value.serial == serial
                      && StageSeen(r.value.Now(), k.looks, |old(k.looks)|)
    ensures k.quiet && LeadsTo(DirectoryOf(k.fs), leaf, identity) ==> r.Ok? && StageFits(r.value.Now(), DirectoryOf(k.fs))
  {
    r := Capture(k, leaf, false);
    ghost var f1 := k.fs;
    if r.Raise? { return; }
    var stage := r.value;
    // Both descriptors are open, so one number means one object.
    assert Pinned(k.fs, created, identity, serial);
    if stage.error.Some? || stage.identity != Some(identity) {
      if stage.fd.Some? {
        k.Close(stage.fd.value);
        LaterTransitive(old(k.fs), f1, k.fs);
        stage.fd := None;
      }
      return Raise(EntryChanged);
    }
  }

  /** The block that makes a missing main exist. After a raise nothing it opened is left open. */
  method MakeMain(k: Kernel, leaf: Name) returns (r: Outcome<MemberTerminal>, identity: Option<Ino>, ghost made: Option<nat>)
    requires k.Valid()
    modifies k
    ensures k.Valid() && Later(old(k.fs), k.fs) && old(k.looks) <= k.looks && old(k.chmods) <= k.chmods
    ensures OnlyCreated(k.chmods, |old(k.chmods)|, made) && MadeSince(k.looks, |old(k.looks)|, leaf, made) && IsNew(made, old(k.fs))
    ensures r.Ok? ==> MemberSeen(r.value.Now(), k.looks, |old(k.looks)|)
    ensures r.Raise? ==> k.fs.fds.Keys == old(k.fs).fds.Keys
    ensures r.Ok? ==> fresh(r.value) && MemberHolds(r.value.Now(), k.fs) && r.value.leaf == leaf && !r.value.optional
                      && Inspected(r.value.Now()) && !r.value.state.Absent?
                      && k.fs.fds.Keys == old(k.fs).fds.Keys + FdSet(r.value.fd) && FdSet(r.value.fd) !! old(k.fs).fds.Keys
    // The identity check after settling, which would otherwise lose a descriptor, always succeeds.
    ensures r.Ok? && identity.Some? ==> made.Some? && r.value.identity == identity && (r.value.state.Present? ==> r.value.serial == made.value)
    ensures k.quiet && leaf !in old(k.fs).names ==>
              r.Ok? && identity.Some? && Made(DirectoryOf(old(k.fs)), DirectoryOf(k.fs), leaf)
              && Fits(r.value.Now(), DirectoryOf(k.fs)) && Current(r.value.Now(), DirectoryOf(k.fs))
  {
    hide Made;
    hide StageFits;
    hide Fits;
    hide Current;
    hide Later;
    hide MemberHolds;
    hide StageHolds;
    hide StageSeen;
    hide SettledFrom;
    hide MemberSeen;
    hide MadeSince;
    ghost var f0, keys, since := k.fs, k.fs.fds.Keys, |k.looks|;
    var stage;
    stage, identity, made := FindMain(k, leaf);
    if stage.Raise? { return Raise(stage.error), identity, made; }
    ghost var f1, fd, v, looks := k.fs, stage.value.fd, stage.value.Now(), k.looks;
    r := SettleMain(k, stage.value);
    LaterTransitive(f0, f1, k.fs);
    MadeGrew(looks, k.looks, since, since, leaf, made);
    if r.Ok? { MainSeen(v, r.value.Now(), looks, k.looks, since); }
    WithoutMain(keys, fd, k.fs.fds.Keys, if r.Ok? then r.value.fd else None);
  }

  /** The object did not exist before. */
  predicate IsNew(made: Option<nat>, before: Fs) {
    made.Some? ==> made.value >= before.serials
  }

  lemma {:induction false} NewerStill(made: Option<nat>, f: Fs, g: Fs)
    requires Later(f, g) && IsNew(made, g)
    ensures IsNew(made, f)
  {
  }

  lemma {:induction false} MainSeen(v: Stage, m: Member, looks: seq<Look>, more: seq<Look>, since: nat)
    requires since <= |looks| && looks <= more && StageSeen(v, looks, since) && SettledFrom(v, m, true, more, |looks|)
    ensures MemberSeen(m, more, since)
  {
    LooksGrew(looks, more);
    SettledLater(v, m, true, more, |looks|, since);
    SettledIsSeen(v, m, true, more, since);
  }

  lemma {:induction false} WithoutMain(keys: set<Fd>, before: Option<Fd>, now: set<Fd>, after: Option<Fd>)
    requires FdSet(before) !! keys && FdSet(after) <= now && now - FdSet(after) == (keys + FdSet(before)) - FdSet(before)
    requires after == before || after.None? || after.value !in keys + FdSet(before)
    ensures now == keys + FdSet(after) && FdSet(after) !! keys
  {
    assert (keys + FdSet(before)) - FdSet(before) == keys;
    assert now == (now - FdSet(after)) + FdSet(after);
  }

  /** Create the main, or find the one that somebody else created first. */
  method FindMain(k: Kernel, leaf: Name) returns (r: Outcome<MemberStage>, identity: Option<Ino>, ghost made: Option<nat>)
    requires k.Valid()
    modifies k
    ensures k.Valid() && Later(old(k.fs), k.fs) && old(k.looks) <= k.looks && old(k.chmods) <= k.chmods
    ensures OnlyCreated(k.chmods, |old(k.chmods)|, made) && MadeSince(k.looks, |old(k.looks)|, leaf, made) && IsNew(made, old(k.fs))
    ensures r.Ok? ==> StageSeen(r.value.Now(), k.looks, |old(k.looks)|)
    ensures r.Raise? ==> k.fs.fds.Keys == old(k.fs).fds.Keys
    ensures r.Ok? ==> fresh(r.value) && r.value.leaf == leaf && !r.value.optional && r.value.Holds(k.fs)
                      && k.fs.fds.Keys == old(k.fs).fds.Keys + FdSet(r.value.fd) && FdSet(r.value.fd) !! old(k.fs).fds.Keys
    ensures r.Ok? && identity.Some? ==> r.value.fd.Some? && r.value.identity == identity && made == Some(r.value.serial)
    ensures k.quiet && leaf !in old(k.fs).names ==>
              r.Ok? && identity.Some? && Made(DirectoryOf(old(k.fs)), DirectoryOf(k.fs), leaf)
              && StageFits(r.value.Now(), DirectoryOf(k.fs))
  {
    hide Made;
    hide LeadsTo;
    hide StageFits;
    hide Later;
    hide StageHolds;
    hide StageSeen;
    hide MadeSince;
    identity := None;
    ghost var f0, since := k.fs, |k.looks|;
    var created;
    created, made := CreatePrivate(k, leaf);
    ghost var f1, looks := k.fs, k.looks;
    if created.Ok? { r, identity := CaptureAndRelease(k, leaf, created.value, made.value); }
    else if created.error == EntryExists { r := CaptureAppeared(k, leaf); }
    else { return Raise(created.error), None, made; }
    LaterTransitive(f0, f1, k.fs);
    MadeGrew(looks, k.looks, since, since, leaf, made);
    if r.Ok? { StageSeenEarlier(r.value.Now(), k.looks, |looks|, since); }
  }

  lemma {:induction false} StageSeenEarlier(v: Stage, looks: seq<Look>, since: nat, earlier: nat)
    requires earlier <= since && StageSeen(v, looks, since)
    ensures StageSeen(v, looks, earlier)
  {
    SeenSinceEarlier(looks, since, earlier);
  }

  /** The `finally` that closes the creating descriptor. */
  method CaptureAndRelease(k: Kernel, leaf: Name, created: Fd, ghost serial: nat) returns (r: Outcome<MemberStage>, identity: Option<Ino>)
    requires k.Valid() && created in k.fs.fds && Pinned(k.fs, created, k.fs.fds[created], serial)
    modifies k
    ensures k.Valid() && Later(old(k.fs), k.fs) && k.chmods == old(k.chmods) && old(k.looks) <= k.looks
    ensures k.quiet ==> DirectoryOf(k.fs) == DirectoryOf(old(k.fs))
    ensures r.Raise? ==> k.fs.fds.Keys == old(k.fs).fds.Keys - {created}
    ensures r.Ok? ==> fresh(r.value) && r.value.leaf == leaf && !r.value.optional && r.value.Holds(k.fs) && r.value.fd.Some?
                      && k.fs.fds.Keys == (old(k.fs).fds.Keys - {created}) + FdSet(r.value.fd) && FdSet(r.value.fd) !! old(k.fs).fds.Keys
                      && identity.Some? && r.value.identity == identity && r.value.serial == serial
                      && StageSeen(r.value.Now(), k.looks, |old(k.looks)|)
    ensures k.quiet && LeadsTo(DirectoryOf(k.fs), leaf, old(k.fs).fds[created]) ==> r.Ok? && StageFits(r.value.Now(), DirectoryOf(k.fs))
  {
    hide StageFits;
    r, identity := CaptureCreated(k, leaf, created, serial);
    ghost var f1 := k.fs;
    k.Close(created);
    LaterTransitive(old(k.fs), f1, k.fs);
  }

  method SettleMain(k: Kernel, stage: MemberStage) returns (r: Outcome<MemberTerminal>)
    requires k.Valid() && stage.Holds(k.fs) && !stage.optional
    modifies k, stage
    ensures k.Valid() && Later(old(k.fs), k.fs) && k.chmods == old(k.chmods) && old(k.looks) <= k.looks
    ensures k.quiet ==> DirectoryOf(k.fs) == DirectoryOf(old(k.fs))
    ensures r.Raise? ==> k.fs.fds.Keys == old(k.fs).fds.Keys - FdSet(old(stage.fd))
    ensures r.Ok? ==> fresh(r.value) && MemberHolds(r.value.Now(), k.fs) && r.value.leaf == stage.leaf && !r.value.optional
                      && Inspected(r.value.Now()) && !r.value.state.Absent? && FdSet(r.value.fd) <= k.fs.fds.Keys
                      && k.fs.fds.Keys - FdSet(r.value.fd) == old(k.fs).fds.Keys - FdSet(old(stage.fd))
                      && (r.value.fd == old(stage.fd) || r.value.fd.None? || r.value.fd.value !in old(k.fs).fds)
                      && SettledFrom(old(stage.Now()), r.value.Now(), true, k.looks, |old(k.looks)|)
    ensures r.Ok? && old(stage.fd).Some? ==> r.value.identity == old(stage.identity) && (r.value.state.Present? ==> r.value.serial == old(stage.serial))
    ensures k.quiet && old(stage.fd).Some? && StageFits(old(stage.Now()), DirectoryOf(k.fs)) ==>
              r.Ok? && Fits(r.value.Now(), DirectoryOf(k.fs)) && Current(r.value.Now(), DirectoryOf(k.fs))
  {
    hide StageFits;
    hide Fits;
    hide Current;
    r := SettleOne(k, stage, true);
    ghost var f1 := k.fs;
    if r.Raise? && stage.fd.Some? {
      k.Close(stage.fd.value);
      LaterTransitive(old(k.fs), f1, k.fs);
      stage.fd := None;
    }
  }

  // ----- The mutation phase -----

  /** Each change is of an object a member pinned, narrowed, or of the main this call created. */
  ghost predicate ChangesOf(changes: seq<ModeChange>, since: nat, pins: seq<Member>, made: Option<nat>) {
    forall c :: since <= c < |changes| ==> NarrowsSome(changes[c], pins) || OfCreated(changes[c], made)
  }

  lemma {:induction false} ChangesJoined(changes: seq<ModeChange>, more: seq<ModeChange>, since: nat, pins: seq<Member>, made: Option<nat>)
    requires since <= |changes| && changes <= more && OnlyCreated(changes, since, made) && AllNarrow(more, |changes|, pins)
    ensures ChangesOf(more, since, pins, made)
  {
    forall c | since <= c < |more| ensures NarrowsSome(more[c], pins) || OfCreated(more[c], made) {
      if c < |changes| { assert OfCreated(changes[c], made) && more[c] == changes[c]; }
    }
  }

  lemma {:induction false} MainReplaced(k: Kernel, f: Fs, ts: seq<MemberTerminal>, main: MemberTerminal, base: set<Fd>)
    requires k.Valid() && Later(f, k.fs) && |ts| > 0 && Apart(ts) && main !in ts && MemberHolds(main.Now(), k.fs)
    requires OwnedBy(f, AllNow(ts), base) && AllHold(f, AllNow(ts)) && ts[0].fd.None?
    requires k.fs.fds.Keys == f.fds.Keys + FdSet(main.fd) && FdSet(main.fd) !! f.fds.Keys
    ensures Family(k, [main] + ts[1..], base)
  {
    var ms, m, now := AllNow(ts), main.Now(), [main] + ts[1..];
    var ns := ms[0 := m];
    assert AllNow(now) == ns by { forall i | 0 <= i < |now| ensures AllNow(now)[i] == ns[i] { assert AllNow(now)[i] == now[i].Now(); } }
    MainOwned(f, k.fs, ms, m, base);
    forall i | 0 <= i < |ns| ensures MemberHolds(ns[i], k.fs) {
      if i > 0 {
        assert MemberHolds(ms[i], f) && ns[i] == ms[i];
        OwnFd(ns, i);
      }
    }
  }

  lemma {:induction false} MainOwned(f: Fs, g: Fs, ms: seq<Member>, m: Member, base: set<Fd>)
    requires OwnedBy(f, ms, base) && FsOk(g) && |ms| > 0 && ms[0].fd.None?
    requires g.fds.Keys == f.fds.Keys + FdSet(m.fd) && FdSet(m.fd) !! f.fds.Keys
    ensures OwnedBy(g, ms[0 := m], base)
  {
    if m.fd.Some? { FdGained(ms, 0, m); } else { FdsKept(ms, 0, m); }
  }

  /** `_require_expected_sqlite_main_identity`. */
  method ExpectedMain(ts: seq<MemberTerminal>, expected: Option<Ino>) returns (r: Outcome<Unit>)
    requires |ts| > 0
    ensures r.Ok? <==> expected.None? || (ts[0].state.Present? && ts[0].identity == expected)
  {
    if expected.Some? && !(ts[0].state.Present? && ts[0].identity == expected) { return Raise(EntryChanged); }
    return Ok(Unit);
  }

  /** Check the family with its main required, then repair it. */
  method CheckAndRepairMain(k: Kernel, ts: seq<MemberTerminal>, ghost base: set<Fd>)
    returns (r: Outcome<seq<PermissionResult>>, ghost pins: seq<Member>)
    requires Family(k, ts, base) && |ts| > 0 && AllInspected(AllNow(ts)) && !ts[0].optional
    modifies k, ts
    ensures Family(k, ts, base) && Later(old(k.fs), k.fs) && old(k.looks) <= k.looks && old(k.chmods) <= k.chmods
    ensures RepairedFrom(old(AllNow(ts)), pins, AllNow(ts), k.looks, |old(k.looks)|, k.chmods, |old(k.chmods)|)
    ensures r.Ok? ==> r.value == ResultsOf(AllNow(ts)) && AllRepairedTo(pins, AllNow(ts))
                      && ts[0].state.Present? && ts[0].identity == old(ts[0].identity) && ts[0].serial == old(ts[0].serial)
    ensures k.quiet && old(Faithful(AllNow(ts), DirectoryOf(k.fs))) && !old(ts[0].state).Absent? ==>
              RepairOutcome(r.Ok?, DirectoryOf(old(k.fs)), DirectoryOf(k.fs), LeavesOf(old(AllNow(ts))))
              && (r.Ok? ==> MainShown(AllNow(ts), DirectoryOf(k.fs)))
  {
    hide Faithful;
    hide MainShown;
    hide OwnedBy;
    hide AllHold;
    hide Later;
    hide AllNarrow;
    hide RepairedTo;
    hide AllNow;
    hide KeptOrGone;
    ghost var before, since := AllNow(ts), |k.looks|;
    if Faithful(before, DirectoryOf(k.fs)) { RefusedIsOutcome(before, DirectoryOf(k.fs)); }
    hide RepairOutcome;
    var checked := Preflight(k, ts, true, base);
    ghost var f1, looks1 := k.fs, k.looks;
    pins := AllNow(ts);
    SameLeaves(before, pins, looks1, since);
    NothingNarrowed(k.chmods, pins);
    if checked.Raise? { return Raise(checked.error), pins; }
    assert !pins[0].state.Absent? && !pins[0].state.Invalid?;
    MainKept(before, pins, looks1, since);
    r := RepairTerminals(k, ts, base);
    LaterTransitive(old(k.fs), f1, k.fs);
    MainKept(pins, AllNow(ts), k.looks, |looks1|);
    if k.quiet && Faithful(pins, DirectoryOf(f1)) && r.Ok? { RepairedMainShown(pins, AllNow(ts), DirectoryOf(f1), DirectoryOf(k.fs)); }
    KeptReflexive(pins, k.looks, |looks1|);
    AllKeptTwice(before, pins, pins, looks1, k.looks, since);
    AllKeptTwice(before, pins, AllNow(ts), looks1, k.looks, since);
  }

  /** The main's name leads to the member's own object, which has the recorded mode. */
  predicate MainShown(ms: seq<Member>, d: Directory) {
    |ms| > 0 && ms[0].identity.Some? && ms[0].mode.Some? && Shows(d, ms[0].leaf, ms[0].identity.value, ms[0].mode.value)
  }

  lemma {:induction false} RepairedMainShown(pins: seq<Member>, final: seq<Member>, before: Directory, after: Directory)
    requires Faithful(pins, before) && AllRepairedTo(pins, final) && RepairOutcome(true, before, after, LeavesOf(pins))
    requires |pins| > 0 && final[0].state.Present? && pins[0].state.Present? && final[0].leaf == pins[0].leaf && final[0].identity == pins[0].identity
    ensures MainShown(final, after)
  {
    var i := pins[0].identity.value;
    assert Fits(pins[0], before) && Current(pins[0], before) && RepairedTo(pins[0], final[0]);
    assert LeavesOf(pins)[0] == pins[0].leaf;
    assert Reached(before, LeavesOf(pins), i);
  }

  lemma {:induction false} MainKept(before: seq<Member>, after: seq<Member>, looks: seq<Look>, since: nat)
    requires AllKept(before, after, looks, since) && |before| > 0 && !before[0].optional
    ensures after[0].state == before[0].state && after[0].identity == before[0].identity && after[0].serial == before[0].serial
            && after[0].leaf == before[0].leaf && !after[0].optional
  {
    assert KeptOrGone(before[0], after[0], looks, since);
  }

  /** The terminals in use: the given ones, or those with a new main in front. */
  ghost predicate SameOrNewMain(ts: seq<MemberTerminal>, now: seq<MemberTerminal>) {
    now == ts || (|now| == |ts| > 0 && now[1..] == ts[1..])
  }

  /** Members against what they were when settled: kept or retired, but an absent main may have come
      into being. */
  ghost predicate KeptOrMade(start: seq<Member>, ms: seq<Member>, looks: seq<Look>, since: nat) {
    && |start| == |ms| > 0
    && (forall i :: 0 < i < |start| ==> KeptOrGone(start[i], ms[i], looks, since))
    && (KeptOrGone(start[0], ms[0], looks, since)
        || (start[0].state.Absent? && ms[0].leaf == start[0].leaf && ms[0].optional == start[0].optional && MemberSeen(ms[0], looks, since)))
  }

  ghost predicate Traced(start: seq<Member>, pins: seq<Member>, final: seq<Member>, looks: seq<Look>, since: nat) {
    (pins == [] || KeptOrMade(start, pins, looks, since)) && KeptOrMade(start, final, looks, since)
  }

  lemma {:induction false} KeptIsTraced(start: seq<Member>, pins: seq<Member>, final: seq<Member>, looks: seq<Look>, since: nat)
    requires |start| > 0 && (pins == [] || AllKept(start, pins, looks, since)) && AllKept(start, final, looks, since)
    ensures Traced(start, pins, final, looks, since)
  {
    if pins != [] { assert KeptOrGone(start[0], pins[0], looks, since); }
  }

  lemma {:induction false} KeptThenMade(a: seq<Member>, b: seq<Member>, ms: seq<Member>, looks: seq<Look>, more: seq<Look>, since: nat)
    requires since <= |looks| && looks <= more && |a| > 0 && !a[0].optional
    requires AllKept(a, b, looks, since) && KeptOrMade(b, ms, more, |looks|)
    ensures KeptOrMade(a, ms, more, since)
  {
    MainKept(a, b, looks, since);
    SeenSinceEarlier(more, |looks|, since);
    forall i | 0 <= i < |a| && KeptOrGone(b[i], ms[i], more, |looks|) ensures KeptOrGone(a[i], ms[i], more, since) {
      assert KeptOrGone(a[i], b[i], looks, since);
      KeptTwice(a[i], b[i], ms[i], looks, more, since);
    }
  }

  lemma {:induction false} KeptThenTraced(a: seq<Member>, b: seq<Member>, pins: seq<Member>, final: seq<Member>, looks: seq<Look>,
                                          more: seq<Look>, since: nat)
    requires since <= |looks| && looks <= more && |a| > 0 && !a[0].optional
    requires AllKept(a, b, looks, since) && Traced(b, pins, final, more, |looks|)
    ensures Traced(a, pins, final, more, since)
  {
    if pins != [] { KeptThenMade(a, b, pins, looks, more, since); }
    KeptThenMade(a, b, final, looks, more, since);
  }

  lemma {:induction false} TraceGrew(start: seq<Member>, pins: seq<Member>, final: seq<Member>, looks: seq<Look>, more: seq<Look>, since: nat)
    requires looks <= more && Traced(start, pins, final, looks, since)
    ensures Traced(start, pins, final, more, since)
  {
    LooksGrew(looks, more);
  }

  /** What the mutation phase has done when it ends, however it ends. */
  ghost predicate PhaseOutcome(k: Kernel, now: seq<MemberTerminal>, base: set<Fd>, start: seq<Member>, looks: seq<Look>,
                               changes: seq<ModeChange>, pins: seq<Member>, made: Option<nat>)
    reads k, now
  {
    && Family(k, now, base) && looks <= k.looks && changes <= k.chmods && ChangesOf(k.chmods, |changes|, pins, made)
    && start != [] && MadeSince(k.looks, |looks|, start[0].leaf, made)
    && Traced(start, pins, AllNow(now), k.looks, |looks|)
  }

  predicate Prepared(pins: seq<Member>, now: seq<Member>, expected: Option<Ino>) {
    && |now| > 0 && now[0].state.Present? && (expected.Some? ==> now[0].identity == expected)
    && AllRepairedTo(pins, now)
  }

  /** The part after the second check: a missing main is made, then everything is repaired. */
  method MakeAndRepair(k: Kernel, ts: seq<MemberTerminal>, ghost base: set<Fd>, ghost expected: Option<Ino>)
    returns (r: Outcome<seq<PermissionResult>>, now: seq<MemberTerminal>, created: Option<Ino>, ghost made: Option<nat>, ghost pins: seq<Member>)
    requires Family(k, ts, base) && |ts| > 0 && AllInspected(AllNow(ts)) && !ts[0].optional
    requires expected.Some? ==> ts[0].state.Present? && ts[0].identity == expected
    modifies k, ts
    ensures SameOrNewMain(ts, now) && (now != ts ==> fresh(now[0])) && Later(old(k.fs), k.fs)
    ensures PhaseOutcome(k, now, base, old(AllNow(ts)), old(k.looks), old(k.chmods), pins, made)
    ensures r.Ok? ==> r.value == ResultsOf(AllNow(now)) && Prepared(pins, AllNow(now), expected)
                      && (created.Some? ==> now[0].identity == created && made == Some(now[0].serial))
    ensures IsNew(made, old(k.fs))
    ensures k.quiet && old(Ready(AllNow(ts), DirectoryOf(k.fs))) && NoInvalid(old(AllNow(ts))) ==>
              BroughtAbout(r.Ok?, DirectoryOf(old(k.fs)), DirectoryOf(k.fs), LeavesOf(old(AllNow(ts))))
              && (r.Ok? ==> MainShown(AllNow(now), DirectoryOf(k.fs)))
  {
    hide OwnedBy;
    hide AllHold;
    hide Later;
    hide AllNow;
    hide AllInspected;
    hide RepairedTo;
    hide PhaseOutcome;
    hide Ready;
    hide BroughtAbout;
    hide MainShown;
    hide NoInvalid;
    if ts[0].state.Absent? {
      r, now, created, made, pins := MakeAndRepairNew(k, ts, base, AllNow(ts));
    } else {
      now, created, made := ts, None, None;
      r, pins := RepairInPlace(k, ts, base, expected);
    }
  }

  /** A main that is there: check and repair. */
  method RepairInPlace(k: Kernel, ts: seq<MemberTerminal>, ghost base: set<Fd>, ghost expected: Option<Ino>)
    returns (r: Outcome<seq<PermissionResult>>, ghost pins: seq<Member>)
    requires Family(k, ts, base) && |ts| > 0 && AllInspected(AllNow(ts)) && !ts[0].optional
    requires expected.Some? ==> ts[0].state.Present? && ts[0].identity == expected
    modifies k, ts
    ensures Later(old(k.fs), k.fs) && PhaseOutcome(k, ts, base, old(AllNow(ts)), old(k.looks), old(k.chmods), pins, None)
    ensures r.Ok? ==> r.value == ResultsOf(AllNow(ts)) && Prepared(pins, AllNow(ts), expected)
    ensures k.quiet && old(Ready(AllNow(ts), DirectoryOf(k.fs))) && NoInvalid(old(AllNow(ts))) && !old(ts[0].state).Absent? ==>
              BroughtAbout(r.Ok?, DirectoryOf(old(k.fs)), DirectoryOf(k.fs), LeavesOf(old(AllNow(ts))))
              && (r.Ok? ==> MainShown(AllNow(ts), DirectoryOf(k.fs)))
  {
    hide Faithful;
    hide RepairOutcome;
    hide BroughtAbout;
    hide MainShown;
    hide NoInvalid;
    hide OwnedBy;
    hide AllHold;
    hide Later;
    hide AllNow;
    hide AllNarrow;
    hide AllKept;
    hide ChangesOf;
    hide RepairedTo;
    hide Traced;
    ghost var start, since, changes, d0 := AllNow(ts), |k.looks|, k.chmods, DirectoryOf(k.fs);
    r, pins := CheckAndRepairMain(k, ts, base);
    if k.quiet && Ready(start, d0) && NoInvalid(start) && !start[0].state.Absent? { OutcomeInPlace(start, d0, DirectoryOf(k.fs), r.Ok?); }
    NothingMade(changes, None);
    ChangesJoined(changes, k.chmods, |changes|, pins, None);
    KeptIsTraced(start, pins, AllNow(ts), k.looks, since);
  }

  /** Make the missing main, then check and repair the family with it. */
  method MakeAndRepairNew(k: Kernel, ts: seq<MemberTerminal>, ghost base: set<Fd>, ghost start: seq<Member>)
    returns (r: Outcome<seq<PermissionResult>>, now: seq<MemberTerminal>, created: Option<Ino>, ghost made: Option<nat>, ghost pins: seq<Member>)
    requires Family(k, ts, base) && |ts| > 0 && AllInspected(AllNow(ts)) && ts[0].state.Absent? && !ts[0].optional && start == AllNow(ts)
    modifies k, ts
    ensures SameOrNewMain(ts, now) && (now != ts ==> fresh(now[0])) && Later(old(k.fs), k.fs)
    ensures PhaseOutcome(k, now, base, start, old(k.looks), old(k.chmods), pins, made)
    ensures r.Ok? ==> r.value == ResultsOf(AllNow(now)) && Prepared(pins, AllNow(now), None)
                      && (created.Some? ==> now[0].identity == created && made == Some(now[0].serial))
    ensures IsNew(made, old(k.fs))
    ensures k.quiet && Ready(start, DirectoryOf(old(k.fs))) && NoInvalid(start) ==>
              BroughtAbout(r.Ok?, DirectoryOf(old(k.fs)), DirectoryOf(k.fs), LeavesOf(start))
              && (r.Ok? ==> MainShown(AllNow(now), DirectoryOf(k.fs)))
  {
    hide Ready;
    hide Faithful;
    hide Made;
    hide RepairOutcome;
    hide BroughtAbout;
    hide MainShown;
    hide NoInvalid;
    hide OwnedBy;
    hide AllHold;
    hide Later;
    hide AllNow;
    hide AllNarrow;
    hide AllKept;
    hide AllInspected;
    hide ChangesOf;
    hide OnlyCreated;
    hide RepairedTo;
    hide Traced;
    hide KeptOrGone;
    hide MemberSeen;
    hide MadeSince;
    ghost var f0, looks0, changes0 := k.fs, k.looks, k.chmods;
    now := ts;
    var main;
    main, created, made := NewMain(k, ts, base);
    if main.Raise? {
      OnlyMade(k.chmods, |changes0|, made);
      KeptReflexive(start, k.looks, |looks0|);
      KeptIsTraced(start, [], AllNow(ts), k.looks, |looks0|);
      return Raise(main.error), ts, created, made, [];
    }
    now := [main.value] + ts[1..];
    ghost var f1 := k.fs;
    MainReplacedNow(ts, start, now, AllNow(now));
    ghost var m := main.value.Now();
    assert AllNow(now) == start[0 := m];
    r, pins := RepairNew(k, now, base, start, made, looks0, changes0);
    LaterTransitive(f0, f1, k.fs);
    if k.quiet && Ready(start, DirectoryOf(f0)) && NoInvalid(start) {
      OutcomeOfNew(start, m, DirectoryOf(f0), DirectoryOf(f1), DirectoryOf(k.fs), r.Ok?);
    }
  }

  /** Check and repair the family with its new main. */
  method RepairNew(k: Kernel, now: seq<MemberTerminal>, ghost base: set<Fd>, ghost start: seq<Member>, ghost made: Option<nat>,
                   ghost looks0: seq<Look>, ghost changes0: seq<ModeChange>)
    returns (r: Outcome<seq<PermissionResult>>, ghost pins: seq<Member>)
    requires Family(k, now, base) && AllInspected(AllNow(now)) && looks0 <= k.looks && changes0 <= k.chmods
    requires |start| == |now| > 0 && start[0].state.Absent? && !start[0].optional && start[0].leaf == now[0].leaf && !now[0].optional
    requires OnlyCreated(k.chmods, |changes0|, made) && MadeSince(k.looks, |looks0|, start[0].leaf, made)
    requires MemberSeen(now[0].Now(), k.looks, |looks0|) && forall i :: 0 < i < |start| ==> AllNow(now)[i] == start[i]
    modifies k, now
    ensures Later(old(k.fs), k.fs) && PhaseOutcome(k, now, base, start, looks0, changes0, pins, made)
    ensures r.Ok? ==> r.value == ResultsOf(AllNow(now)) && Prepared(pins, AllNow(now), None)
                      && now[0].identity == old(now[0].identity) && now[0].serial == old(now[0].serial) && old(now[0].state).Present?
    ensures k.quiet && old(Faithful(AllNow(now), DirectoryOf(k.fs))) && !old(now[0].state).Absent? ==>
              RepairOutcome(r.Ok?, DirectoryOf(old(k.fs)), DirectoryOf(k.fs), LeavesOf(old(AllNow(now))))
              && (r.Ok? ==> MainShown(AllNow(now), DirectoryOf(k.fs)))
  {
    hide Faithful;
    hide RepairOutcome;
    hide MainShown;
    hide OwnedBy;
    hide AllHold;
    hide Later;
    hide AllNow;
    hide AllNarrow;
    hide AllKept;
    hide AllInspected;
    hide ChangesOf;
    hide OnlyCreated;
    hide RepairedTo;
    hide Traced;
    hide KeptOrGone;
    hide MemberSeen;
    hide MadeSince;
    ghost var looks1, changes1, ms := k.looks, k.chmods, AllNow(now);
    r, pins := CheckAndRepairMain(k, now, base);
    MainKept(ms, AllNow(now), k.looks, |looks1|);
    ChangesJoined(changes1, k.chmods, |changes0|, pins, made);
    MadeGrew(looks1, k.looks, |looks0|, |looks0|, start[0].leaf, made);
    MadeIsTraced(start, ms, pins, AllNow(now), looks1, k.looks, |looks0|);
  }

  lemma {:induction false} MainReplacedNow(ts: seq<MemberTerminal>, start: seq<Member>, now: seq<MemberTerminal>, ms: seq<Member>)
    requires start == AllNow(ts) && ms == AllNow(now) && |now| == |ts| > 0 && now[1..] == ts[1..] && now[0].leaf == ts[0].leaf
    ensures |ms| == |start| && ms[0].leaf == start[0].leaf && ms[0].optional == now[0].optional
            && forall i :: 0 < i < |start| ==> ms[i] == start[i]
  {
    forall i | 0 < i < |start| ensures ms[i] == start[i] { assert now[i] == now[1..][i - 1] == ts[i]; }
  }

  lemma {:induction false} MadeIsTraced(start: seq<Member>, ms: seq<Member>, pins: seq<Member>, final: seq<Member>, early: seq<Look>,
                                        looks: seq<Look>, since: nat)
    requires since <= |early| && early <= looks && |start| == |ms| > 0 && start[0].state.Absent?
    requires ms[0].leaf == start[0].leaf && !ms[0].optional && !start[0].optional && MemberSeen(ms[0], early, since)
    requires forall i :: 0 < i < |start| ==> ms[i] == start[i]
    requires AllKept(ms, pins, looks, |early|) && AllKept(ms, final, looks, |early|)
    ensures Traced(start, pins, final, looks, since)
  {
    hide KeptOrGone;
    hide MemberSeen;
    var later := |early|;
    MainKept(ms, pins, looks, later);
    MainKept(ms, final, looks, later);
    KeptIsSeen(ms[0], pins[0], early, looks, later, since);
    KeptIsSeen(ms[0], final[0], early, looks, later, since);
    forall i | 0 < i < |start| ensures KeptOrGone(start[i], pins[i], looks, since) && KeptOrGone(start[i], final[i], looks, since) {
      KeptSince(ms[i], pins[i], looks, later, since);
      KeptSince(ms[i], final[i], looks, later, since);
    }
  }

  lemma {:induction false} LaterOf(k: Kernel)
    requires k.Valid()
    ensures Later(k.fs, k.fs)
  {
    LaterReflexive(k.fs);
  }

  lemma {:induction false} NothingMade(changes: seq<ModeChange>, made: Option<nat>)
    ensures OnlyCreated(changes, |changes|, made)
  {
  }

  lemma {:induction false} OnlyMade(changes: seq<ModeChange>, since: nat, made: Option<nat>)
    requires OnlyCreated(changes, since, made)
    ensures ChangesOf(changes, since, [], made)
  {
    forall c | since <= c < |changes| ensures OfCreated(changes[c], made) {}
  }

  /** Make the main of a family whose main is absent. */
  method NewMain(k: Kernel, ts: seq<MemberTerminal>, ghost base: set<Fd>)
    returns (r: Outcome<MemberTerminal>, created: Option<Ino>, ghost made: Option<nat>)
    requires Family(k, ts, base) && |ts| > 0 && AllInspected(AllNow(ts)) && ts[0].state.Absent?
    modifies k
    ensures k.Valid() && Later(old(k.fs), k.fs) && old(k.looks) <= k.looks && old(k.chmods) <= k.chmods
    ensures OnlyCreated(k.chmods, |old(k.chmods)|, made) && MadeSince(k.looks, |old(k.looks)|, ts[0].leaf, made) && IsNew(made, old(k.fs))
    ensures r.Raise? ==> Family(k, ts, base)
    ensures r.Ok? ==> fresh(r.value) && Family(k, [r.value] + ts[1..], base) && AllInspected(AllNow([r.value] + ts[1..]))
                      && !r.value.optional && r.value.leaf == ts[0].leaf && MemberSeen(r.value.Now(), k.looks, |old(k.looks)|)
                      && !r.value.state.Absent?
                      && (created.Some? ==> made.Some? && r.value.identity == created && (r.value.state.Present? ==> r.value.serial == made.value))
    ensures k.quiet && Ready(old(AllNow(ts)), DirectoryOf(old(k.fs))) ==>
              r.Ok? && Made(DirectoryOf(old(k.fs)), DirectoryOf(k.fs), ts[0].leaf)
              && Faithful(old(AllNow(ts))[0 := r.value.Now()], DirectoryOf(k.fs))
  {
    hide OwnedBy;
    hide AllHold;
    hide Later;
    hide OnlyCreated;
    hide MadeSince;
    hide MemberSeen;
    ghost var f, ms := k.fs, AllNow(ts);
    MemberIsHeld(k, ts, 0, base);
    if Ready(ms, DirectoryOf(f)) { assert ts[0].leaf !in f.names by { assert Fits(ms[0], DirectoryOf(f)); } }
    hide Fits;
    hide Current;
    hide Made;
    r, created, made := MakeMain(k, ts[0].leaf);
    if k.quiet && Ready(ms, DirectoryOf(f)) { NewMainIsFaithful(ms, r.value.Now(), DirectoryOf(f), DirectoryOf(k.fs)); }
    hide Ready;
    hide Faithful;
    if r.Raise? { FamilyStays(f, k.fs, ms, base); }
    else {
      MainReplaced(k, f, ts, r.value, base);
      StillInspected(ts, r.value);
    }
  }

  lemma {:induction false} StillInspected(ts: seq<MemberTerminal>, main: MemberTerminal)
    requires |ts| > 0 && AllInspected(AllNow(ts)) && Inspected(main.Now())
    ensures AllInspected(AllNow([main] + ts[1..]))
  {
    var now := [main] + ts[1..];
    forall i | 0 <= i < |now| ensures Inspected(AllNow(now)[i]) {
      assert AllNow(now)[i] == now[i].Now();
      if i > 0 { assert now[i] == ts[i] && Inspected(AllNow(ts)[i]); }
    }
  }

  /** The last check of a main this call created; its result then says so. */
  method ConfirmCreated(k: Kernel, ts: seq<MemberTerminal>, created: Ino, results: seq<PermissionResult>, ghost base: set<Fd>)
    returns (r: Outcome<seq<PermissionResult>>)
    requires Family(k, ts, base) && |ts| > 0 && ts[0].state.Present? && |results| > 0
    modifies k
    ensures Family(k, ts, base) && Later(old(k.fs), k.fs) && old(k.looks) <= k.looks && k.chmods == old(k.chmods)
    ensures k.quiet ==> DirectoryOf(k.fs) == DirectoryOf(old(k.fs))
    ensures r.Ok? ==> r.value == results[0 := PermissionResult(CreatedEntry, ts[0].mode)] && LastSaw(k.looks, ts[0].leaf, created)
    ensures k.quiet && MainShown(AllNow(ts), DirectoryOf(k.fs)) && ts[0].identity == Some(created) ==> r.Ok?
  {
    hide Later;
    hide OwnedBy;
    hide AllHold;
    hide AllNow;
    ghost var f, ms := k.fs, AllNow(ts);
    r := ConfirmEntry(k, ts[0].leaf, created, ts[0].mode, results);
    FamilyStays(f, k.fs, ms, base);
  }

  method ConfirmEntry(k: Kernel, leaf: Name, created: Ino, mode: Option<Mode>, results: seq<PermissionResult>)
    returns (r: Outcome<seq<PermissionResult>>)
    requires k.Valid() && |results| > 0
    modifies k
    ensures k.Valid() && Later(old(k.fs), k.fs) && k.fs.fds == old(k.fs).fds && old(k.looks) <= k.looks && k.chmods == old(k.chmods)
    ensures k.quiet ==> DirectoryOf(k.fs) == DirectoryOf(old(k.fs))
    ensures r.Ok? ==> r.value == results[0 := PermissionResult(CreatedEntry, mode)] && LastSaw(k.looks, leaf, created)
    ensures k.quiet && mode.Some? && Shows(DirectoryOf(k.fs), leaf, created, mode.value) ==> r.Ok?
  {
    var synced := SyncAndSeam(k);
    ghost var f1 := k.fs;
    if synced.Raise? { return Raise(synced.error); }
    var linked := k.Lstat(leaf);
    LaterTransitive(old(k.fs), f1, k.fs);
    var failure := LinkError(created, linked);
    if failure.Some? { return Raise(failure.value); }
    if Some(linked.value.value.mode) != mode { return Raise(EntryChanged); }
    return Ok(results[0 := PermissionResult(CreatedEntry, mode)]);
  }

  /** What a finished preparation answers: the repaired family, its main marked if it is the one created. */
  ghost predicate Answer(results: seq<PermissionResult>, now: seq<Member>, created: Option<Ino>, made: Option<nat>) {
    && |now| > 0 && (created.Some? ==> made == Some(now[0].serial))
    && if created.None? then results == ResultsOf(now)
       else |ResultsOf(now)| > 0 && results == ResultsOf(now)[0 := PermissionResult(CreatedEntry, now[0].mode)] && now[0].identity == created
  }

  /** The body under the lock. */
  method PrepareLocked(k: Kernel, ts: seq<MemberTerminal>, ghost base: set<Fd>, expected: Option<Ino>, ghost start: seq<Member>)
    returns (r: Outcome<seq<PermissionResult>>, now: seq<MemberTerminal>, created: Option<Ino>, ghost made: Option<nat>, ghost pins: seq<Member>)
    requires Family(k, ts, base) && |ts| > 0 && AllInspected(AllNow(ts)) && !ts[0].optional && start == AllNow(ts)
    modifies k, ts
    ensures SameOrNewMain(ts, now) && (now != ts ==> fresh(now[0])) && Later(old(k.fs), k.fs)
    ensures PhaseOutcome(k, now, base, start, old(k.looks), old(k.chmods), pins, made)
    ensures r.Ok? ==> Prepared(pins, AllNow(now), expected) && Answer(r.value, AllNow(now), created, made)
    ensures IsNew(made, old(k.fs))
    ensures k.quiet && Ready(start, DirectoryOf(old(k.fs))) ==>
              Answered(r.Ok?, DirectoryOf(old(k.fs)), DirectoryOf(k.fs), LeavesOf(start), expected, created)
  {
    hide Faithful;
    hide MainApart;
    hide Whole;
    hide Answered;
    hide BroughtAbout;
    hide NoInvalid;
    hide AsExpected;
    hide OwnedBy;
    hide AllHold;
    hide Later;
    hide ChangesOf;
    hide RepairedTo;
    hide AllNow;
    hide AllKept;
    hide KeptOrGone;
    hide Traced;
    ghost var f0, looks0, d0 := k.fs, k.looks, DirectoryOf(k.fs);
    now, created, made, pins := ts, None, None, [];
    if Faithful(start, d0) { RefusalIsAnswer(start, d0, expected); }
    var checked := CheckExpected(k, ts, base, expected);
    SameLeaves(start, AllNow(ts), k.looks, |looks0|);
    NothingChanged(k.chmods, [], None);
    KeptIsTraced(start, [], AllNow(ts), k.looks, |looks0|);
    if checked.Raise? { return Raise(checked.error), ts, None, None, []; }
    ghost var f1, looks1, ms := k.fs, k.looks, AllNow(ts);
    MainKept(start, ms, looks1, |looks0|);
    r, now, created, made, pins := MakeAndConfirm(k, ts, base, expected, ms);
    if k.quiet && Ready(start, d0) { CheckedIsAnswered(start, ms, d0, DirectoryOf(k.fs), expected, created, r.Ok?); }
    LaterTransitive(f0, f1, k.fs);
    NewerStill(made, f0, f1);
    MadeGrew(k.looks, k.looks, |looks1|, |looks0|, start[0].leaf, made);
    KeptThenTraced(start, ms, pins, AllNow(now), looks1, k.looks, |looks0|);
  }

  /** The mutations, and the last check of a main that they created. */
  method MakeAndConfirm(k: Kernel, ts: seq<MemberTerminal>, ghost base: set<Fd>, ghost expected: Option<Ino>, ghost start: seq<Member>)
    returns (r: Outcome<seq<PermissionResult>>, now: seq<MemberTerminal>, created: Option<Ino>, ghost made: Option<nat>, ghost pins: seq<Member>)
    requires Family(k, ts, base) && |ts| > 0 && AllInspected(AllNow(ts)) && !ts[0].optional && start == AllNow(ts)
    requires expected.Some? ==> ts[0].state.Present? && ts[0].identity == expected
    modifies k, ts
    ensures SameOrNewMain(ts, now) && (now != ts ==> fresh(now[0])) && Later(old(k.fs), k.fs)
    ensures PhaseOutcome(k, now, base, start, old(k.looks), old(k.chmods), pins, made)
    ensures r.Ok? ==> Prepared(pins, AllNow(now), expected) && Answer(r.value, AllNow(now), created, made)
    ensures IsNew(made, old(k.fs))
    ensures k.quiet && Ready(start, DirectoryOf(old(k.fs))) && NoInvalid(start) ==>
              BroughtAbout(r.Ok?, DirectoryOf(old(k.fs)), DirectoryOf(k.fs), LeavesOf(start))
  {
    hide Ready;
    hide BroughtAbout;
    hide MainShown;
    hide NoInvalid;
    hide OwnedBy;
    hide AllHold;
    hide Later;
    hide AllNow;
    hide ChangesOf;
    hide RepairedTo;
    hide Traced;
    ghost var f0, looks0 := k.fs, k.looks;
    r, now, created, made, pins := MakeAndRepair(k, ts, base, expected);
    if r.Ok? && created.Some? {
      ghost var f2, looks2 := k.fs, k.looks;
      SomeResult(pins, AllNow(now));
      r := ConfirmCreated(k, now, created.value, r.value, base);
      LaterTransitive(f0, f2, k.fs);
      TraceGrew(start, pins, AllNow(now), looks2, k.looks, |looks0|);
      MadeGrew(looks2, k.looks, |looks0|, |looks0|, start[0].leaf, made);
    }
  }

  /** Check the family, and that the main is the expected one. */
  method CheckExpected(k: Kernel, ts: seq<MemberTerminal>, ghost base: set<Fd>, expected: Option<Ino>) returns (r: Outcome<Unit>)
    requires Family(k, ts, base) && |ts| > 0 && AllInspected(AllNow(ts)) && !ts[0].optional
    modifies k, ts
    ensures Family(k, ts, base) && AllInspected(AllNow(ts)) && !ts[0].optional && Later(old(k.fs), k.fs)
    ensures k.chmods == old(k.chmods) && old(k.looks) <= k.looks
    ensures k.quiet ==> DirectoryOf(k.fs) == DirectoryOf(old(k.fs))
    ensures AllKept(old(AllNow(ts)), AllNow(ts), k.looks, |old(k.looks)|)
    ensures r.Ok? ==> expected.None? || (ts[0].state.Present? && ts[0].identity == expected)
    ensures r.Ok? ==> NoInvalid(AllNow(ts))
    ensures k.quiet && old(Faithful(AllNow(ts), DirectoryOf(k.fs))) ==>
              Faithful(AllNow(ts), DirectoryOf(k.fs))
              && (r.Ok? <==> NoInvalid(old(AllNow(ts))) && AsExpected(DirectoryOf(k.fs), LeavesOf(old(AllNow(ts))), expected))
  {
    hide OwnedBy;
    hide AllHold;
    hide Later;
    hide AllNow;
    hide KeptOrGone;
    ghost var start := AllNow(ts);
    r := Preflight(k, ts, false, base);
    MainKept(start, AllNow(ts), k.looks, |old(k.looks)|);
    if r.Ok? { r := ExpectedMain(ts, expected); }
  }

  lemma {:induction false} NothingChanged(changes: seq<ModeChange>, pins: seq<Member>, made: Option<nat>)
    ensures ChangesOf(changes, |changes|, pins, made)
  {
  }

  lemma {:induction false} SomeResult(pins: seq<Member>, ms: seq<Member>)
    requires |ms| > 0 && AllRepairedTo(pins, ms)
    ensures |ResultsOf(ms)| > 0
  {
    assert RepairedTo(pins[0], ms[0]);
    FirstReported(ms);
  }

  lemma {:induction false} FirstReported(ms: seq<Member>)
    requires |ms| > 0 && ms[0].result.Some?
    ensures |ResultsOf(ms)| > 0
    decreases |ms|
  {
    if |ms| > 1 { FirstReported(ms[..|ms| - 1]); }
  }

  // ----- The whole preparation -----

  /** After the terminals are settled: check them, and the main against the expected one, and prepare. */
  method PrepareSettled(k: Kernel, ts: seq<MemberTerminal>, ghost base: set<Fd>, lockHeld: bool, expected: Option<Ino>, ghost start: seq<Member>)
    returns (r: Outcome<seq<PermissionResult>>, now: seq<MemberTerminal>, created: Option<Ino>, ghost made: Option<nat>, ghost pins: seq<Member>)
    requires Family(k, ts, base) && |ts| > 0 && AllInspected(AllNow(ts)) && !ts[0].optional && start == AllNow(ts)
    modifies k, ts
    ensures SameOrNewMain(ts, now) && (now != ts ==> fresh(now[0])) && Later(old(k.fs), k.fs)
    ensures PhaseOutcome(k, now, base, start, old(k.looks), old(k.chmods), pins, made)
    ensures r.Ok? ==> Prepared(pins, AllNow(now), expected) && Answer(r.value, AllNow(now), created, made)
    ensures IsNew(made, old(k.fs))
    ensures k.quiet && Ready(start, DirectoryOf(old(k.fs))) ==>
              Answered(r.Ok?, DirectoryOf(old(k.fs)), DirectoryOf(k.fs), LeavesOf(start), expected, created)
  {
    hide Faithful;
    hide MainApart;
    hide Whole;
    hide Answered;
    hide BroughtAbout;
    hide NoInvalid;
    hide AsExpected;
    hide OwnedBy;
    hide AllHold;
    hide Later;
    hide ChangesOf;
    hide RepairedTo;
    hide AllNow;
    hide AllKept;
    hide KeptOrGone;
    hide Traced;
    ghost var f0, looks0, d0 := k.fs, k.looks, DirectoryOf(k.fs);
    now, created, made, pins := ts, None, None, [];
    if Faithful(start, d0) { RefusalIsAnswer(start, d0, expected); }
    var checked := CheckExpected(k, ts, base, expected);
    SameLeaves(start, AllNow(ts), k.looks, |looks0|);
    NothingChanged(k.chmods, [], None);
    KeptIsTraced(start, [], AllNow(ts), k.looks, |looks0|);
    if checked.Raise? { return Raise(checked.error), ts, None, None, []; }
    ghost var f1, looks1, ms := k.fs, k.looks, AllNow(ts);
    MainKept(start, ms, looks1, |looks0|);
    r, now, created, made, pins := PrepareChecked(k, ts, base, lockHeld, expected, ms);
    LaterTransitive(f0, f1, k.fs);
    NewerStill(made, f0, f1);
    MadeGrew(k.looks, k.looks, |looks1|, |looks0|, start[0].leaf, made);
    KeptThenTraced(start, ms, pins, AllNow(now), looks1, k.looks, |looks0|);
  }

  /** After the check: is a mutation needed, and then under the lock unless the caller holds it. */
  method PrepareChecked(k: Kernel, ts: seq<MemberTerminal>, ghost base: set<Fd>, lockHeld: bool, expected: Option<Ino>, ghost start: seq<Member>)
    returns (r: Outcome<seq<PermissionResult>>, now: seq<MemberTerminal>, created: Option<Ino>, ghost made: Option<nat>, ghost pins: seq<Member>)
    requires Family(k, ts, base) && |ts| > 0 && AllInspected(AllNow(ts)) && !ts[0].optional && start == AllNow(ts)
    requires expected.Some? ==> ts[0].state.Present? && ts[0].identity == expected
    modifies k, ts
    ensures SameOrNewMain(ts, now) && (now != ts ==> fresh(now[0])) && Later(old(k.fs), k.fs)
    ensures PhaseOutcome(k, now, base, start, old(k.looks), old(k.chmods), pins, made)
    ensures r.Ok? ==> Prepared(pins, AllNow(now), expected) && Answer(r.value, AllNow(now), created, made)
    ensures IsNew(made, old(k.fs))
    ensures k.quiet && Ready(start, DirectoryOf(old(k.fs))) && NoInvalid(start) && AsExpected(DirectoryOf(old(k.fs)), LeavesOf(start), expected) ==>
              Answered(r.Ok?, DirectoryOf(old(k.fs)), DirectoryOf(k.fs), LeavesOf(start), expected, created)
  {
    hide Faithful;
    hide MainApart;
    hide Whole;
    hide Answered;
    hide BroughtAbout;
    hide NoInvalid;
    hide AsExpected;
    hide OwnedBy;
    hide AllHold;
    hide Later;
    hide PhaseOutcome;
    hide Prepared;
    hide AllNow;
    ghost var d0 := DirectoryOf(k.fs);
    now, created, made := ts, None, None;
    var any := AnyRequiresNarrowing(ts);
    if ts[0].state.Absent? || any {
      r, now, created, made, pins := PrepareUnderLock(k, ts, base, lockHeld, expected, start);
    } else {
      r, pins := RepairInPlace(k, ts, base, expected);
      if k.quiet && Ready(start, d0) && NoInvalid(start) && AsExpected(d0, LeavesOf(start), expected) {
        CheckedIsAnswered(start, start, d0, DirectoryOf(k.fs), expected, None, r.Ok?);
      }
      PreparedHasMain(pins, AllNow(ts), expected);
    }
  }

  lemma {:induction false} PreparedHasMain(pins: seq<Member>, now: seq<Member>, expected: Option<Ino>)
    ensures Prepared(pins, now, expected) ==> |now| > 0
  {
  }

  method PrepareUnderLock(k: Kernel, ts: seq<MemberTerminal>, ghost base: set<Fd>, lockHeld: bool, expected: Option<Ino>, ghost start: seq<Member>)
    returns (r: Outcome<seq<PermissionResult>>, now: seq<MemberTerminal>, created: Option<Ino>, ghost made: Option<nat>, ghost pins: seq<Member>)
    requires Family(k, ts, base) && |ts| > 0 && AllInspected(AllNow(ts)) && !ts[0].optional && start == AllNow(ts)
    modifies k, ts
    ensures SameOrNewMain(ts, now) && (now != ts ==> fresh(now[0])) && Later(old(k.fs), k.fs)
    ensures PhaseOutcome(k, now, base, start, old(k.looks), old(k.chmods), pins, made)
    ensures r.Ok? ==> Prepared(pins, AllNow(now), expected) && Answer(r.value, AllNow(now), created, made)
    ensures IsNew(made, old(k.fs))
    ensures k.quiet && Ready(start, DirectoryOf(old(k.fs))) ==>
              Answered(r.Ok?, DirectoryOf(old(k.fs)), DirectoryOf(k.fs), LeavesOf(start), expected, created)
  {
    hide Faithful;
    hide MainApart;
    hide Whole;
    hide Answered;
    hide BroughtAbout;
    hide NoInvalid;
    hide AsExpected;
    hide OwnedBy;
    hide AllHold;
    hide Later;
    hide ChangesOf;
    hide RepairedTo;
    hide AllNow;
    hide AllKept;
    hide KeptOrGone;
    hide Traced;
    now, created, made, pins := ts, None, None, [];
    NothingChanged(k.chmods, [], None);
    KeptReflexive(start, k.looks, |k.looks|);
    KeptIsTraced(start, [], start, k.looks, |k.looks|);
    var locked := LockUnless(k, ts, base, lockHeld);
    if locked.Raise? { return Raise(locked.error), ts, None, None, []; }
    ghost var f1 := k.fs;
    r, now, created, made, pins := PrepareLocked(k, ts, base, expected, start);
    LaterTransitive(old(k.fs), f1, k.fs);
    NewerStill(made, old(k.fs), f1);
    ghost var f2 := k.fs;
    var unlocked := LockUnless(k, now, base, lockHeld);
    LaterTransitive(old(k.fs), f2, k.fs);
    if unlocked.Raise? { r := Raise(unlocked.error); }
  }

  /** Take, or give back, the parent's lock unless the caller holds it throughout. */
  method LockUnless(k: Kernel, ts: seq<MemberTerminal>, ghost base: set<Fd>, held: bool) returns (r: Outcome<Unit>)
    requires Family(k, ts, base)
    modifies k`fs, k`script
    ensures Family(k, ts, base) && Later(old(k.fs), k.fs) && (r == Ok(Unit) || r == Raise(OperationFailed))
    ensures k.quiet ==> r.Ok? && DirectoryOf(k.fs) == DirectoryOf(old(k.fs))
  {
    if held {
      LaterOf(k);
      return Ok(Unit);
    }
    r := SyncIn(k, ts, base);
  }

  /** Members at the end of a call against what it captured: accounted for, except that a main captured
      as missing may have come into being. */
  ghost predicate AccountedOrMade(vs: seq<Stage>, ms: seq<Member>, looks: seq<Look>, since: nat) {
    && |vs| == |ms| > 0
    && (forall i :: 0 < i < |vs| ==> Accounted(vs[i], ms[i], looks, since))
    && (Accounted(vs[0], ms[0], looks, since)
        || (!vs[0].present && ms[0].leaf == vs[0].leaf && !ms[0].optional && MemberSeen(ms[0], looks, since)))
  }

  /** What one preparation did to the outside: each descriptor it opened is closed; what it captured is what it
      saw under the family's names; the modes it changed are those of objects its members pinned, narrowed,
      and of the main it created itself, under the main's name. */
  ghost predicate PreparationOutcome(k: Kernel, name: Name, keys: set<Fd>, captured: seq<Stage>, pins: seq<Member>, final: seq<Member>, made: Option<nat>,
                                     looks: seq<Look>, changes: seq<ModeChange>)
    reads k
  {
    && k.Valid() && k.fs.fds.Keys == keys && looks <= k.looks && changes <= k.chmods
    && ChangesOf(k.chmods, |changes|, pins, made) && MadeSince(k.looks, |looks|, name, made)
    && (captured != [] ==> FamilyCaptured(captured, name, keys, k.looks, |looks|))
    && (pins != [] ==> captured != [] && AccountedOrMade(captured, pins, k.looks, |looks|))
    && (final != [] ==> captured != [] && AccountedOrMade(captured, final, k.looks, |looks|))
  }

  /** `prepare_sqlite_family_at`. */
  method PrepareFamily(k: Kernel, name: Name, lockHeld: bool, expected: Option<Ino>)
    returns (r: Outcome<seq<PermissionResult>>, ghost captured: seq<Stage>, ghost pins: seq<Member>, ghost final: seq<Member>,
             ghost made: Option<nat>, ghost created: Option<Ino>)
    requires k.Valid()
    modifies k
    ensures PreparationOutcome(k, name, old(k.fs).fds.Keys, captured, pins, final, made, old(k.looks), old(k.chmods))
    ensures r.Ok? ==> Prepared(pins, final, expected) && Answer(r.value, final, created, made)
    ensures IsNew(made, old(k.fs))
    ensures k.quiet ==> PreparationAnswer(r.Ok?, DirectoryOf(old(k.fs)), DirectoryOf(k.fs), Leaves(name), expected)
  {
    captured, pins, final, made, created := [], [], [], None, None;
    NothingChanged(k.chmods, [], None);
    ghost var keys, looks0 := k.fs.fds.Keys, k.looks;
    var staged := StageFamily(k, name);
    if staged.Raise? { return Raise(staged.error), [], [], [], None, None; }
    ghost var f1 := k.fs;
    r, captured, pins, final, made, created := PrepareStaged(k, name, staged.value, keys, lockHeld, expected, looks0);
    NewerStill(made, old(k.fs), f1);
  }

  method PrepareStaged(k: Kernel, ghost name: Name, ss: seq<MemberStage>, ghost keys: set<Fd>, lockHeld: bool, expected: Option<Ino>, ghost looks0: seq<Look>)
    returns (r: Outcome<seq<PermissionResult>>, ghost captured: seq<Stage>, ghost pins: seq<Member>, ghost final: seq<Member>,
             ghost made: Option<nat>, ghost created: Option<Ino>)
    requires k.Valid() && Staged(k, ss, keys) && looks0 <= k.looks && FamilyCaptured(StagesNow(ss), name, keys, k.looks, |looks0|)
    modifies k, ss
    ensures PreparationOutcome(k, name, keys, captured, pins, final, made, looks0, old(k.chmods))
    ensures r.Ok? ==> Prepared(pins, final, expected) && Answer(r.value, final, created, made)
    ensures IsNew(made, old(k.fs))
    ensures k.quiet && AllStagesFit(old(StagesNow(ss)), DirectoryOf(old(k.fs))) ==>
              PreparationAnswer(r.Ok?, DirectoryOf(old(k.fs)), DirectoryOf(k.fs), Leaves(name), expected)
  {
    hide AllStagesFit;
    hide Faithful;
    hide PreparationAnswer;
    hide Staged;
    hide FsOk;
    hide Later;
    hide Family;
    hide AllInspected;
    hide OwnedBy;
    hide ApartStages;
    hide AllNow;
    hide StagesNow;
    hide AsMembers;
    hide ChangesOf;
    hide AccountedOrMade;
    hide AllSettledFrom;
    hide Prepared;
    hide Answer;
    hide FamilyCaptured;
    captured, pins, final, made, created := StagesNow(ss), [], [], None, None;
    NothingChanged(k.chmods, [], None);
    ghost var looks1 := k.looks;
    CapturedIsSeen(captured, name, keys, looks1, |looks0|);
    var settled := TerminalizeFamily(k, ss, false, keys);
    CapturedGrew(captured, name, keys, looks1, k.looks, |looks0|);
    ghost var f1 := k.fs;
    if settled.Raise? {
      CloseStages(k, ss, keys);
      return Raise(settled.error), captured, [], [], None, None;
    }
    MainIsRequired(captured, settled.value, k.looks, |looks1|);
    r, pins, final, made, created := PrepareAndClose(k, name, settled.value, keys, lockHeld, expected, captured, looks0, looks1);
    NewerStill(made, old(k.fs), f1);
  }

  lemma {:induction false} MainIsRequired(vs: seq<Stage>, ts: seq<MemberTerminal>, looks: seq<Look>, since: nat)
    requires |vs| > 0 && !vs[0].optional && AllSettledFrom(vs, AllNow(ts), false, looks, since)
    ensures |ts| > 0 && !ts[0].optional
  {
    assert SettledFrom(vs[0], AllNow(ts)[0], false, looks, since);
  }

  /** Settle the outcome, take back a main that this call created in vain, and close the terminals. */
  method PrepareAndClose(k: Kernel, ghost name: Name, ts: seq<MemberTerminal>, ghost keys: set<Fd>, lockHeld: bool, expected: Option<Ino>,
                         ghost captured: seq<Stage>, ghost looks0: seq<Look>, ghost looks1: seq<Look>)
    returns (r: Outcome<seq<PermissionResult>>, ghost pins: seq<Member>, ghost final: seq<Member>, ghost made: Option<nat>, ghost created: Option<Ino>)
    requires Family(k, ts, keys) && |ts| > 0 && AllInspected(AllNow(ts)) && !ts[0].optional
    requires FamilyCaptured(captured, name, keys, k.looks, |looks0|)
    requires looks0 <= looks1 <= k.looks && AllSettledFrom(captured, AllNow(ts), false, k.looks, |looks1|)
    modifies k, ts
    ensures PreparationOutcome(k, name, keys, captured, pins, final, made, looks0, old(k.chmods))
    ensures r.Ok? ==> Prepared(pins, final, expected) && Answer(r.value, final, created, made)
    ensures IsNew(made, old(k.fs))
    ensures k.quiet && old(Faithful(AllNow(ts), DirectoryOf(k.fs))) ==>
              PreparationAnswer(r.Ok?, DirectoryOf(old(k.fs)), DirectoryOf(k.fs), Leaves(name), expected)
  {
    hide Faithful;
    hide Ready;
    hide Answered;
    hide PreparationAnswer;
    hide OwnedBy;
    hide AllHold;
    hide FsOk;
    hide Later;
    hide AllNow;
    hide AllInspected;
    hide AllSettledFrom;
    hide ChangesOf;
    hide AccountedOrMade;
    hide Traced;
    hide Prepared;
    hide Answer;
    hide FamilyCaptured;
    hide MadeSince;
    ghost var start, looks2, d0 := AllNow(ts), k.looks, DirectoryOf(k.fs);
    CapturedIsSeen(captured, name, keys, k.looks, |looks0|);
    MainIsNamed(captured, name, keys, start, k.looks, |looks0|, |looks1|);
    SettledIsReady(k, captured, start, name, keys, |looks0|, |looks1|);
    var now, identity;
    r, now, identity, made, pins := PrepareSettled(k, ts, keys, lockHeld, expected, start);
    final, created := AllNow(now), identity;
    TracedIsAccounted(captured, start, pins, final, looks0, looks1, looks2, k.looks);
    ghost var looks3, d3 := k.looks, DirectoryOf(k.fs);
    assert forall i :: 0 <= i < |now| ==> now[i] in ts || fresh(now[i]) by {
      forall i | 0 <= i < |now| ensures now[i] in ts || fresh(now[i]) { if i > 0 { assert now == ts || now[1..][i - 1] == ts[1..][i - 1]; } }
    }
    TakeBackAndClose(k, now, ts[0].leaf, if r.Raise? then identity else None, keys);
    AccountGrew(captured, pins, looks3, k.looks, |looks0|);
    AccountGrew(captured, final, looks3, k.looks, |looks0|);
    CapturedGrew(captured, name, keys, looks2, k.looks, |looks0|);
    MadeGrew(looks3, k.looks, |looks2|, |looks0|, name, made);
    TakenBack(d0, d3, DirectoryOf(k.fs), Leaves(name), expected, identity, r.Ok?);
  }

  lemma {:induction false} SettledIsReady(k: Kernel, vs: seq<Stage>, ms: seq<Member>, name: Name, keys: set<Fd>, since: nat, later: nat)
    requires k.Valid() && FamilyCaptured(vs, name, keys, k.looks, since) && AllSettledFrom(vs, ms, false, k.looks, later)
    ensures LeavesOf(ms) == Leaves(name) && (Faithful(ms, DirectoryOf(k.fs)) ==> Ready(ms, DirectoryOf(k.fs)))
  {
    hide FamilyCaptured;
    hide AllSettledFrom;
    hide Faithful;
    SettledLeaves(vs, ms, name, keys, false, k.looks, since, later);
    LeavesApart(name);
  }

  method TakeBackAndClose(k: Kernel, ts: seq<MemberTerminal>, leaf: Name, created: Option<Ino>, ghost base: set<Fd>)
    requires Family(k, ts, base)
    modifies k`fs, k`script, k`looks, ts
    ensures k.Valid() && k.fs.fds.Keys == base && old(k.looks) <= k.looks
    ensures created.None? ==> DirectoryOf(k.fs) == DirectoryOf(old(k.fs))
  {
    hide OwnedBy;
    hide AllHold;
    hide AllNow;
    hide Later;
    if created.Some? { TakeBack(k, ts, leaf, created.value, base); }
    FamilyIsOwned(k, ts, base);
    CloseTerminals(k, ts, base);
  }

  lemma {:induction false} TakenBack(before: Directory, answered: Directory, after: Directory, leaves: seq<Name>, expected: Option<Ino>,
                                     created: Option<Ino>, done: bool)
    requires (done || created.None?) ==> after == answered
    ensures Answered(done, before, answered, leaves, expected, created) ==> PreparationAnswer(done, before, after, leaves, expected)
  {
  }

  lemma {:induction false} MainIsNamed(vs: seq<Stage>, name: Name, keys: set<Fd>, start: seq<Member>, looks: seq<Look>, since: nat, later: nat)
    requires FamilyCaptured(vs, name, keys, looks, since) && AllSettledFrom(vs, start, false, looks, later)
    ensures |start| == 4 && start[0].leaf == name
  {
    assert SettledFrom(vs[0], start[0], false, looks, later);
  }

  lemma {:induction false} AccountGrew(vs: seq<Stage>, ms: seq<Member>, looks: seq<Look>, more: seq<Look>, since: nat)
    requires looks <= more
    ensures AccountedOrMade(vs, ms, looks, since) ==> AccountedOrMade(vs, ms, more, since)
  {
    LooksGrew(looks, more);
  }

  lemma {:induction false} TracedIsAccounted(vs: seq<Stage>, start: seq<Member>, pins: seq<Member>, final: seq<Member>, looks0: seq<Look>,
                                             looks1: seq<Look>, looks2: seq<Look>, looks3: seq<Look>)
    requires looks0 <= looks1 <= looks2 <= looks3 && AllSettledFrom(vs, start, false, looks2, |looks1|) && AllStagesSeen(vs, looks2, |looks0|)
    requires Traced(start, pins, final, looks3, |looks2|) && !start[0].optional
    ensures pins != [] ==> AccountedOrMade(vs, pins, looks3, |looks0|)
    ensures AccountedOrMade(vs, final, looks3, |looks0|)
  {
    if pins != [] { KeptOrMadeIsAccounted(vs, start, pins, looks0, looks1, looks2, looks3); }
    KeptOrMadeIsAccounted(vs, start, final, looks0, looks1, looks2, looks3);
  }

  lemma {:induction false} KeptOrMadeIsAccounted(vs: seq<Stage>, start: seq<Member>, ms: seq<Member>, looks0: seq<Look>, looks1: seq<Look>,
                                                 looks2: seq<Look>, looks3: seq<Look>)
    requires looks0 <= looks1 <= looks2 <= looks3 && AllSettledFrom(vs, start, false, looks2, |looks1|) && AllStagesSeen(vs, looks2, |looks0|)
    requires KeptOrMade(start, ms, looks3, |looks2|) && !start[0].optional
    ensures AccountedOrMade(vs, ms, looks3, |looks0|)
  {
    forall i | 0 <= i < |vs| && KeptOrGone(start[i], ms[i], looks3, |looks2|) ensures Accounted(vs[i], ms[i], looks3, |looks0|) {
      assert SettledFrom(vs[i], start[i], false, looks2, |looks1|) && StageSeen(vs[i], looks2, |looks0|);
      SettledLater(vs[i], start[i], false, looks2, |looks1|, |looks0|);
      KeptIsAccounted(vs[i], start[i], ms[i], false, looks2, looks3, |looks2|, |looks0|);
    }
    assert SettledFrom(vs[0], start[0], false, looks2, |looks1|);
    SeenSinceEarlier(looks3, |looks2|, |looks0|);
  }

  /** `_cleanup_created_sqlite_main_at`. */
  method TakeBack(k: Kernel, ts: seq<MemberTerminal>, leaf: Name, created: Ino, ghost base: set<Fd>)
    requires Family(k, ts, base)
    modifies k`fs, k`script, k`looks
    ensures Family(k, ts, base) && Later(old(k.fs), k.fs) && old(k.looks) <= k.looks
  {
    hide OwnedBy;
    hide AllHold;
    hide AllNow;
    ghost var f, ms := k.fs, AllNow(ts);
    RemoveVerified(k, leaf, created);
    FamilyStays(f, k.fs, ms, base);
  }

  /** Remove an entry after two looks that both found this inode; failures are ignored. */
  method RemoveVerified(k: Kernel, leaf: Name, created: Ino)
    requires k.Valid()
    modifies k`fs, k`script, k`looks
    ensures k.Valid() && Later(old(k.fs), k.fs) && k.fs.fds.Keys == old(k.fs).fds.Keys && old(k.looks) <= k.looks
  {
    var looked := k.Lstat(leaf);
    ghost var f1 := k.fs;
    if looked.Raise? || looked.value.None? || looked.value.value.ino != created { return; }
    var again := k.Lstat(leaf);
    LaterTransitive(old(k.fs), f1, k.fs);
    ghost var f2 := k.fs;
    if LinkError(created, again).Some? { return; }
    var removed := k.Remove(leaf);
    LaterTransitive(old(k.fs), f2, k.fs);
    ghost var f3 := k.fs;
    if removed.Ok? {
      var _ := k.Sync();
      LaterTransitive(old(k.fs), f3, k.fs);
    }
  }
}
