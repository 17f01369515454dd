/** The multi-phase inspection and repair of a SQLite file family (main, WAL, SHM, journal): capture
    each member under a path-only descriptor, settle what it is, check all of them, then narrow modes
    through a second descriptor that is compared with the pinned one. */
module SqliteFamily {
  import opened Options
  import opened FileSystem

  datatype PermissionState = Private | RepairRequired | Repaired | AbsentEntry | CreatedEntry

  datatype PermissionResult = PermissionResult(state: PermissionState, mode: Option<Mode>)

  datatype TerminalState = Present | Absent | Invalid

  /** Nobody else has access, and nobody may execute it. */
  predicate IsPrivate(mode: Mode) {
    mode & !PRIVATE_FILE_MODE == 0
  }

  function ModeState(mode: Mode): PermissionState {
    if !IsPrivate(mode) then RepairRequired else Private
  }

  /** What narrowing leaves of a mode. */
  function PrivatePart(mode: Mode): Mode {
    mode & PRIVATE_FILE_MODE
  }

  function FdSet(fd: Option<Fd>): set<Fd> {
    if fd.Some? then {fd.value} else {}
  }

  // ----- Members -----

  class MemberStage {
    const leaf: Name
    const optional: bool
    var present: bool
    var identity: Option<Ino>
    var mode: Option<Mode>
    var fd: Option<Fd>
    var error: Option<Code>
    /** The object the descriptor pins. */
    ghost var serial: nat

    constructor (leaf: Name, optional: bool)
      ensures this.leaf == leaf && this.optional == optional && !present && identity.None? && fd.None? && error.None?
    {
      this.leaf, this.optional := leaf, optional;
      present, identity, mode, fd, error, serial := false, None, None, None, None, 0;
    }

    ghost function Now(): Stage
      reads this
    {
      Stage(leaf, optional, present, identity, mode, fd, error, serial)
    }

    ghost predicate Holds(f: Fs)
      reads this
    {
      StageHolds(Now(), f)
    }
  }

  /** A stage's fields at one moment. */
  datatype Stage = Stage(leaf: Name, optional: bool, present: bool, identity: Option<Ino>, mode: Option<Mode>, fd: Option<Fd>,
                         error: Option<Code>, serial: nat)

  predicate StageHolds(s: Stage, f: Fs) {
    && (s.fd.Some? ==> s.present && s.error.None? && s.identity.Some? && Pinned(f, s.fd.value, s.identity.value, s.serial))
    && (s.error.None? && !s.present ==> s.identity.None?)
    && (s.error.None? && s.present ==> s.identity.Some?)
  }

  /** A terminal's fields at one moment. */
  datatype Member = Member(leaf: Name, optional: bool, state: TerminalState, result: Option<PermissionResult>, identity: Option<Ino>,
                           mode: Option<Mode>, fd: Option<Fd>, error: Option<Code>, serial: nat)

  predicate MemberHolds(m: Member, f: Fs) {
    && (m.state.Present? ==> m.fd.Some? && m.identity.Some? && m.mode.Some? && m.result.Some?
                             && Pinned(f, m.fd.value, m.identity.value, m.serial)
                             && (m.result.value.state.Private? || m.result.value.state.RepairRequired? ==>
                                   m.result.value == PermissionResult(ModeState(m.mode.value), m.mode)))
    && (m.state.Absent? ==> m.fd.None? && m.result == Some(PermissionResult(AbsentEntry, None)))
    && (m.state.Invalid? ==> m.error.Some?)
    && (m.fd.Some? ==> m.fd.value in f.fds)
  }

  class MemberTerminal {
    const leaf: Name
    const optional: bool
    var state: TerminalState
    var result: Option<PermissionResult>
    var identity: Option<Ino>
    var mode: Option<Mode>
    var fd: Option<Fd>
    var error: Option<Code>
    ghost var serial: nat

    constructor (leaf: Name, optional: bool, state: TerminalState, result: Option<PermissionResult>, identity: Option<Ino>,
                 mode: Option<Mode>, fd: Option<Fd>, error: Option<Code>, ghost serial: nat)
      ensures this.leaf == leaf && this.optional == optional && this.state == state && this.result == result
      ensures this.identity == identity && this.mode == mode && this.fd == fd && this.error == error && this.serial == serial
    {
      this.leaf, this.optional, this.state, this.result := leaf, optional, state, result;
      this.identity, this.mode, this.fd, this.error, this.serial := identity, mode, fd, error, serial;
    }

    ghost function Now(): Member
      reads this
    {
      Member(leaf, optional, state, result, identity, mode, fd, error, serial)
    }

    ghost predicate Holds(f: Fs)
      reads this
    {
      MemberHolds(Now(), f)
    }
  }

  // ----- What was seen -----

  /** The name was looked up and led to this inode, and was then opened, on this object of that number. */
  ghost predicate GrabbedSince(looks: seq<Look>, since: nat, leaf: Name, fd: Fd, ino: Ino, serial: nat) {
    exists i, j :: since <= i < j < |looks| && looks[i] == Look(leaf, Some(ino)) && looks[j] == Grabbed(leaf, fd, ino, serial)
  }

  /** The object under this descriptor showed this mode. */
  ghost predicate ShownSince(looks: seq<Look>, since: nat, fd: Fd, ino: Ino, serial: nat, mode: Mode) {
    exists i :: since <= i < |looks| && looks[i] == Shown(fd, ino, serial, mode)
  }

  /** The name was looked up, and was not there. */
  ghost predicate SeenAbsent(looks: seq<Look>, since: nat, leaf: Name) {
    exists i :: since <= i < |looks| && looks[i] == Look(leaf, None)
  }

  /** The last lookup of anything found this inode under the name. */
  predicate LastSaw(looks: seq<Look>, leaf: Name, ino: Ino) {
    looks != [] && (looks[|looks| - 1] == Look(leaf, Some(ino)) || (!looks[|looks| - 1].Look? && LastSaw(looks[..|looks| - 1], leaf, ino)))
  }

  /** A stage's fields are what was seen: the object its descriptor is open on, or that its name was not there. */
  ghost predicate StageSeen(v: Stage, looks: seq<Look>, since: nat) {
    && (v.fd.Some? ==> v.identity.Some? && v.mode.Some?
                       && GrabbedSince(looks, since, v.leaf, v.fd.value, v.identity.value, v.serial)
                       && ShownSince(looks, since, v.fd.value, v.identity.value, v.serial, v.mode.value))
    && (v.error.None? && !v.present ==> SeenAbsent(looks, since, v.leaf))
  }

  /** The mode recorded of a member is one that its own descriptor showed. */
  ghost predicate ModeSeen(m: Member, looks: seq<Look>, since: nat) {
    m.fd.Some? && m.identity.Some? && m.mode.Some? && ShownSince(looks, since, m.fd.value, m.identity.value, m.serial, m.mode.value)
  }

  ghost predicate FileGrabbed(m: Member, looks: seq<Look>, since: nat) {
    m.fd.Some? && m.identity.Some? && GrabbedSince(looks, since, m.leaf, m.fd.value, m.identity.value, m.serial)
  }

  /** A member's fields are what was seen: the object its name was opened on and the mode that showed, or that
      its name was not there. */
  ghost predicate MemberSeen(m: Member, looks: seq<Look>, since: nat) {
    && (m.state.Present? ==> FileGrabbed(m, looks, since) && ModeSeen(m, looks, since))
    && (m.state.Absent? ==> SeenAbsent(looks, since, m.leaf))
  }

  /** What was seen stays seen. */
  lemma {:induction false} LooksGrew(looks: seq<Look>, more: seq<Look>)
    requires looks <= more
    ensures forall since: nat, leaf :: SeenAbsent(looks, since, leaf) ==> SeenAbsent(more, since, leaf)
    ensures forall since: nat, leaf, fd, ino, serial ::
              GrabbedSince(looks, since, leaf, fd, ino, serial) ==> GrabbedSince(more, since, leaf, fd, ino, serial)
    ensures forall since: nat, fd, ino, serial, mode ::
              ShownSince(looks, since, fd, ino, serial, mode) ==> ShownSince(more, since, fd, ino, serial, mode)
  {
    forall since: nat, leaf | SeenAbsent(looks, since, leaf) ensures SeenAbsent(more, since, leaf) {
      var i :| since <= i < |looks| && looks[i] == Look(leaf, None);
      assert more[i] == Look(leaf, None);
    }
    forall since: nat, leaf, fd, ino, serial | GrabbedSince(looks, since, leaf, fd, ino, serial)
      ensures GrabbedSince(more, since, leaf, fd, ino, serial)
    {
      var i, j :| since <= i < j < |looks| && looks[i] == Look(leaf, Some(ino)) && looks[j] == Grabbed(leaf, fd, ino, serial);
      assert more[i] == looks[i] && more[j] == looks[j];
    }
    forall since: nat, fd, ino, serial, mode | ShownSince(looks, since, fd, ino, serial, mode)
      ensures ShownSince(more, since, fd, ino, serial, mode)
    {
      var i :| since <= i < |looks| && looks[i] == Shown(fd, ino, serial, mode);
      assert more[i] == looks[i];
    }
  }

  lemma {:induction false} SeenSinceEarlier(looks: seq<Look>, since: nat, earlier: nat)
    requires earlier <= since
    ensures forall leaf :: SeenAbsent(looks, since, leaf) ==> SeenAbsent(looks, earlier, leaf)
    ensures forall leaf, fd, ino, serial ::
              GrabbedSince(looks, since, leaf, fd, ino, serial) ==> GrabbedSince(looks, earlier, leaf, fd, ino, serial)
    ensures forall fd, ino, serial, mode ::
              ShownSince(looks, since, fd, ino, serial, mode) ==> ShownSince(looks, earlier, fd, ino, serial, mode)
  {
  }

  // ----- What a directory says of its entries -----

  /** The name is free, or leads to a regular file of ours. */
  predicate Plain(d: Directory, leaf: Name) {
    leaf in d.names ==> ObjectInOrder(d, d.names[leaf])
  }

  predicate ObjectInOrder(d: Directory, i: Ino) {
    i in d.table && d.table[i].regular && d.table[i].owned
  }

  /** The name leads to this number, and that to a regular file of ours. */
  predicate LeadsTo(d: Directory, leaf: Name, i: Ino) {
    leaf in d.names && d.names[leaf] == i && ObjectInOrder(d, i)
  }

  /** A stage has no error exactly if its entry is in order, and then says what the entry is. */
  predicate StageFits(v: Stage, d: Directory) {
    && (v.error.None? <==> Plain(d, v.leaf))
    && (v.error.None? ==> (v.present <==> v.leaf in d.names))
    && (v.error.None? && v.present ==> v.fd.Some? && v.identity == Some(d.names[v.leaf]))
  }

  /** A terminal is invalid exactly if its entry is not in order, and otherwise says what the entry is. */
  predicate Fits(m: Member, d: Directory) {
    && (m.state.Invalid? <==> !Plain(d, m.leaf))
    && (m.state.Present? ==> m.identity.Some? && LeadsTo(d, m.leaf, m.identity.value))
    && (m.state.Absent? ==> m.leaf !in d.names)
  }

  /** The mode recorded is the one the object has. */
  predicate Current(m: Member, d: Directory) {
    m.state.Present? && m.identity.Some? && m.identity.value in d.table ==> m.mode == Some(d.table[m.identity.value].mode)
  }

  // ----- Capture -----

  datatype Grab = Got(fd: Fd, mode: Mode) | Gone | Broken(error: Code)

  /** Open the name and keep the descriptor only if it is on the inode that was looked up. */
  method GrabSelected(k: Kernel, leaf: Name, optional: bool, selected: Ino) returns (r: Grab, ghost serial: nat)
    requires k.Valid()
    modifies k
    ensures k.Valid() && Later(old(k.fs), k.fs) && k.chmods == old(k.chmods) && old(k.looks) <= k.looks
    ensures k.quiet ==> DirectoryOf(k.fs) == DirectoryOf(old(k.fs))
    ensures r.Got? ==> r.fd !in old(k.fs).fds && k.fs.fds.Keys == old(k.fs).fds.Keys + {r.fd} && Pinned(k.fs, r.fd, selected, serial)
                       && k.looks == old(k.looks) + [Grabbed(leaf, r.fd, selected, serial), Shown(r.fd, selected, serial, r.mode)]
    ensures !r.Got? ==> k.fs.fds.Keys == old(k.fs).fds.Keys
    ensures k.quiet && LeadsTo(DirectoryOf(k.fs), leaf, selected) ==> r.Got?
  {
    hide Plain;
    serial := 0;
    var opening := k.Open(leaf);
    ghost var f1 := k.fs;
    if opening.NoEntry? { return Gone, 0; }
    if !opening.Opened? {
      var looked := k.Lstat(leaf);
      LaterTransitive(old(k.fs), f1, k.fs);
      return Broken(OpenError(optional, selected, looked)), 0;
    }
    serial := f1.table[f1.fds[opening.fd]].serial;
    r := GrabOpened(k, opening.fd, selected, serial, old(k.fs).fds.Keys);
    LaterTransitive(old(k.fs), f1, k.fs);
  }

  /** Keep the opened descriptor if it is on the inode that was looked up. */
  method GrabOpened(k: Kernel, fd: Fd, selected: Ino, ghost serial: nat, ghost base: set<Fd>) returns (r: Grab)
    requires k.Valid() && fd in k.fs.fds && Pinned(k.fs, fd, k.fs.fds[fd], serial) && k.fs.fds.Keys == base + {fd} && fd !in base
    modifies k
    ensures k.Valid() && Later(old(k.fs), k.fs) && k.chmods == old(k.chmods) && old(k.looks) <= k.looks && !r.Gone?
    ensures k.quiet ==> DirectoryOf(k.fs) == DirectoryOf(old(k.fs))
    ensures r.Got? ==> r.fd == fd && k.fs.fds.Keys == base + {fd} && old(k.fs).fds[fd] == selected && Pinned(k.fs, fd, selected, serial)
                       && k.looks == old(k.looks) + [Shown(fd, selected, serial, r.mode)]
    ensures !r.Got? ==> k.fs.fds.Keys == base
    ensures k.quiet && old(k.fs).fds[fd] == selected && ObjectInOrder(DirectoryOf(k.fs), selected) ==> r.Got?
  {
    ghost var ino := k.fs.fds[fd];
    var st := k.Fstat(fd);
    assert Pinned(k.fs, fd, ino, serial);
    var failure := CaptureError(selected, st);
    if failure.Some? {
      ghost var f1 := k.fs;
      k.Close(fd);
      LaterTransitive(old(k.fs), f1, k.fs);
      return Broken(failure.value);
    }
    r := Got(fd, st.value.mode);
  }

  /** What a lookup of the name shows. */
  predicate Observed(d: Directory, leaf: Name, st: Stat) {
    && leaf in d.names && d.names[leaf] == st.ino && st.ino in d.table
    && st.regular == d.table[st.ino].regular && st.owned == d.table[st.ino].owned
  }

  /** `_open_sqlite_member_stage_at`: only the seam at its end raises, and then nothing stays open. */
  method OpenStage(k: Kernel, stage: MemberStage, observed: Stat) returns (r: Outcome<Unit>)
    requires k.Valid() && stage.fd.None? && stage.error.None? && stage.Holds(k.fs)
    requires k.looks != [] && k.looks[|k.looks| - 1] == Look(stage.leaf, Some(observed.ino))
    modifies k, stage
    ensures k.Valid() && Later(old(k.fs), k.fs) && k.chmods == old(k.chmods) && old(k.looks) <= k.looks && stage.Holds(k.fs)
    ensures k.quiet ==> DirectoryOf(k.fs) == DirectoryOf(old(k.fs))
    ensures StageSeen(stage.Now(), k.looks, |old(k.looks)| - 1)
    ensures r.Raise? ==> stage.fd.None? && k.fs.fds.Keys == old(k.fs).fds.Keys
    ensures r.Ok? ==> k.fs.fds.Keys == old(k.fs).fds.Keys + FdSet(stage.fd) && FdSet(stage.fd) !! old(k.fs).fds.Keys
    ensures stage.error.Some? || (stage.present && stage.identity == Some(observed.ino))
    ensures r.Ok? && stage.fd.None? ==> stage.error.Some? || stage.optional
    ensures k.quiet && Observed(DirectoryOf(k.fs), stage.leaf, observed) ==> r.Ok? && StageFits(stage.Now(), DirectoryOf(k.fs))
  {
    LaterReflexive(k.fs);
    var valid := Validated(observed);
    if valid.Raise? {
      stage.error := Some(valid.error);
      return Ok(Unit);
    }
    r := OpenValid(k, stage, observed);
  }

  function UnopenedError(optional: bool, grab: Grab): Option<Code> {
    if grab.Broken? then Some(grab.error) else if !optional then Some(EntryChanged) else None
  }

  method OpenValid(k: Kernel, stage: MemberStage, observed: Stat) returns (r: Outcome<Unit>)
    requires k.Valid() && stage.fd.None? && stage.error.None?
    requires k.looks != [] && k.looks[|k.looks| - 1] == Look(stage.leaf, Some(observed.ino))
    modifies k, stage
    ensures k.Valid() && Later(old(k.fs), k.fs) && k.chmods == old(k.chmods) && old(k.looks) <= k.looks && stage.Holds(k.fs)
    ensures k.quiet ==> DirectoryOf(k.fs) == DirectoryOf(old(k.fs))
    ensures StageSeen(stage.Now(), k.looks, |old(k.looks)| - 1)
    ensures r.Raise? ==> stage.fd.None? && k.fs.fds.Keys == old(k.fs).fds.Keys
    ensures r.Ok? ==> k.fs.fds.Keys == old(k.fs).fds.Keys + FdSet(stage.fd) && FdSet(stage.fd) !! old(k.fs).fds.Keys
    ensures stage.error.Some? || (stage.present && stage.identity == Some(observed.ino))
    ensures r.Ok? && stage.fd.None? ==> stage.error.Some? || stage.optional
    ensures k.quiet && LeadsTo(DirectoryOf(k.fs), stage.leaf, observed.ino) ==> r.Ok? && StageFits(stage.Now(), DirectoryOf(k.fs))
  {
    hide StageSeen;
    hide StageFits;
    hide LeadsTo;
    ghost var since, f0 := |k.looks| - 1, k.fs;
    stage.present, stage.identity, stage.mode := true, Some(observed.ino), Some(observed.mode);
    var grab, serial := GrabSelected(k, stage.leaf, stage.optional, observed.ino);
    if !grab.Got? {
      stage.error := UnopenedError(stage.optional, grab);
      NothingHeld(stage.Now(), k.looks, since);
      return Ok(Unit);
    }
    ghost var f1 := k.fs;
    r := HoldGrabbed(k, stage, grab.fd, grab.mode, serial);
    LaterTransitive(f0, f1, k.fs);
    HeldFits(stage.Now(), DirectoryOf(k.fs));
  }

  lemma {:induction false} HeldFits(v: Stage, d: Directory)
    requires v.present && v.identity.Some? && v.error.None?
    ensures v.fd.Some? && LeadsTo(d, v.leaf, v.identity.value) ==> StageFits(v, d)
  {
  }

  /** The stage takes the descriptor over. */
  method HoldGrabbed(k: Kernel, stage: MemberStage, fd: Fd, mode: Mode, ghost serial: nat) returns (r: Outcome<Unit>)
    requires k.Valid() && stage.present && stage.error.None? && stage.identity.Some? && Pinned(k.fs, fd, stage.identity.value, serial)
    requires var n := |k.looks| - 3;
             && n >= 0 && k.looks[n] == Look(stage.leaf, stage.identity) && k.looks[n + 1] == Grabbed(stage.leaf, fd, stage.identity.value, serial)
             && k.looks[n + 2] == Shown(fd, stage.identity.value, serial, mode)
    modifies k`fs, k`script, stage
    ensures k.Valid() && Later(old(k.fs), k.fs) && stage.Holds(k.fs) && StageSeen(stage.Now(), k.looks, |k.looks| - 3)
    ensures stage.present && stage.identity == old(stage.identity) && stage.error.None?
    ensures r.Raise? ==> stage.fd.None? && k.fs.fds.Keys == old(k.fs).fds.Keys - {fd}
    ensures r.Ok? ==> stage.fd == Some(fd) && k.fs.fds.Keys == old(k.fs).fds.Keys
    ensures k.quiet ==> r.Ok? && DirectoryOf(k.fs) == DirectoryOf(old(k.fs))
  {
    hide StageSeen;
    hide Later;
    stage.fd, stage.mode, stage.serial := Some(fd), Some(mode), serial;
    HeldIsSeen(stage.Now(), k.looks, |k.looks| - 3);
    r := CapturedSeam(k, stage);
    if r.Raise? { NothingHeld(stage.Now(), k.looks, |k.looks| - 3); }
  }

  lemma {:induction false} NothingHeld(v: Stage, looks: seq<Look>, since: nat)
    requires v.fd.None? && (v.error.Some? || v.present)
    ensures StageSeen(v, looks, since)
  {
  }

  lemma {:induction false} HeldIsSeen(v: Stage, looks: seq<Look>, n: nat)
    requires v.fd.Some? && v.identity.Some? && v.mode.Some? && v.present && |looks| == n + 3 && looks[n] == Look(v.leaf, v.identity)
    requires looks[n + 1] == Grabbed(v.leaf, v.fd.value, v.identity.value, v.serial)
    requires looks[n + 2] == Shown(v.fd.value, v.identity.value, v.serial, v.mode.value)
    ensures StageSeen(v, looks, n)
  {
  }

  /** The seam after capture; a raise there closes the descriptor again. */
  method CapturedSeam(k: Kernel, stage: MemberStage) returns (r: Outcome<Unit>)
    requires k.Valid() && stage.fd.Some? && stage.Holds(k.fs)
    modifies k`fs, k`script, stage`fd
    ensures k.Valid() && Later(old(k.fs), k.fs) && stage.Holds(k.fs) && stage.present == old(stage.present)
    ensures r.Raise? ==> stage.fd.None? && k.fs.fds.Keys == old(k.fs).fds.Keys - FdSet(old(stage.fd))
    ensures r.Ok? ==> stage.fd == old(stage.fd) && k.fs.fds.Keys == old(k.fs).fds.Keys
    ensures k.quiet ==> r.Ok? && DirectoryOf(k.fs) == DirectoryOf(old(k.fs))
  {
    var fd := stage.fd.value;
    var raised := k.Seam();
    if raised {
      ghost var f1 := k.fs;
      k.Close(fd);
      LaterTransitive(old(k.fs), f1, k.fs);
      stage.fd := None;
      return Raise(Interrupted);
    }
    return Ok(Unit);
  }

  /** The error recorded when opening failed for a reason other than a missing entry. */
  function OpenError(optional: bool, selected: Ino, looked: Outcome<Option<Stat>>): Code {
    match looked
    case Raise(e) => e
    case Ok(None) => if optional then OperationFailed else EntryChanged
    case Ok(Some(st)) =>
      match Validated(st)
      case Raise(e) => e
      case Ok(_) => if st.ino != selected then EntryChanged else OperationFailed
  }

  /** The error that the check of a freshly opened descriptor finds, if any. */
  function CaptureError(selected: Ino, st: Outcome<Stat>): Option<Code> {
    match st
    case Raise(e) => Some(e)
    case Ok(current) =>
      match Validated(current)
      case Raise(e) => Some(e)
      case Ok(_) => if current.ino != selected then Some(EntryChanged) else None
  }

  method Capture(k: Kernel, leaf: Name, optional: bool) returns (r: Outcome<MemberStage>)
    requires k.Valid()
    modifies k
    ensures k.Valid() && Later(old(k.fs), k.fs) && k.chmods == old(k.chmods) && old(k.looks) <= k.looks
    ensures k.quiet ==> DirectoryOf(k.fs) == DirectoryOf(old(k.fs))
    ensures r.Raise? ==> k.fs.fds.Keys == old(k.fs).fds.Keys
    ensures r.Ok? ==> StageSeen(r.value.Now(), k.looks, |old(k.looks)|)
    ensures r.Ok? ==> fresh(r.value) && r.value.leaf == leaf && r.value.optional == optional && r.value.Holds(k.fs)
                      && k.fs.fds.Keys == old(k.fs).fds.Keys + FdSet(r.value.fd) && FdSet(r.value.fd) !! old(k.fs).fds.Keys
                      && (r.value.present && r.value.error.None? && !optional ==> r.value.fd.Some?)
    ensures k.quiet ==> r.Ok? && StageFits(r.value.Now(), DirectoryOf(k.fs))
  {
    var stage := new MemberStage(leaf, optional);
    var observed := k.Lstat(leaf);
    ghost var f1 := k.fs;
    if observed.Raise? {
      stage.error := Some(observed.error);
      return Ok(stage);
    }
    if observed.value.None? {
      assert k.looks[|old(k.looks)|] == Look(leaf, None);
      return Ok(stage);
    }
    var opening := OpenStage(k, stage, observed.value.value);
    LaterTransitive(old(k.fs), f1, k.fs);
    if opening.Raise? { return Raise(opening.error); }
    return Ok(stage);
  }

  // ----- Settling what a member is -----

  method AbsentTerminal(k: Kernel, stage: MemberStage) returns (t: MemberTerminal)
    requires k.Valid() && stage.Holds(k.fs)
    modifies k`fs, stage`fd
    ensures k.Valid() && Later(old(k.fs), k.fs) && k.fs.fds.Keys == old(k.fs).fds.Keys - FdSet(old(stage.fd)) && stage.fd.None?
    ensures DirectoryOf(k.fs) == DirectoryOf(old(k.fs))
    ensures fresh(t) && t.Holds(k.fs) && t.leaf == stage.leaf && t.optional == stage.optional && t.state.Absent? && t.fd.None?
  {
    LaterReflexive(k.fs);
    if stage.fd.Some? {
      k.Close(stage.fd.value);
      stage.fd := None;
    }
    t := new MemberTerminal(stage.leaf, stage.optional, Absent, Some(PermissionResult(AbsentEntry, None)), None, None, None, None, 0);
  }

  method InvalidTerminal(k: Kernel, stage: MemberStage, error: Code) returns (t: MemberTerminal)
    requires k.Valid() && stage.Holds(k.fs)
    modifies stage`fd
    ensures stage.fd.None? && fresh(t) && t.Holds(k.fs) && t.leaf == stage.leaf && t.optional == stage.optional
    ensures t.state.Invalid? && t.error == Some(error) && t.fd == old(stage.fd) && t.identity == stage.identity
  {
    t := new MemberTerminal(stage.leaf, stage.optional, Invalid, None, stage.identity, stage.mode, stage.fd, Some(error), stage.serial);
    stage.fd := None;
  }

  /** What a terminal made from this stage promises. */
  ghost predicate Settled(k: Kernel, t: MemberTerminal, leaf: Name, optional: bool, since: nat)
    reads k, t
  {
    && t.leaf == leaf && t.optional == optional && t.Holds(k.fs) && since <= |k.looks|
    && (t.state.Absent? ==> SeenAbsent(k.looks, since, leaf))
    && (t.state.Present? ==> LastSaw(k.looks, leaf, t.identity.value) && ModeSeen(t.Now(), k.looks, since))
    && Inspected(t.Now())
  }

  /** The last check of a captured member: its name still leads to the pinned inode. A member whose
      name is gone is absent if it may be; only a required one is an error. */
  method CheckCaptured(k: Kernel, stage: MemberStage) returns (t: MemberTerminal)
    requires k.Valid() && stage.Holds(k.fs) && stage.fd.Some?
    modifies k, stage`fd
    ensures k.Valid() && Later(old(k.fs), k.fs) && k.chmods == old(k.chmods) && old(k.looks) <= k.looks && stage.fd.None?
    ensures k.quiet ==> DirectoryOf(k.fs) == DirectoryOf(old(k.fs))
    ensures fresh(t) && Settled(k, t, stage.leaf, stage.optional, |old(k.looks)|)
    ensures t.state.Absent? ==> stage.optional && k.fs.fds.Keys == old(k.fs).fds.Keys - FdSet(old(stage.fd))
    ensures !t.state.Absent? ==> t.fd == old(stage.fd) && k.fs.fds.Keys == old(k.fs).fds.Keys && t.identity == stage.identity
    ensures t.state.Present? ==> t.serial == stage.serial
    ensures k.quiet && StageFits(old(stage.Now()), DirectoryOf(k.fs)) ==> Fits(t.Now(), DirectoryOf(k.fs)) && Current(t.Now(), DirectoryOf(k.fs))
  {
    if StageFits(stage.Now(), DirectoryOf(k.fs)) { assert LeadsTo(DirectoryOf(k.fs), stage.leaf, stage.identity.value); }
    hide StageFits;
    hide Later;
    hide Fits;
    hide Settled;
    var linked := LookFor(k, stage);
    ghost var f1 := k.fs;
    if linked.Ok? && linked.value.None? && stage.optional {
      t := RetireCaptured(k, stage, |old(k.looks)|);
      LaterTransitive(old(k.fs), f1, k.fs);
      return;
    }
    t := CheckLinked(k, stage, linked, |old(k.looks)|);
    LaterTransitive(old(k.fs), f1, k.fs);
  }

  /** Look the stage's name up. */
  method LookFor(k: Kernel, stage: MemberStage) returns (linked: Outcome<Option<Stat>>)
    requires k.Valid() && stage.Holds(k.fs)
    modifies k`fs, k`script, k`looks
    ensures k.Valid() && Later(old(k.fs), k.fs) && k.fs.fds == old(k.fs).fds && stage.Holds(k.fs) && old(k.looks) <= k.looks
    ensures k.quiet ==> DirectoryOf(k.fs) == DirectoryOf(old(k.fs)) && linked.Ok? && (linked.value.Some? <==> stage.leaf in k.fs.names)
                        && (linked.value.Some? ==> Observed(DirectoryOf(k.fs), stage.leaf, linked.value.value))
    ensures linked.Ok? ==> k.looks == old(k.looks) + [Look(stage.leaf, if linked.value.Some? then Some(linked.value.value.ino) else None)]
  {
    linked := k.Lstat(stage.leaf);
  }

  /** The name is gone: the descriptor is closed. */
  method RetireCaptured(k: Kernel, stage: MemberStage, ghost since: nat) returns (t: MemberTerminal)
    requires k.Valid() && stage.Holds(k.fs) && since < |k.looks| && k.looks[since] == Look(stage.leaf, None)
    modifies k`fs, stage`fd
    ensures k.Valid() && Later(old(k.fs), k.fs) && stage.fd.None? && DirectoryOf(k.fs) == DirectoryOf(old(k.fs))
    ensures k.fs.fds.Keys == old(k.fs).fds.Keys - FdSet(old(stage.fd))
    ensures fresh(t) && Settled(k, t, stage.leaf, stage.optional, since) && t.state.Absent?
  {
    t := AbsentTerminal(k, stage);
  }

  /** The name still leads to the pinned inode. */
  method CheckLinked(k: Kernel, stage: MemberStage, linked: Outcome<Option<Stat>>, ghost since: nat) returns (t: MemberTerminal)
    requires k.Valid() && stage.Holds(k.fs) && stage.fd.Some? && since <= |k.looks|
    requires linked.Ok? && linked.value.Some? ==> |k.looks| == since + 1 && k.looks[since] == Look(stage.leaf, Some(linked.value.value.ino))
    modifies k, stage`fd
    ensures k.Valid() && Later(old(k.fs), k.fs) && k.chmods == old(k.chmods) && old(k.looks) <= k.looks && stage.fd.None?
    ensures k.quiet ==> DirectoryOf(k.fs) == DirectoryOf(old(k.fs))
    ensures fresh(t) && Settled(k, t, stage.leaf, stage.optional, since) && !t.state.Absent?
    ensures t.fd == old(stage.fd) && k.fs.fds.Keys == old(k.fs).fds.Keys && t.identity == stage.identity
    ensures t.state.Present? ==> t.serial == stage.serial
    ensures k.quiet && LeadsTo(DirectoryOf(k.fs), stage.leaf, stage.identity.value) && linked.Ok? && linked.value.Some?
            && Observed(DirectoryOf(k.fs), stage.leaf, linked.value.value) ==>
              Fits(t.Now(), DirectoryOf(k.fs)) && Current(t.Now(), DirectoryOf(k.fs))
  {
    LaterReflexive(k.fs);
    hide Later;
    var failure := LinkError(stage.identity.value, linked);
    if failure.Some? {
      t := InvalidTerminal(k, stage, failure.value);
      return;
    }
    hide Settled;
    hide Fits;
    t := CheckPinned(k, stage, since);
  }

  /** The pinned object is still a regular file of ours; its mode is the one it shows now. */
  method CheckPinned(k: Kernel, stage: MemberStage, ghost since: nat) returns (t: MemberTerminal)
    requires k.Valid() && stage.Holds(k.fs) && stage.fd.Some?
    requires |k.looks| == since + 1 && k.looks[since] == Look(stage.leaf, stage.identity)
    modifies k, stage`fd
    ensures k.Valid() && Later(old(k.fs), k.fs) && k.chmods == old(k.chmods) && old(k.looks) <= k.looks && stage.fd.None?
    ensures k.quiet ==> DirectoryOf(k.fs) == DirectoryOf(old(k.fs))
    ensures fresh(t) && Settled(k, t, stage.leaf, stage.optional, since) && !t.state.Absent?
    ensures t.fd == old(stage.fd) && k.fs.fds.Keys == old(k.fs).fds.Keys && t.identity == stage.identity
    ensures t.state.Present? ==> t.serial == stage.serial
    ensures k.quiet && LeadsTo(DirectoryOf(k.fs), stage.leaf, stage.identity.value) ==>
              Fits(t.Now(), DirectoryOf(k.fs)) && Current(t.Now(), DirectoryOf(k.fs))
  {
    var current := k.Fstat(stage.fd.value);
    var failure := CaptureError(stage.identity.value, current);
    if failure.Some? {
      t := InvalidTerminal(k, stage, failure.value);
      return;
    }
    var mode := current.value.mode;
    LookedThenShown(k.looks, since, stage.leaf, stage.fd.value, stage.identity.value, stage.serial, mode);
    hide LastSaw;
    hide ShownSince;
    t := new MemberTerminal(stage.leaf, stage.optional, Present, Some(PermissionResult(ModeState(mode), Some(mode))),
                            Some(current.value.ino), Some(mode), stage.fd, None, stage.serial);
    stage.fd := None;
  }

  lemma {:induction false} LookedThenShown(looks: seq<Look>, n: nat, leaf: Name, fd: Fd, ino: Ino, serial: nat, mode: Mode)
    requires |looks| == n + 2 && looks[n] == Look(leaf, Some(ino)) && looks[n + 1] == Shown(fd, ino, serial, mode)
    ensures LastSaw(looks, leaf, ino) && ShownSince(looks, n, fd, ino, serial, mode)
  {
  }

  /** What is wrong with the looked-up entry, if anything. */
  function LinkError(selected: Ino, linked: Outcome<Option<Stat>>): (e: Option<Code>)
    ensures e.None? ==> linked.Ok? && linked.value.Some? && linked.value.value.ino == selected
  {
    match linked
    case Raise(e) => Some(e)
    case Ok(None) => Some(EntryChanged)
    case Ok(Some(st)) => CaptureError(selected, Ok(st))
  }

  /** `_terminalize_sqlite_member_at`. A raise (at a seam) leaves the stage with its descriptor. */
  method Terminalize(k: Kernel, stage: MemberStage, requireMain: bool) returns (r: Outcome<MemberTerminal>)
    requires k.Valid() && stage.Holds(k.fs)
    modifies k, stage
    ensures k.Valid() && Later(old(k.fs), k.fs) && k.chmods == old(k.chmods) && old(k.looks) <= k.looks
    ensures k.quiet ==> DirectoryOf(k.fs) == DirectoryOf(old(k.fs))
    ensures r.Raise? ==> stage.Holds(k.fs) && k.fs.fds.Keys - FdSet(stage.fd) == old(k.fs).fds.Keys - FdSet(old(stage.fd))
                         && (stage.fd == old(stage.fd) || old(stage.fd).None?)
    ensures r.Ok? ==> fresh(r.value) && Settled(k, r.value, stage.leaf, stage.optional, |old(k.looks)|) && stage.fd.None?
                      && k.fs.fds.Keys - FdSet(r.value.fd) == old(k.fs).fds.Keys - FdSet(old(stage.fd))
                      && (r.value.fd == old(stage.fd) || r.value.fd.None? || r.value.fd.value !in old(k.fs).fds)
    ensures r.Ok? && r.value.state.Absent? ==> stage.optional || (!requireMain && !old(stage.present))
    ensures r.Ok? && old(stage.fd).Some? && !stage.optional ==> r.value.identity == old(stage.identity)
    ensures r.Ok? && old(stage.fd).Some? && r.value.state.Present? ==> r.value.serial == old(stage.serial)
    ensures r.Ok? && old(stage.fd).Some? && !r.value.state.Absent? ==> r.value.fd == old(stage.fd) && r.value.identity == old(stage.identity)
    ensures r.Ok? && old(stage.fd).None? && r.value.state.Present? ==> FileGrabbed(r.value.Now(), k.looks, |old(k.looks)|)
    ensures k.quiet && StageFits(old(stage.Now()), DirectoryOf(k.fs)) && !(requireMain && !old(stage.present)) ==>
              r.Ok? && Fits(r.value.Now(), DirectoryOf(k.fs)) && Current(r.value.Now(), DirectoryOf(k.fs))
  {
    LaterReflexive(k.fs);
    if stage.error.Some? {
      var t := InvalidTerminal(k, stage, stage.error.value);
      return Ok(t);
    }
    if !stage.present {
      r := SettleAppearance(k, stage, requireMain);
      return;
    }
    if stage.fd.None? {
      var t := SettleUnopened(k, stage);
      return Ok(t);
    }
    var raised := k.Seam();
    if raised { return Raise(Interrupted); }
    ghost var f1 := k.fs;
    var t := CheckCaptured(k, stage);
    LaterTransitive(old(k.fs), f1, k.fs);
    return Ok(t);
  }

  /** A member found at first that could not be opened because it had vanished. */
  method SettleUnopened(k: Kernel, stage: MemberStage) returns (t: MemberTerminal)
    requires k.Valid() && stage.Holds(k.fs) && stage.fd.None?
    modifies k, stage`fd
    ensures k.Valid() && Later(old(k.fs), k.fs) && k.chmods == old(k.chmods) && old(k.looks) <= k.looks && stage.fd.None?
    ensures k.quiet ==> DirectoryOf(k.fs) == DirectoryOf(old(k.fs))
    ensures fresh(t) && Settled(k, t, stage.leaf, stage.optional, |old(k.looks)|) && !t.state.Present?
    ensures k.fs.fds.Keys == old(k.fs).fds.Keys && t.fd.None? && (t.state.Absent? ==> stage.optional)
  {
    var current := k.Lstat(stage.leaf);
    ghost var f1 := k.fs;
    if current.Ok? && current.value.None? && stage.optional {
      assert k.looks[|old(k.looks)|] == Look(stage.leaf, None);
      t := AbsentTerminal(k, stage);
      LaterTransitive(old(k.fs), f1, k.fs);
      return;
    }
    var code := if current.Raise? then current.error
                else if current.value.None? || Validated(current.value.value).Ok? then EntryChanged
                else Validated(current.value.value).error;
    t := InvalidTerminal(k, stage, code);
  }

  /** A member absent at first: is it still, and if not, capture it now. */
  method SettleAppearance(k: Kernel, stage: MemberStage, requireMain: bool) returns (r: Outcome<MemberTerminal>)
    requires k.Valid() && stage.Holds(k.fs) && stage.error.None? && !stage.present
    modifies k, stage
    ensures k.Valid() && Later(old(k.fs), k.fs) && k.chmods == old(k.chmods) && old(k.looks) <= k.looks
    ensures k.quiet ==> DirectoryOf(k.fs) == DirectoryOf(old(k.fs))
    ensures r.Raise? ==> stage.Holds(k.fs) && k.fs.fds.Keys - FdSet(stage.fd) == old(k.fs).fds.Keys
    ensures r.Ok? ==> fresh(r.value) && Settled(k, r.value, stage.leaf, stage.optional, |old(k.looks)|) && stage.fd.None?
                      && k.fs.fds.Keys - FdSet(r.value.fd) == old(k.fs).fds.Keys
                      && (r.value.fd.None? || r.value.fd.value !in old(k.fs).fds)
                      && (r.value.state.Present? ==> FileGrabbed(r.value.Now(), k.looks, |old(k.looks)|))
    ensures r.Ok? && r.value.state.Absent? ==> stage.optional || !requireMain
    ensures k.quiet && stage.leaf !in k.fs.names && !requireMain ==> r.Ok? && Fits(r.value.Now(), DirectoryOf(k.fs)) && r.value.state.Absent?
  {
    var raised := k.Seam();
    if raised { return Raise(Interrupted); }
    ghost var f1 := k.fs;
    var appeared := k.Lstat(stage.leaf);
    LaterTransitive(old(k.fs), f1, k.fs);
    ghost var f2 := k.fs;
    if appeared.Raise? {
      var t := InvalidTerminal(k, stage, appeared.error);
      return Ok(t);
    }
    if appeared.value.None? {
      if requireMain && !stage.optional {
        var t := InvalidTerminal(k, stage, MissingEntry);
        return Ok(t);
      }
      assert k.looks[|old(k.looks)|] == Look(stage.leaf, None);
      var t := AbsentTerminal(k, stage);
      LaterTransitive(old(k.fs), f2, k.fs);
      return Ok(t);
    }
    r := SettleAppeared(k, stage, appeared.value.value, old(k.fs).fds.Keys);
    hide Later;
    LaterTransitive(old(k.fs), f2, k.fs);
  }

  /** The member has appeared: capture it, and settle what was captured. */
  method SettleAppeared(k: Kernel, stage: MemberStage, observed: Stat, ghost base: set<Fd>) returns (r: Outcome<MemberTerminal>)
    requires k.Valid() && stage.Holds(k.fs) && stage.fd.None? && stage.error.None? && k.fs.fds.Keys == base
    requires k.looks != [] && k.looks[|k.looks| - 1] == Look(stage.leaf, Some(observed.ino))
    modifies k, stage
    ensures k.Valid() && Later(old(k.fs), k.fs) && k.chmods == old(k.chmods) && old(k.looks) <= k.looks
    ensures k.quiet ==> DirectoryOf(k.fs) == DirectoryOf(old(k.fs))
    ensures r.Raise? ==> stage.Holds(k.fs) && k.fs.fds.Keys - FdSet(stage.fd) == base
    ensures r.Ok? ==> fresh(r.value) && Settled(k, r.value, stage.leaf, stage.optional, |old(k.looks)| - 1) && stage.fd.None?
                      && k.fs.fds.Keys - FdSet(r.value.fd) == base && (r.value.fd.None? || r.value.fd.value !in base)
                      && (r.value.state.Present? ==> FileGrabbed(r.value.Now(), k.looks, |old(k.looks)| - 1))
    ensures r.Ok? && r.value.state.Absent? ==> stage.optional
  {
    hide Settled;
    hide StageSeen;
    ghost var f0, since := k.fs, |k.looks| - 1;
    var opening := OpenStage(k, stage, observed);
    if opening.Raise? { return Raise(opening.error); }
    r := AfterAppearance(k, stage, f0, since, base);
  }

  method AfterAppearance(k: Kernel, stage: MemberStage, ghost start: Fs, ghost since: nat, ghost base: set<Fd>)
    returns (r: Outcome<MemberTerminal>)
    requires k.Valid() && stage.Holds(k.fs) && FsOk(start) && Later(start, k.fs) && since <= |k.looks|
    requires k.fs.fds.Keys == base + FdSet(stage.fd) && FdSet(stage.fd) !! base
    requires stage.fd.None? ==> stage.error.Some? || stage.optional
    requires StageSeen(stage.Now(), k.looks, since)
    modifies k, stage`fd
    ensures k.Valid() && Later(start, k.fs) && k.chmods == old(k.chmods) && old(k.looks) <= k.looks
    ensures k.quiet ==> DirectoryOf(k.fs) == DirectoryOf(old(k.fs))
    ensures r.Raise? ==> stage.Holds(k.fs) && k.fs.fds.Keys - FdSet(stage.fd) == base
    ensures r.Ok? ==> fresh(r.value) && Settled(k, r.value, stage.leaf, stage.optional, since) && stage.fd.None?
                      && k.fs.fds.Keys - FdSet(r.value.fd) == base && (r.value.fd.None? || r.value.fd.value !in base)
                      && (r.value.state.Present? ==> FileGrabbed(r.value.Now(), k.looks, since))
    ensures r.Ok? && r.value.state.Absent? ==> stage.optional
  {
    hide StageFits;
    hide Fits;
    hide Current;
    ghost var f1 := k.fs;
    if stage.error.Some? {
      var t := InvalidTerminal(k, stage, stage.error.value);
      return Ok(t);
    }
    if stage.fd.None? {
      var t := SettleUnopened(k, stage);
      LaterTransitive(start, f1, k.fs);
      return Ok(t);
    }
    var raised := k.Seam();
    LaterTransitive(start, f1, k.fs);
    if raised { return Raise(Interrupted); }
    ghost var f2 := k.fs;
    var t := CheckCaptured(k, stage);
    LaterTransitive(start, f2, k.fs);
    return Ok(t);
  }

  // ----- Checking again -----

  method SetAbsent(k: Kernel, t: MemberTerminal)
    requires k.Valid() && t.Holds(k.fs)
    modifies k`fs, t
    ensures k.Valid() && Later(old(k.fs), k.fs) && k.fs.fds.Keys == old(k.fs).fds.Keys - FdSet(old(t.fd))
    ensures t.Holds(k.fs) && t.state.Absent? && t.fd.None? && DirectoryOf(k.fs) == DirectoryOf(old(k.fs))
  {
    LaterReflexive(k.fs);
    if t.fd.Some? {
      k.Close(t.fd.value);
      t.fd := None;
    }
    t.state, t.result := Absent, Some(PermissionResult(AbsentEntry, None));
    t.identity, t.mode, t.error := None, None, None;
  }

  /** The fields of a present member that a check reads or writes. */
  twostate predicate SameMember(t: MemberTerminal)
    reads t
  {
    t.state == old(t.state) && t.identity == old(t.identity) && t.fd == old(t.fd) && t.serial == old(t.serial)
  }

  /** `_refresh_sqlite_terminal_at`: only an optional member may have gone, and only when its name was
      looked up and not found; a member whose name leads elsewhere is an error. */
  method Refresh(k: Kernel, t: MemberTerminal) returns (r: Outcome<Option<Stat>>)
    requires k.Valid() && t.Holds(k.fs)
    modifies k, t
    ensures k.Valid() && Later(old(k.fs), k.fs) && k.chmods == old(k.chmods) && old(k.looks) <= k.looks && t.Holds(k.fs)
    ensures k.quiet ==> DirectoryOf(k.fs) == DirectoryOf(old(k.fs))
    ensures r.Raise? ==> SameMember(t) && t.mode == old(t.mode) && t.result == old(t.result) && k.fs.fds.Keys == old(k.fs).fds.Keys
    ensures r.Ok? && r.value.Some? ==>
              && old(t.state).Present? && SameMember(t) && t.mode == Some(r.value.value.mode)
              && k.fs.fds.Keys == old(k.fs).fds.Keys && LastSaw(k.looks, t.leaf, t.identity.value)
              && ModeSeen(t.Now(), k.looks, |old(k.looks)|)
              && t.result == Refreshed(old(t.result), r.value.value.mode)
    ensures r.Ok? && r.value.None? && old(t.state).Present? ==>
              && t.optional && t.state.Absent? && SeenAbsent(k.looks, |old(k.looks)|, t.leaf)
              && k.fs.fds.Keys == old(k.fs).fds.Keys - FdSet(old(t.fd))
    ensures r.Ok? && !old(t.state).Present? ==>
              r.value.None? && SameMember(t) && t.mode == old(t.mode) && t.result == old(t.result)
              && k.fs.fds.Keys == old(k.fs).fds.Keys
    ensures k.quiet && Fits(old(t.Now()), DirectoryOf(k.fs)) ==>
              r.Ok? && (r.value.Some? <==> old(t.state).Present?) && t.identity == old(t.identity)
              && Fits(t.Now(), DirectoryOf(k.fs)) && Current(t.Now(), DirectoryOf(k.fs))
  {
    LaterReflexive(k.fs);
    if !t.state.Present? { return Ok(None); }
    r := Recheck(k, t);
    ghost var f1 := k.fs;
    if r.Raise? { return; }
    if r.value.None? {
      SetAbsent(k, t);
      LaterTransitive(old(k.fs), f1, k.fs);
      return;
    }
    t.mode := Some(r.value.value.mode);
    t.result := Refreshed(t.result, r.value.value.mode);
  }

  /** The lookups of a refresh: None when an optional member's name is not there. */
  method Recheck(k: Kernel, t: MemberTerminal) returns (r: Outcome<Option<Stat>>)
    requires k.Valid() && t.Holds(k.fs) && t.state.Present?
    modifies k
    ensures k.Valid() && Later(old(k.fs), k.fs) && k.chmods == old(k.chmods) && old(k.looks) <= k.looks && t.Holds(k.fs)
    ensures k.quiet ==> DirectoryOf(k.fs) == DirectoryOf(old(k.fs))
    ensures k.fs.fds == old(k.fs).fds
    ensures r == Ok(None) ==> t.optional && SeenAbsent(k.looks, |old(k.looks)|, t.leaf)
    ensures r.Ok? && r.value.Some? ==> LastSaw(k.looks, t.leaf, t.identity.value)
                                       && ShownSince(k.looks, |old(k.looks)|, t.fd.value, t.identity.value, t.serial, r.value.value.mode)
    ensures k.quiet && LeadsTo(DirectoryOf(k.fs), t.leaf, t.identity.value) ==>
              r.Ok? && r.value.Some? && r.value.value.mode == k.fs.table[t.identity.value].mode
  {
    var linked := k.Lstat(t.leaf);
    ghost var f1 := k.fs;
    if linked.Ok? && linked.value.None? && t.optional {
      assert k.looks[|old(k.looks)|] == Look(t.leaf, None);
      return Ok(None);
    }
    var failure := LinkError(t.identity.value, linked);
    if failure.Some? { return Raise(failure.value); }
    var current := k.Fstat(t.fd.value);
    LaterTransitive(old(k.fs), f1, k.fs);
    failure := CaptureError(t.identity.value, current);
    if failure.Some? { return Raise(failure.value); }
    return Ok(Some(current.value));
  }

  function Refreshed(result: Option<PermissionResult>, mode: Mode): Option<PermissionResult> {
    if result.Some? && (result.value.state.Private? || result.value.state.RepairRequired?)
    then Some(PermissionResult(ModeState(mode), Some(mode))) else result
  }

  // ----- Narrowing -----

  /** A new mode change, if any, is of the pinned object, made while the pinning descriptor was open
      on it, and to no more than the recorded mode allows. */
  ghost predicate NarrowsOnly(change: ModeChange, serial: nat, pin: Fd, recorded: Mode) {
    change.serial == serial && pin in change.pins && change.to == PrivatePart(recorded)
  }

  /** `_accept_optional_sqlite_terminal_retirement_at`. */
  method AcceptRetirement(k: Kernel, t: MemberTerminal) returns (r: Outcome<bool>)
    requires k.Valid() && t.Holds(k.fs)
    modifies k, t
    ensures k.Valid() && Later(old(k.fs), k.fs) && k.chmods == old(k.chmods) && old(k.looks) <= k.looks && t.Holds(k.fs)
    ensures k.quiet ==> DirectoryOf(k.fs) == DirectoryOf(old(k.fs))
    ensures r == Ok(true) ==> t.optional && t.state.Absent? && SeenAbsent(k.looks, |old(k.looks)|, t.leaf)
                              && k.fs.fds.Keys == old(k.fs).fds.Keys - FdSet(old(t.fd))
    ensures r != Ok(true) ==> SameMember(t) && t.mode == old(t.mode) && t.result == old(t.result)
                              && k.fs.fds.Keys == old(k.fs).fds.Keys
  {
    LaterReflexive(k.fs);
    if !t.optional { return Ok(false); }
    var looked := k.Lstat(t.leaf);
    ghost var f1 := k.fs;
    if looked.Raise? { return Raise(looked.error); }
    if looked.value.Some? { return Ok(false); }
    assert k.looks[|old(k.looks)|] == Look(t.leaf, None);
    SetAbsent(k, t);
    LaterTransitive(old(k.fs), f1, k.fs);
    return Ok(true);
  }

  /** The name leads to this number, and that to a regular file of ours with this mode. */
  predicate Shows(d: Directory, leaf: Name, i: Ino, mode: Mode) {
    LeadsTo(d, leaf, i) && d.table[i].mode == mode
  }

  /** `verify_entry_identity` and the mode it must show, or retirement. True: the entry is as expected. */
  method VerifyOrRetire(k: Kernel, t: MemberTerminal, expected: Mode) returns (r: Outcome<bool>)
    requires k.Valid() && t.Holds(k.fs) && t.state.Present?
    modifies k, t
    ensures k.Valid() && Later(old(k.fs), k.fs) && k.chmods == old(k.chmods) && old(k.looks) <= k.looks && t.Holds(k.fs)
    ensures k.quiet ==> DirectoryOf(k.fs) == DirectoryOf(old(k.fs))
    ensures r == Ok(false) ==> t.optional && t.state.Absent? && SeenAbsent(k.looks, |old(k.looks)|, t.leaf)
                               && k.fs.fds.Keys == old(k.fs).fds.Keys - FdSet(old(t.fd))
    ensures r != Ok(false) ==> SameMember(t) && t.mode == old(t.mode) && k.fs.fds.Keys == old(k.fs).fds.Keys
    ensures r == Ok(true) ==> LastSaw(k.looks, t.leaf, t.identity.value)
    ensures k.quiet && Shows(DirectoryOf(k.fs), t.leaf, old(t.identity).value, expected) ==> r == Ok(true)
  {
    var linked := k.Lstat(t.leaf);
    ghost var f1 := k.fs;
    var failure := LinkError(t.identity.value, linked);
    if failure.Some? {
      var retired := AcceptRetirement(k, t);
      LaterTransitive(old(k.fs), f1, k.fs);
      if retired.Raise? { return Raise(retired.error); }
      if retired.value { return Ok(false); }
      return Raise(failure.value);
    }
    if linked.value.value.mode != expected { return Raise(EntryChanged); }
    return Ok(true);
  }

  lemma {:induction false} FitShows(m: Member, d: Directory)
    requires m.state.Present? && Fits(m, d) && Current(m, d)
    ensures m.identity.Some? && m.mode.Some? && Shows(d, m.leaf, m.identity.value, m.mode.value)
  {
  }

  lemma {:induction false} ChangedShows(d: Directory, leaf: Name, i: Ino, mode: Mode, to: Mode)
    ensures Shows(d, leaf, i, mode) ==> Shows(WithMode(d, i, to), leaf, i, to)
  {
  }

  lemma {:induction false} NoneYet(changes: seq<ModeChange>, serial: nat, pin: Fd, recorded: Mode)
    ensures OnlyNarrowed(changes, |changes|, serial, pin, recorded)
  {
  }

  /** Every mode change from `since` on narrows this member through its pin. */
  ghost predicate OnlyNarrowed(changes: seq<ModeChange>, since: nat, serial: nat, pin: Fd, recorded: Mode) {
    forall i :: since <= i < |changes| ==> NarrowsOnly(changes[i], serial, pin, recorded)
  }

  /** The part of `_narrow_sqlite_terminal_at` that holds the second descriptor. True: narrowed; false:
      the member turned out to have retired. */
  method NarrowThrough(k: Kernel, t: MemberTerminal, fd: Fd, expected: Mode) returns (r: Outcome<bool>)
    requires k.Valid() && t.Holds(k.fs) && t.state.Present? && fd in k.fs.fds && fd != t.fd.value
    modifies k, t
    ensures k.Valid() && Later(old(k.fs), k.fs) && old(k.looks) <= k.looks && t.Holds(k.fs)
    ensures old(k.chmods) <= k.chmods && OnlyNarrowed(k.chmods, |old(k.chmods)|, old(t.serial), old(t.fd).value, expected)
    ensures r == Ok(false) ==> t.optional && t.state.Absent? && SeenAbsent(k.looks, |old(k.looks)|, t.leaf)
                               && k.fs.fds.Keys == old(k.fs).fds.Keys - FdSet(old(t.fd))
    ensures r != Ok(false) ==> SameMember(t) && t.mode == old(t.mode) && k.fs.fds.Keys == old(k.fs).fds.Keys
    ensures r == Ok(true) ==> LastSaw(k.looks, t.leaf, t.identity.value)
    ensures k.quiet && old(k.fs).fds[fd] == old(t.identity).value
            && Shows(DirectoryOf(old(k.fs)), t.leaf, old(t.identity).value, expected) ==>
              r == Ok(true) && DirectoryOf(k.fs) == WithMode(DirectoryOf(old(k.fs)), old(t.identity).value, PrivatePart(expected))
  {
    ghost var f0 := k.fs;
    hide PrivatePart;
    hide Shows;
    hide WithMode;
    hide SeenAbsent;
    hide LastSaw;
    NoneYet(k.chmods, t.serial, t.fd.value, expected);
    hide OnlyNarrowed;
    r := CheckBoth(k, t, fd, expected);
    if r != Ok(true) { return; }
    ghost var f1 := k.fs;
    ChangedShows(DirectoryOf(f1), t.leaf, t.identity.value, expected, PrivatePart(expected));
    var narrowed := ChangeMode(k, t, fd, expected);
    LaterTransitive(f0, f1, k.fs);
    if narrowed.Raise? { return Raise(narrowed.error); }
    ghost var f2 := k.fs;
    r := CheckBoth(k, t, fd, PrivatePart(expected));
    LaterTransitive(f0, f2, k.fs);
  }

  /** The mode change itself: through the second descriptor, while the pin is still open. */
  method ChangeMode(k: Kernel, t: MemberTerminal, fd: Fd, recorded: Mode) returns (r: Outcome<Unit>)
    requires k.Valid() && t.Holds(k.fs) && t.state.Present? && Pinned(k.fs, fd, t.identity.value, t.serial)
    modifies k`fs, k`script, k`chmods
    ensures k.Valid() && Later(old(k.fs), k.fs) && t.Holds(k.fs) && k.fs.fds == old(k.fs).fds
    ensures old(k.chmods) <= k.chmods && OnlyNarrowed(k.chmods, |old(k.chmods)|, t.serial, t.fd.value, recorded)
    ensures k.quiet ==> r.Ok? && DirectoryOf(k.fs) == WithMode(DirectoryOf(old(k.fs)), t.identity.value, PrivatePart(recorded))
  {
    r := k.Fchmod(fd, PrivatePart(recorded));
    assert Pinned(k.fs, fd, t.identity.value, t.serial);
    if r.Ok? {
      var n := |old(k.chmods)|;
      assert k.chmods[n].serial == t.serial && k.chmods[n].pins == OpenOn(k.fs, t.identity.value);
    }
  }

  /** The second descriptor and the name both lead to the member, with this mode, or it has retired. */
  method CheckBoth(k: Kernel, t: MemberTerminal, fd: Fd, expected: Mode) returns (r: Outcome<bool>)
    requires k.Valid() && t.Holds(k.fs) && t.state.Present? && fd in k.fs.fds && fd != t.fd.value
    modifies k, t
    ensures k.Valid() && Later(old(k.fs), k.fs) && k.chmods == old(k.chmods) && old(k.looks) <= k.looks && t.Holds(k.fs)
    ensures k.quiet ==> DirectoryOf(k.fs) == DirectoryOf(old(k.fs))
    ensures r == Ok(false) ==> t.optional && t.state.Absent? && SeenAbsent(k.looks, |old(k.looks)|, t.leaf)
                               && k.fs.fds.Keys == old(k.fs).fds.Keys - FdSet(old(t.fd))
    ensures r != Ok(false) ==> SameMember(t) && t.mode == old(t.mode) && k.fs.fds.Keys == old(k.fs).fds.Keys
    ensures r == Ok(true) ==> LastSaw(k.looks, t.leaf, t.identity.value) && Pinned(k.fs, fd, t.identity.value, t.serial)
    ensures k.quiet && old(k.fs).fds[fd] == old(t.identity).value && Shows(DirectoryOf(k.fs), t.leaf, old(t.identity).value, expected) ==>
              r == Ok(true)
  {
    var before := CheckSecond(k, t, fd, expected);
    ghost var f1 := k.fs;
    if before.Raise? { return Raise(before.error); }
    // The same number under a descriptor that was open all along is the same object.
    assert Pinned(f1, fd, t.identity.value, t.serial);
    r := VerifyOrRetire(k, t, expected);
    LaterTransitive(old(k.fs), f1, k.fs);
  }

  /** The second descriptor is on the member's own inode and shows this mode; then a seam. */
  method CheckSecond(k: Kernel, t: MemberTerminal, fd: Fd, expected: Mode) returns (r: Outcome<Unit>)
    requires k.Valid() && t.Holds(k.fs) && t.state.Present? && fd in k.fs.fds
    modifies k`fs, k`script, k`looks
    ensures k.Valid() && Later(old(k.fs), k.fs) && k.fs.fds == old(k.fs).fds && t.Holds(k.fs) && old(k.looks) <= k.looks
    ensures r.Ok? ==> k.fs.fds[fd] == t.identity.value
    ensures k.quiet ==> DirectoryOf(k.fs) == DirectoryOf(old(k.fs))
    ensures k.quiet && k.fs.fds[fd] == t.identity.value && Shows(DirectoryOf(k.fs), t.leaf, t.identity.value, expected) ==> r.Ok?
  {
    var st := k.Fstat(fd);
    ghost var f1 := k.fs;
    var failure := CaptureError(t.identity.value, st);
    if failure.Some? { return Raise(failure.value); }
    if st.value.mode != expected { return Raise(EntryChanged); }
    var raised := k.Seam();
    LaterTransitive(old(k.fs), f1, k.fs);
    if raised { return Raise(Interrupted); }
    return Ok(Unit);
  }

  /** `_narrow_sqlite_terminal_at`. */
  method Narrow(k: Kernel, t: MemberTerminal) returns (r: Outcome<Unit>)
    requires k.Valid() && t.Holds(k.fs) && t.state.Present?
    modifies k, t
    ensures k.Valid() && Later(old(k.fs), k.fs) && old(k.looks) <= k.looks && t.Holds(k.fs)
    ensures old(k.chmods) <= k.chmods
            && OnlyNarrowed(k.chmods, |old(k.chmods)|, old(t.serial), old(t.fd).value, old(t.mode).value)
    ensures t.state.Absent? ==> t.optional && SeenAbsent(k.looks, |old(k.looks)|, t.leaf)
                                && k.fs.fds.Keys == old(k.fs).fds.Keys - FdSet(old(t.fd))
    ensures !t.state.Absent? ==> SameMember(t) && k.fs.fds.Keys == old(k.fs).fds.Keys
                                 && (t.mode == old(t.mode) || ModeSeen(t.Now(), k.looks, |old(k.looks)|))
    ensures k.quiet && old(Fits(t.Now(), DirectoryOf(k.fs)) && Current(t.Now(), DirectoryOf(k.fs))) ==>
              r.Ok? && t.state.Present?
              && DirectoryOf(k.fs) == WithMode(DirectoryOf(old(k.fs)), old(t.identity).value, PrivatePart(old(t.mode).value))
  {
    if Fits(t.Now(), DirectoryOf(k.fs)) && Current(t.Now(), DirectoryOf(k.fs)) { FitShows(t.Now(), DirectoryOf(k.fs)); }
    hide Shows;
    hide Fits;
    hide WithMode;
    hide Later;
    hide PrivatePart;
    var expected := t.mode.value;
    var still := StillAsRecorded(k, t);
    ghost var f1 := k.fs;
    if still.Raise? { return Raise(still.error); }
    if !still.value { return Ok(Unit); }
    r := NarrowReopened(k, t, expected);
    LaterTransitive(old(k.fs), f1, k.fs);
  }

  /** The check before narrowing. True: the member shows the mode recorded of it; false: it has retired. */
  method StillAsRecorded(k: Kernel, t: MemberTerminal) returns (r: Outcome<bool>)
    requires k.Valid() && t.Holds(k.fs) && t.state.Present?
    modifies k, t
    ensures k.Valid() && Later(old(k.fs), k.fs) && k.chmods == old(k.chmods) && old(k.looks) <= k.looks && t.Holds(k.fs)
    ensures k.quiet ==> DirectoryOf(k.fs) == DirectoryOf(old(k.fs))
    ensures t.state.Absent? ==> t.optional && SeenAbsent(k.looks, |old(k.looks)|, t.leaf)
                                && k.fs.fds.Keys == old(k.fs).fds.Keys - FdSet(old(t.fd))
    ensures !t.state.Absent? ==> SameMember(t) && k.fs.fds.Keys == old(k.fs).fds.Keys
                                 && (t.mode == old(t.mode) || ModeSeen(t.Now(), k.looks, |old(k.looks)|))
    ensures r.Ok? ==> (r.value <==> t.state.Present?) && (r.value ==> t.mode == old(t.mode))
    ensures k.quiet && old(Fits(t.Now(), DirectoryOf(k.fs)) && Current(t.Now(), DirectoryOf(k.fs))) ==> r == Ok(true)
  {
    hide SeenAbsent;
    var expected := t.mode.value;
    var current := Refresh(k, t);
    ghost var f1 := k.fs;
    if current.Raise? { return Raise(current.error); }
    if current.value.None? { return Ok(false); }
    if t.mode != Some(expected) { return Raise(EntryChanged); }
    var raised := k.Seam();
    LaterTransitive(old(k.fs), f1, k.fs);
    return if raised then Raise(Interrupted) else Ok(true);
  }

  method NarrowReopened(k: Kernel, t: MemberTerminal, expected: Mode) returns (r: Outcome<Unit>)
    requires k.Valid() && t.Holds(k.fs) && t.state.Present?
    modifies k, t
    ensures k.Valid() && Later(old(k.fs), k.fs) && old(k.looks) <= k.looks && t.Holds(k.fs)
    ensures old(k.chmods) <= k.chmods && OnlyNarrowed(k.chmods, |old(k.chmods)|, old(t.serial), old(t.fd).value, expected)
    ensures t.state.Absent? ==> t.optional && SeenAbsent(k.looks, |old(k.looks)|, t.leaf)
                                && k.fs.fds.Keys == old(k.fs).fds.Keys - FdSet(old(t.fd))
    ensures !t.state.Absent? ==> SameMember(t) && t.mode == old(t.mode) && k.fs.fds.Keys == old(k.fs).fds.Keys
    ensures k.quiet && Shows(DirectoryOf(old(k.fs)), t.leaf, old(t.identity).value, expected) ==>
              r.Ok? && t.state.Present?
              && DirectoryOf(k.fs) == WithMode(DirectoryOf(old(k.fs)), old(t.identity).value, PrivatePart(expected))
  {
    hide Later;
    hide WithMode;
    hide LastSaw;
    assert Shows(DirectoryOf(k.fs), t.leaf, t.identity.value, expected) ==> LeadsTo(DirectoryOf(k.fs), t.leaf, t.identity.value);
    hide DirectoryOf;
    hide Shows;
    hide LeadsTo;
    hide PrivatePart;
    NoneYet(k.chmods, t.serial, t.fd.value, expected);
    hide OnlyNarrowed;
    hide SeenAbsent;
    var opening := OpenBeside(k, t);
    ghost var f1, looks1 := k.fs, |k.looks|;
    if opening.NoEntry? {
      r := RetireVanished(k, t);
      LaterTransitive(old(k.fs), f1, k.fs);
      SeenSinceEarlier(k.looks, looks1, |old(k.looks)|);
      return;
    }
    if !opening.Opened? { return Raise(OperationFailed); }
    BesideClosed(old(k.fs).fds.Keys, opening.fd, FdSet(t.fd));
    hide FdSet;
    r := NarrowAndClose(k, t, opening.fd, expected);
    LaterTransitive(old(k.fs), f1, k.fs);
    SeenSinceEarlier(k.looks, looks1, |old(k.looks)|);
  }

  lemma {:induction false} BesideClosed(keys: set<Fd>, fd: Fd, others: set<Fd>)
    requires fd !in keys
    ensures (keys + {fd}) - {fd} == keys && (keys + {fd}) - others - {fd} == keys - others
  {
  }

  /** The name was gone when it was to be opened: the member retires, or that is an error. */
  method RetireVanished(k: Kernel, t: MemberTerminal) returns (r: Outcome<Unit>)
    requires k.Valid() && t.Holds(k.fs) && t.state.Present?
    modifies k, t
    ensures k.Valid() && Later(old(k.fs), k.fs) && k.chmods == old(k.chmods) && old(k.looks) <= k.looks && t.Holds(k.fs)
    ensures r.Ok? ==> t.optional && t.state.Absent? && SeenAbsent(k.looks, |old(k.looks)|, t.leaf)
                      && k.fs.fds.Keys == old(k.fs).fds.Keys - FdSet(old(t.fd))
    ensures r.Raise? ==> SameMember(t) && t.mode == old(t.mode) && k.fs.fds.Keys == old(k.fs).fds.Keys
  {
    hide Later;
    var retired := AcceptRetirement(k, t);
    if retired.Raise? { return Raise(retired.error); }
    return if retired.value then Ok(Unit) else Raise(EntryChanged);
  }

  /** The second descriptor is closed however the narrowing ends. */
  method NarrowAndClose(k: Kernel, t: MemberTerminal, fd: Fd, expected: Mode) returns (r: Outcome<Unit>)
    requires k.Valid() && t.Holds(k.fs) && t.state.Present? && fd in k.fs.fds && fd != t.fd.value
    modifies k, t
    ensures k.Valid() && Later(old(k.fs), k.fs) && old(k.looks) <= k.looks && t.Holds(k.fs)
    ensures old(k.chmods) <= k.chmods && OnlyNarrowed(k.chmods, |old(k.chmods)|, old(t.serial), old(t.fd).value, expected)
    ensures t.state.Absent? ==> t.optional && SeenAbsent(k.looks, |old(k.looks)|, t.leaf)
                                && k.fs.fds.Keys == old(k.fs).fds.Keys - FdSet(old(t.fd)) - {fd}
    ensures !t.state.Absent? ==> SameMember(t) && t.mode == old(t.mode) && k.fs.fds.Keys == old(k.fs).fds.Keys - {fd}
    ensures k.quiet && old(k.fs).fds[fd] == old(t.identity).value
            && Shows(DirectoryOf(old(k.fs)), t.leaf, old(t.identity).value, expected) ==>
              r.Ok? && t.state.Present?
              && DirectoryOf(k.fs) == WithMode(DirectoryOf(old(k.fs)), old(t.identity).value, PrivatePart(expected))
  {
    hide Later;
    var narrowed := NarrowThrough(k, t, fd, expected);
    ghost var f1 := k.fs;
    CloseBeside(k, t, fd);
    LaterTransitive(old(k.fs), f1, k.fs);
    return if narrowed.Raise? then Raise(narrowed.error) else Ok(Unit);
  }

  /** Open and close a second descriptor beside the member's own. */
  method OpenBeside(k: Kernel, t: MemberTerminal) returns (r: Opening)
    requires k.Valid() && t.Holds(k.fs) && t.state.Present?
    modifies k`fs, k`script, k`looks
    ensures k.Valid() && Later(old(k.fs), k.fs) && t.Holds(k.fs) && !r.Exists? && old(k.looks) <= k.looks
    ensures r.Opened? ==> r.fd !in old(k.fs).fds && r.fd in k.fs.fds && Some(r.fd) != t.fd && k.fs.fds.Keys == old(k.fs).fds.Keys + {r.fd}
    ensures !r.Opened? ==> k.fs.fds.Keys == old(k.fs).fds.Keys
    ensures k.quiet ==> DirectoryOf(k.fs) == DirectoryOf(old(k.fs))
    ensures k.quiet && LeadsTo(DirectoryOf(k.fs), t.leaf, t.identity.value) ==> r.Opened? && k.fs.fds[r.fd] == t.identity.value
  {
    r := k.Open(t.leaf);
  }

  method CloseBeside(k: Kernel, t: MemberTerminal, fd: Fd)
    requires k.Valid() && t.Holds(k.fs) && fd in k.fs.fds && t.fd != Some(fd)
    modifies k`fs
    ensures k.Valid() && Later(old(k.fs), k.fs) && t.Holds(k.fs) && k.fs.fds.Keys == old(k.fs).fds.Keys - {fd}
    ensures DirectoryOf(k.fs) == DirectoryOf(old(k.fs))
  {
    k.Close(fd);
  }

  // ----- A family of terminals -----

  ghost function AllNow(ts: seq<MemberTerminal>): (ms: seq<Member>)
    reads ts
    ensures |ms| == |ts| && forall i :: 0 <= i < |ts| ==> ms[i] == ts[i].Now()
  {
    if ts == [] then [] else AllNow(ts[..|ts| - 1]) + [ts[|ts| - 1].Now()]
  }

  function Fds(ms: seq<Member>): (fds: set<Fd>)
    ensures forall d :: d in fds <==> exists i :: 0 <= i < |ms| && ms[i].fd == Some(d)
  {
    set i | 0 <= i < |ms| && ms[i].fd.Some? :: ms[i].fd.value
  }

  /** Each open descriptor besides `base` belongs to exactly one of these members. */
  ghost predicate OwnedBy(f: Fs, ms: seq<Member>, base: set<Fd>) {
    && FsOk(f)
    && DistinctFds(ms)
    && f.fds.Keys == base + Fds(ms) && base !! Fds(ms)
  }

  ghost predicate AllHold(f: Fs, ms: seq<Member>) {
    forall i :: 0 <= i < |ms| ==> MemberHolds(ms[i], f)
  }

  predicate Apart(ts: seq<MemberTerminal>) {
    forall i, j :: 0 <= i < j < |ts| ==> ts[i] != ts[j]
  }

  ghost predicate Family(k: Kernel, ts: seq<MemberTerminal>, base: set<Fd>)
    reads k, ts
  {
    k.Valid() && Apart(ts) && OwnedBy(k.fs, AllNow(ts), base) && AllHold(k.fs, AllNow(ts))
  }

  predicate DistinctFds(ms: seq<Member>) {
    forall i, j :: 0 <= i < j < |ms| ==> ms[i].fd.Some? ==> ms[i].fd != ms[j].fd
  }

  lemma {:induction false} FdsKept(ms: seq<Member>, i: nat, m: Member)
    requires i < |ms| && m.fd == ms[i].fd
    ensures Fds(ms[i := m]) == Fds(ms) && (DistinctFds(ms) ==> DistinctFds(ms[i := m]))
  {
    var ns := ms[i := m];
    forall j | 0 <= j < |ms| ensures ns[j].fd == ms[j].fd {}
    forall d | d in Fds(ms) ensures d in Fds(ns) { var j :| 0 <= j < |ms| && ms[j].fd == Some(d); assert ns[j].fd == Some(d); }
    forall d | d in Fds(ns) ensures d in Fds(ms) { var j :| 0 <= j < |ns| && ns[j].fd == Some(d); assert ms[j].fd == Some(d); }
  }

  lemma {:induction false} FdDropped(ms: seq<Member>, i: nat, m: Member)
    requires i < |ms| && m.fd.None? && DistinctFds(ms)
    ensures Fds(ms[i := m]) == Fds(ms) - FdSet(ms[i].fd) && DistinctFds(ms[i := m])
  {
    var ns := ms[i := m];
    forall d | d in Fds(ms) && Some(d) != ms[i].fd ensures d in Fds(ns) {
      var j :| 0 <= j < |ms| && ms[j].fd == Some(d);
      assert ns[j].fd == Some(d);
    }
    forall d | d in Fds(ns) ensures d in Fds(ms) && Some(d) != ms[i].fd {
      var j :| 0 <= j < |ns| && ns[j].fd == Some(d);
      assert ms[j].fd == Some(d);
    }
  }

  /** A member that keeps or drops its descriptor leaves every other one where it was. */
  lemma {:induction false} OwnerMoved(f: Fs, g: Fs, ms: seq<Member>, i: nat, m: Member, base: set<Fd>)
    requires OwnedBy(f, ms, base) && i < |ms| && FsOk(g)
    requires if m.fd == ms[i].fd then g.fds.Keys == f.fds.Keys else m.fd.None? && g.fds.Keys == f.fds.Keys - FdSet(ms[i].fd)
    ensures OwnedBy(g, ms[i := m], base)
  {
    if m.fd == ms[i].fd { FdsKept(ms, i, m); } else {
      FdDropped(ms, i, m);
      assert ms[i].fd.value in Fds(ms);
    }
  }

  lemma {:induction false} MemberMoved(f: Fs, g: Fs, ms: seq<Member>, i: nat, m: Member, base: set<Fd>)
    requires OwnedBy(f, ms, base) && AllHold(f, ms) && i < |ms| && Later(f, g) && MemberHolds(m, g)
    requires if m.fd == ms[i].fd then g.fds.Keys == f.fds.Keys else m.fd.None? && g.fds.Keys == f.fds.Keys - FdSet(ms[i].fd)
    ensures OwnedBy(g, ms[i := m], base) && AllHold(g, ms[i := m])
  {
    OwnerMoved(f, g, ms, i, m, base);
    var ns := ms[i := m];
    forall j | 0 <= j < |ns| ensures MemberHolds(ns[j], g) {
      if j != i {
        assert MemberHolds(ms[j], f);
        if ms[j].fd.Some? {
          assert ms[j].fd.value in Fds(ns);
        }
      }
    }
  }

  method CloseOne(k: Kernel, t: MemberTerminal, ghost ms: seq<Member>, ghost i: nat, ghost base: set<Fd>)
    requires k.Valid() && OwnedBy(k.fs, ms, base) && i < |ms| && ms[i] == t.Now()
    modifies k`fs, t`fd
    ensures k.Valid() && Later(old(k.fs), k.fs) && t.fd.None? && OwnedBy(k.fs, ms[i := t.Now()], base)
    ensures DirectoryOf(k.fs) == DirectoryOf(old(k.fs))
  {
    LaterReflexive(k.fs);
    assert ms == ms[i := ms[i]];
    if t.fd.Some? {
      assert t.fd.value in Fds(ms);
      ghost var f := k.fs;
      k.Close(t.fd.value);
      t.fd := None;
      OwnerMoved(f, k.fs, ms, i, t.Now(), base);
    }
  }

  method CloseTerminals(k: Kernel, ts: seq<MemberTerminal>, ghost base: set<Fd>)
    requires k.Valid() && Apart(ts) && OwnedBy(k.fs, AllNow(ts), base)
    modifies k`fs, ts
    ensures k.Valid() && Later(old(k.fs), k.fs) && k.fs.fds.Keys == base && DirectoryOf(k.fs) == DirectoryOf(old(k.fs))
  {
    hide OwnedBy;
    hide AllNow;
    LaterReflexive(k.fs);
    var i := 0;
    while i < |ts|
      invariant 0 <= i <= |ts| && k.Valid() && OwnedBy(k.fs, AllNow(ts), base) && Later(old(k.fs), k.fs)
      invariant DirectoryOf(k.fs) == DirectoryOf(old(k.fs)) && forall j :: 0 <= j < i ==> AllNow(ts)[j].fd.None?
    {
      ghost var f1, ms := k.fs, AllNow(ts);
      CloseOne(k, ts[i], ms, i, base);
      LaterTransitive(old(k.fs), f1, k.fs);
      assert AllNow(ts) == ms[i := ts[i].Now()];
      i := i + 1;
    }
    NothingOwned(k.fs, AllNow(ts), base);
  }

  lemma {:induction false} NothingOwned(f: Fs, ms: seq<Member>, base: set<Fd>)
    requires OwnedBy(f, ms, base) && forall i :: 0 <= i < |ms| ==> ms[i].fd.None?
    ensures f.fds.Keys == base
  {
    assert Fds(ms) == {};
  }

  // ----- Checking and repairing the whole family -----

  /** What stays of a member that was checked again: pinned on the same object, or, if it is optional
      and its name was looked up and not found, gone. */
  ghost predicate KeptOrGone(before: Member, after: Member, looks: seq<Look>, since: nat) {
    && before.leaf == after.leaf && before.optional == after.optional
    && (|| (after.state == before.state && after.identity == before.identity && after.fd == before.fd && after.serial == before.serial
            && (after.mode == before.mode || ModeSeen(after, looks, since)))
        || (before.optional && before.state.Present? && after.state.Absent? && SeenAbsent(looks, since, before.leaf)))
  }

  ghost predicate AllKept(before: seq<Member>, after: seq<Member>, looks: seq<Look>, since: nat) {
    |before| == |after| && forall i :: 0 <= i < |before| ==> KeptOrGone(before[i], after[i], looks, since)
  }

  /** A present member's result is still that of an inspection. */
  predicate Inspected(m: Member) {
    m.state.Present? ==> m.result.Some? && (m.result.value.state.Private? || m.result.value.state.RepairRequired?)
  }

  predicate AllInspected(ms: seq<Member>) {
    forall i :: 0 <= i < |ms| ==> Inspected(ms[i])
  }

  predicate NoInvalid(ms: seq<Member>) {
    forall i :: 0 <= i < |ms| ==> !ms[i].state.Invalid?
  }

  lemma {:induction false} KeptStep(before: seq<Member>, after: seq<Member>, i: nat, m: Member, looks: seq<Look>, more: seq<Look>, since: nat)
    requires AllKept(before, after, looks, since) && looks <= more && i < |after|
    requires KeptOrGone(before[i], m, more, since) && !m.state.Invalid? && NoInvalid(after)
    ensures AllKept(before, after[i := m], more, since) && NoInvalid(after[i := m])
  {
    LooksGrew(looks, more);
  }

  /** Refresh one member of a family. */
  method RefreshIn(k: Kernel, ts: seq<MemberTerminal>, i: nat, ghost base: set<Fd>) returns (r: Outcome<Option<Stat>>)
    requires Family(k, ts, base) && i < |ts|
    modifies k, ts[i]
    ensures Family(k, ts, base) && Later(old(k.fs), k.fs) && k.chmods == old(k.chmods) && old(k.looks) <= k.looks
    ensures k.quiet ==> DirectoryOf(k.fs) == DirectoryOf(old(k.fs))
    ensures AllNow(ts) == old(AllNow(ts))[i := ts[i].Now()]
    ensures KeptOrGone(old(ts[i].Now()), ts[i].Now(), k.looks, |old(k.looks)|)
    ensures Inspected(old(ts[i].Now())) ==> Inspected(ts[i].Now())
    ensures r.Raise? ==> ts[i].mode == old(ts[i].mode) && ts[i].result == old(ts[i].result)
    ensures r.Ok? && r.value.None? ==> !ts[i].state.Present? && (!old(ts[i].state).Present? ==> ts[i].Now().result == old(ts[i].result))
    ensures r.Ok? && r.value.Some? ==> ts[i].state.Present? && ts[i].mode == Some(r.value.value.mode)
                                       && ts[i].result == Refreshed(old(ts[i].result), r.value.value.mode)
                                       && LastSaw(k.looks, ts[i].leaf, ts[i].identity.value)
    ensures k.quiet && Fits(old(ts[i].Now()), DirectoryOf(k.fs)) ==>
              r.Ok? && (r.value.Some? <==> old(ts[i].state).Present?) && ts[i].identity == old(ts[i].identity)
              && Fits(ts[i].Now(), DirectoryOf(k.fs)) && Current(ts[i].Now(), DirectoryOf(k.fs))
  {
    hide Fits;
    hide Current;
    hide OwnedBy;
    hide AllHold;
    hide FsOk;
    hide AllNow;
    ghost var f, ms := k.fs, AllNow(ts);
    assert ts[i].Holds(k.fs) by { MemberIsHeld(k, ts, i, base); }
    r := Refresh(k, ts[i]);
    MemberMoved(f, k.fs, ms, i, ts[i].Now(), base);
    assert AllNow(ts) == ms[i := ts[i].Now()];
  }

  /** `_raise_invalid_sqlite_terminals`. */
  method FirstInvalid(ts: seq<MemberTerminal>) returns (e: Option<Code>)
    requires forall i :: 0 <= i < |ts| && ts[i].state.Invalid? ==> ts[i].error.Some?
    ensures e.None? <==> NoInvalid(AllNow(ts))
  {
    for i := 0 to |ts|
      invariant forall j :: 0 <= j < i ==> !ts[j].state.Invalid?
    {
      if ts[i].state.Invalid? {
        assert AllNow(ts)[i].state.Invalid?;
        return ts[i].error;
      }
    }
    return None;
  }

  /** `_preflight_sqlite_terminals_at`: every member is checked before any is changed. */
  method Preflight(k: Kernel, ts: seq<MemberTerminal>, requireMain: bool, ghost base: set<Fd>) returns (r: Outcome<Unit>)
    requires Family(k, ts, base) && |ts| > 0 && AllInspected(AllNow(ts))
    modifies k, ts
    ensures Family(k, ts, base) && Later(old(k.fs), k.fs) && k.chmods == old(k.chmods) && old(k.looks) <= k.looks
    ensures k.quiet ==> DirectoryOf(k.fs) == DirectoryOf(old(k.fs))
    ensures AllKept(old(AllNow(ts)), AllNow(ts), k.looks, |old(k.looks)|) && AllInspected(AllNow(ts))
    ensures r.Ok? ==> NoInvalid(AllNow(ts)) && (requireMain ==> !ts[0].state.Absent?)
    ensures k.quiet && Faithful(old(AllNow(ts)), DirectoryOf(k.fs)) ==>
              Faithful(AllNow(ts), DirectoryOf(k.fs))
              && (r.Ok? <==> NoInvalid(old(AllNow(ts))) && !(requireMain && old(ts[0].state).Absent?))
  {
    hide OwnedBy;
    hide AllHold;
    hide AllNow;
    hide KeptOrGone;
    hide Faithful;
    LaterReflexive(k.fs);
    ghost var before, since := AllNow(ts), |k.looks|;
    KeptReflexive(before, k.looks, since);
    InvalidHaveErrors(k.fs, ts);
    var invalid := FirstInvalid(ts);
    if invalid.Some? { return Raise(invalid.value); }
    if requireMain && ts[0].state.Absent? { return Raise(MissingEntry); }
    var i := 0;
    while i < |ts|
      invariant 0 <= i <= |ts| && Preflighted(k, ts, base, before, since, i) && Later(old(k.fs), k.fs)
      invariant k.chmods == old(k.chmods) && old(k.looks) <= k.looks
      invariant k.quiet ==> DirectoryOf(k.fs) == DirectoryOf(old(k.fs))
      invariant k.quiet && Faithful(before, DirectoryOf(k.fs)) ==> Faithful(AllNow(ts), DirectoryOf(k.fs)) && SameStates(before, AllNow(ts))
    {
      ghost var f1 := k.fs;
      var current := PreflightMember(k, ts, i, base, before, since);
      LaterTransitive(old(k.fs), f1, k.fs);
      if current.Raise? { return Raise(current.error); }
      i := i + 1;
    }
    if requireMain && ts[0].state.Absent? { return Raise(MissingEntry); }
    return Ok(Unit);
  }

  predicate SameStates(before: seq<Member>, after: seq<Member>) {
    |before| == |after| && forall i :: 0 <= i < |before| ==> after[i].state == before[i].state
  }

  /** The first i members have been checked again. */
  ghost predicate Preflighted(k: Kernel, ts: seq<MemberTerminal>, base: set<Fd>, before: seq<Member>, since: nat, i: nat)
    reads k, ts
  {
    && Family(k, ts, base) && since <= |k.looks|
    && AllKept(before, AllNow(ts), k.looks, since) && NoInvalid(AllNow(ts)) && AllInspected(AllNow(ts))
    && forall j :: i <= j < |ts| ==> AllNow(ts)[j] == before[j]
  }

  method PreflightMember(k: Kernel, ts: seq<MemberTerminal>, i: nat, ghost base: set<Fd>, ghost before: seq<Member>, ghost since: nat)
    returns (r: Outcome<Option<Stat>>)
    requires i < |ts| && Preflighted(k, ts, base, before, since, i)
    modifies k, ts[i]
    ensures Preflighted(k, ts, base, before, since, i + 1) && Later(old(k.fs), k.fs)
    ensures k.chmods == old(k.chmods) && old(k.looks) <= k.looks
    ensures k.quiet ==> DirectoryOf(k.fs) == DirectoryOf(old(k.fs))
    ensures k.quiet && old(Faithful(AllNow(ts), DirectoryOf(k.fs))) ==>
              r.Ok? && Faithful(AllNow(ts), DirectoryOf(k.fs)) && SameStates(old(AllNow(ts)), AllNow(ts))
  {
    hide OwnedBy;
    hide AllHold;
    hide AllNow;
    hide KeptOrGone;
    hide Fits;
    hide Current;
    ghost var looks, ms := k.looks, AllNow(ts);
    assert Inspected(ms[i]);
    r := RefreshIn(k, ts, i, base);
    KeptSince(before[i], ts[i].Now(), k.looks, |looks|, since);
    StillValid(before[i], ts[i].Now(), k.looks, since);
    KeptStep(before, ms, i, ts[i].Now(), looks, k.looks, since);
  }

  lemma {:induction false} StillValid(before: Member, after: Member, looks: seq<Look>, since: nat)
    requires KeptOrGone(before, after, looks, since) && !before.state.Invalid?
    ensures !after.state.Invalid?
  {
  }

  lemma {:induction false} KeptReflexive(ms: seq<Member>, looks: seq<Look>, since: nat)
    ensures AllKept(ms, ms, looks, since)
  {
  }

  lemma {:induction false} InvalidHasError(f: Fs, m: Member)
    requires MemberHolds(m, f) && m.state.Invalid?
    ensures m.error.Some?
  {
  }

  lemma {:induction false} InvalidHaveErrors(f: Fs, ts: seq<MemberTerminal>)
    requires AllHold(f, AllNow(ts))
    ensures forall i :: 0 <= i < |ts| && ts[i].state.Invalid? ==> ts[i].error.Some?
  {
    hide AllNow;
    forall i | 0 <= i < |ts| && ts[i].state.Invalid? ensures ts[i].error.Some? { InvalidHasError(f, AllNow(ts)[i]); }
  }

  lemma {:induction false} KeptSince(before: Member, after: Member, looks: seq<Look>, since: nat, earlier: nat)
    requires earlier <= since && KeptOrGone(before, after, looks, since)
    ensures KeptOrGone(before, after, looks, earlier)
  {
    SeenSinceEarlier(looks, since, earlier);
  }

  // ----- What a repair makes of an undisturbed directory -----

  predicate InOrder(d: Directory, leaves: seq<Name>) {
    forall i :: 0 <= i < |leaves| ==> Plain(d, leaves[i])
  }

  predicate Reached(d: Directory, leaves: seq<Name>, i: Ino) {
    exists j :: 0 <= j < |leaves| && leaves[j] in d.names && d.names[leaves[j]] == i
  }

  /** The name leads to a file with more than a private mode. */
  predicate Loose(d: Directory, leaf: Name) {
    leaf in d.names && d.names[leaf] in d.table && !IsPrivate(d.table[d.names[leaf]].mode)
  }

  /** Two of the names are links to one loose file. */
  predicate LooseTwice(d: Directory, leaves: seq<Name>) {
    exists i, j :: 0 <= i < j < |leaves| && Loose(d, leaves[j]) && leaves[i] in d.names && d.names[leaves[i]] == d.names[leaves[j]]
  }

  /** Every object that one of the names leads to has lost what is not private of its mode; nothing else has changed. */
  predicate Narrowed(before: Directory, after: Directory, leaves: seq<Name>) {
    && after.names == before.names && after.table.Keys == before.table.Keys
    && forall i :: i in before.table ==>
         after.table[i] == if Reached(before, leaves, i) then before.table[i].(mode := before.table[i].mode & PRIVATE_FILE_MODE)
                           else before.table[i]
  }

  predicate Repairable(d: Directory, leaves: seq<Name>) {
    InOrder(d, leaves) && !LooseTwice(d, leaves)
  }

  /** What an undisturbed repair comes to. */
  predicate RepairOutcome(done: bool, before: Directory, after: Directory, leaves: seq<Name>) {
    && (done <==> Repairable(before, leaves))
    && (done ==> Narrowed(before, after, leaves))
    && (!InOrder(before, leaves) ==> after == before)
  }

  function LeavesOf(ms: seq<Member>): (leaves: seq<Name>)
    ensures |leaves| == |ms| && forall i :: 0 <= i < |ms| ==> leaves[i] == ms[i].leaf
  {
    if ms == [] then [] else LeavesOf(ms[..|ms| - 1]) + [ms[|ms| - 1].leaf]
  }

  /** The members say what the directory says. */
  predicate Faithful(ms: seq<Member>, d: Directory) {
    forall i :: 0 <= i < |ms| ==> Fits(ms[i], d) && Current(ms[i], d)
  }

  lemma {:induction false} FaithfulIsInOrder(ms: seq<Member>, d: Directory)
    requires Faithful(ms, d)
    ensures NoInvalid(ms) <==> InOrder(d, LeavesOf(ms))
  {
    if !NoInvalid(ms) {
      var i :| 0 <= i < |ms| && ms[i].state.Invalid?;
      assert Fits(ms[i], d) && LeavesOf(ms)[i] == ms[i].leaf;
    } else {
      forall i | 0 <= i < |ms| ensures Plain(d, LeavesOf(ms)[i]) { assert Fits(ms[i], d); }
    }
  }

  lemma {:induction false} SameLeaves(before: seq<Member>, after: seq<Member>, looks: seq<Look>, since: nat)
    requires AllKept(before, after, looks, since)
    ensures LeavesOf(after) == LeavesOf(before)
  {
    forall i | 0 <= i < |before| ensures LeavesOf(after)[i] == LeavesOf(before)[i] { assert KeptOrGone(before[i], after[i], looks, since); }
  }

  /** A name whose loose file an earlier name has led to. */
  predicate LooseBefore(d: Directory, leaves: seq<Name>, i: nat)
    requires i < |leaves|
  {
    Loose(d, leaves[i]) && Reached(d, leaves[..i], d.names[leaves[i]])
  }

  lemma {:induction false} LooseBeforeIsTwice(d: Directory, leaves: seq<Name>)
    ensures LooseTwice(d, leaves) <==> exists i :: 0 <= i < |leaves| && LooseBefore(d, leaves, i)
  {
    if LooseTwice(d, leaves) {
      var i, j :| 0 <= i < j < |leaves| && Loose(d, leaves[j]) && leaves[i] in d.names && d.names[leaves[i]] == d.names[leaves[j]];
      assert leaves[..j][i] == leaves[i];
      assert LooseBefore(d, leaves, j);
    }
    if i :| 0 <= i < |leaves| && LooseBefore(d, leaves, i) {
      var j :| 0 <= j < i && leaves[..i][j] in d.names && d.names[leaves[..i][j]] == d.names[leaves[i]];
      assert leaves[j] == leaves[..i][j];
    }
  }

  lemma {:induction false} ReachedMore(d: Directory, leaves: seq<Name>, leaf: Name, i: Ino)
    ensures Reached(d, leaves + [leaf], i) <==> Reached(d, leaves, i) || (leaf in d.names && d.names[leaf] == i)
  {
    var more := leaves + [leaf];
    if Reached(d, leaves, i) {
      var j :| 0 <= j < |leaves| && leaves[j] in d.names && d.names[leaves[j]] == i;
      assert more[j] == leaves[j];
    }
    if leaf in d.names && d.names[leaf] == i { assert more[|leaves|] == leaf; }
  }

  lemma {:induction false} PrivateStays(mode: Mode)
    ensures IsPrivate(mode) <==> PrivatePart(mode) == mode
  {
  }

  /** A member still fits after other members were repaired, and its recorded mode is still its object's
      unless the repair has reached that under another name. */
  lemma {:induction false} StillFits(m: Member, before: Directory, d: Directory, leaves: seq<Name>)
    requires Fits(m, before) && Current(m, before) && Narrowed(before, d, leaves) && (m.state.Present? ==> m.mode.Some?)
    ensures Fits(m, d)
    ensures Current(m, d) <==> !(m.state.Present? && !IsPrivate(m.mode.value) && Reached(before, leaves, m.identity.value))
  {
    if m.state.Present? { PrivateStays(m.mode.value); }
  }

  lemma {:induction false} NarrowedMore(m: Member, before: Directory, d: Directory, leaves: seq<Name>)
    requires Fits(m, before) && Current(m, before) && Narrowed(before, d, leaves) && !m.state.Invalid?
    requires m.state.Present? ==> m.mode.Some? && (RequiresNarrowing(m) <==> !IsPrivate(m.mode.value))
    ensures Narrowed(before, DirectoryAfter(d, m), leaves + [m.leaf])
  {
    var after := DirectoryAfter(d, m);
    if m.state.Present? { PrivateStays(m.mode.value); }
    forall i | i in before.table
      ensures after.table[i] == if Reached(before, leaves + [m.leaf], i) then before.table[i].(mode := before.table[i].mode & PRIVATE_FILE_MODE)
                                else before.table[i]
    {
      ReachedMore(before, leaves, m.leaf, i);
    }
  }

  // ----- Repair -----

  function RequiresNarrowing(m: Member): bool {
    m.state.Present? && m.result.Some? && m.result.value.state.RepairRequired?
  }

  /** This change narrows one of the members, through the descriptor that pinned it. */
  ghost predicate NarrowsSome(change: ModeChange, ms: seq<Member>) {
    exists i :: 0 <= i < |ms| && ms[i].state.Present? && ms[i].fd.Some? && ms[i].mode.Some?
                && NarrowsOnly(change, ms[i].serial, ms[i].fd.value, ms[i].mode.value)
  }

  ghost predicate AllNarrow(changes: seq<ModeChange>, since: nat, ms: seq<Member>) {
    forall c :: since <= c < |changes| ==> NarrowsSome(changes[c], ms)
  }

  /** What a repaired member ends as: with the private part of the mode recorded of it, and reported as repaired exactly
      if that had more; or an optional one gone. */
  predicate RepairedTo(before: Member, m: Member) {
    && m.result.Some?
    && (m.state.Present? ==> before.mode.Some? && m.mode == Some(PrivatePart(before.mode.value)) && IsPrivate(m.mode.value)
                             && m.result.value == PermissionResult(if IsPrivate(before.mode.value) then Private else Repaired, m.mode))
    && (m.state.Absent? ==> m.result.value == PermissionResult(AbsentEntry, None))
    && !m.state.Invalid?
  }

  predicate AllRepairedTo(before: seq<Member>, after: seq<Member>) {
    |before| == |after| && forall i :: 0 <= i < |before| ==> RepairedTo(before[i], after[i])
  }

  method NarrowIn(k: Kernel, ts: seq<MemberTerminal>, i: nat, ghost base: set<Fd>) returns (r: Outcome<Unit>)
    requires Family(k, ts, base) && i < |ts| && ts[i].state.Present?
    modifies k, ts[i]
    ensures Family(k, ts, base) && Later(old(k.fs), k.fs) && old(k.looks) <= k.looks
    ensures old(k.chmods) <= k.chmods
            && OnlyNarrowed(k.chmods, |old(k.chmods)|, old(ts[i].serial), old(ts[i].fd).value, old(ts[i].mode).value)
    ensures AllNow(ts) == old(AllNow(ts))[i := ts[i].Now()]
    ensures KeptOrGone(old(ts[i].Now()), ts[i].Now(), k.looks, |old(k.looks)|)
    ensures k.quiet && old(Fits(ts[i].Now(), DirectoryOf(k.fs)) && Current(ts[i].Now(), DirectoryOf(k.fs))) ==>
              r.Ok? && ts[i].state.Present?
              && DirectoryOf(k.fs) == WithMode(DirectoryOf(old(k.fs)), old(ts[i].identity).value, PrivatePart(old(ts[i].mode).value))
  {
    hide Fits;
    hide Current;
    hide PrivatePart;
    hide WithMode;
    hide OwnedBy;
    hide AllHold;
    hide AllNow;
    ghost var f, ms := k.fs, AllNow(ts);
    assert ts[i].Holds(k.fs) by { MemberIsHeld(k, ts, i, base); }
    r := Narrow(k, ts[i]);
    MemberMoved(f, k.fs, ms, i, ts[i].Now(), base);
    assert AllNow(ts) == ms[i := ts[i].Now()];
  }

  /** The directory once this member is repaired. */
  function DirectoryAfter(d: Directory, m: Member): Directory {
    if RequiresNarrowing(m) && m.identity.Some? && m.mode.Some? then WithMode(d, m.identity.value, PrivatePart(m.mode.value)) else d
  }

  /** The loop body of `_repair_sqlite_terminals_at`. */
  method RepairMember(k: Kernel, ts: seq<MemberTerminal>, i: nat, ghost base: set<Fd>) returns (r: Outcome<bool>)
    requires Family(k, ts, base) && i < |ts| && !ts[i].state.Invalid? && Inspected(ts[i].Now())
    modifies k, ts[i]
    ensures Family(k, ts, base) && Later(old(k.fs), k.fs) && old(k.looks) <= k.looks
    ensures old(k.chmods) <= k.chmods && AllNarrow(k.chmods, |old(k.chmods)|, [old(ts[i].Now())])
    ensures AllNow(ts) == old(AllNow(ts))[i := ts[i].Now()]
    ensures KeptOrGone(old(ts[i].Now()), ts[i].Now(), k.looks, |old(k.looks)|)
    ensures r.Ok? ==> RepairedTo(old(ts[i].Now()), ts[i].Now())
    ensures k.quiet && old(Fits(ts[i].Now(), DirectoryOf(k.fs))) ==>
              && (r.Ok? <==> old(Current(ts[i].Now(), DirectoryOf(k.fs))))
              && (r.Ok? ==> DirectoryOf(k.fs) == DirectoryAfter(DirectoryOf(old(k.fs)), old(ts[i].Now())))
  {
    hide OwnedBy;
    hide AllHold;
    hide AllNow;
    hide Fits;
    hide Current;
    hide WithMode;
    hide PrivatePart;
    hide KeptOrGone;
    hide RepairedTo;
    ghost var f0, since, ms := k.fs, |k.looks|, AllNow(ts);
    MemberIsHeld(k, ts, i, base);
    HeldMode(ts[i].Now(), k.fs);
    hide IsPrivate;
    hide Later;
    var expected, repaired := ts[i].mode, ts[i].state.Present? && ts[i].result.value.state.RepairRequired?;
    var recorded := CheckRecorded(k, ts, i, base);
    if recorded.Raise? { return Raise(recorded.error); }
    if !recorded.value { return Ok(false); }
    r := NarrowAndFinish(k, ts, i, base, expected.value, repaired, f0, ms, since);
  }

  /** True: the member shows the mode recorded of it; false: there is none. */
  method CheckRecorded(k: Kernel, ts: seq<MemberTerminal>, i: nat, ghost base: set<Fd>) returns (r: Outcome<bool>)
    requires Family(k, ts, base) && i < |ts| && !ts[i].state.Invalid?
    modifies k, ts[i]
    ensures Family(k, ts, base) && Later(old(k.fs), k.fs) && old(k.looks) <= k.looks && k.chmods == old(k.chmods)
    ensures k.quiet ==> DirectoryOf(k.fs) == DirectoryOf(old(k.fs))
    ensures AllNow(ts) == old(AllNow(ts))[i := ts[i].Now()]
    ensures KeptOrGone(old(ts[i].Now()), ts[i].Now(), k.looks, |old(k.looks)|)
    ensures r == Ok(true) ==> old(ts[i].state).Present? && ts[i].state.Present? && ts[i].mode == old(ts[i].mode)
    ensures r == Ok(false) ==> RepairedTo(old(ts[i].Now()), ts[i].Now())
    ensures k.quiet && Fits(old(ts[i].Now()), DirectoryOf(k.fs)) ==>
              && (r.Ok? <==> Current(old(ts[i].Now()), DirectoryOf(k.fs)))
              && (r.Ok? ==> (r.value <==> old(ts[i].state).Present?) && ts[i].identity == old(ts[i].identity)
                            && Fits(ts[i].Now(), DirectoryOf(k.fs)) && Current(ts[i].Now(), DirectoryOf(k.fs)))
  {
    hide OwnedBy;
    hide AllHold;
    hide AllNow;
    ghost var m, d := ts[i].Now(), DirectoryOf(k.fs);
    if Fits(m, d) { FitsPlainly(m, d); }
    hide Fits;
    MemberIsHeld(k, ts, i, base);
    var expected := ts[i].mode;
    var current := RefreshIn(k, ts, i, base);
    if current.Raise? { return Raise(current.error); }
    MemberIsHeld(k, ts, i, base);
    if current.value.None? { return Ok(false); }
    return if ts[i].mode != expected then Raise(EntryChanged) else Ok(true);
  }

  lemma {:induction false} FitsPlainly(m: Member, d: Directory)
    requires Fits(m, d)
    ensures m.state.Present? ==> m.identity.Some? && m.identity.value in d.table && LeadsTo(d, m.leaf, m.identity.value)
  {
  }

  /** Narrow the member if that is needed, and check it for the last time. */
  method NarrowAndFinish(k: Kernel, ts: seq<MemberTerminal>, i: nat, ghost base: set<Fd>, expected: Mode, repaired: bool,
                         ghost start: Fs, ghost ms: seq<Member>, ghost since: nat) returns (r: Outcome<bool>)
    requires Family(k, ts, base) && i < |ts| && FsOk(start) && Later(start, k.fs) && since <= |k.looks|
    requires |ms| == |ts| && AllNow(ts) == ms[i := ts[i].Now()] && KeptOrGone(ms[i], ts[i].Now(), k.looks, since)
    requires ms[i].state.Present? && ms[i].mode == Some(expected) && (repaired <==> !IsPrivate(expected))
    requires ts[i].state.Present? && ts[i].mode == Some(expected) && ms[i].fd.Some? && ms[i].identity.Some?
    modifies k, ts[i]
    ensures Family(k, ts, base) && Later(start, k.fs) && old(k.looks) <= k.looks
    ensures old(k.chmods) <= k.chmods && AllNarrow(k.chmods, |old(k.chmods)|, [ms[i]])
    ensures AllNow(ts) == ms[i := ts[i].Now()] && KeptOrGone(ms[i], ts[i].Now(), k.looks, since)
    ensures r.Ok? ==> RepairedTo(ms[i], ts[i].Now())
    ensures k.quiet && old(Fits(ts[i].Now(), DirectoryOf(k.fs)) && Current(ts[i].Now(), DirectoryOf(k.fs))) ==>
              && r.Ok? && old(ts[i].identity).Some?
              && DirectoryOf(k.fs) == if repaired then WithMode(DirectoryOf(old(k.fs)), old(ts[i].identity).value, PrivatePart(expected))
                                      else DirectoryOf(old(k.fs))
  {
    hide OwnedBy;
    hide AllHold;
    hide AllNow;
    hide PrivatePart;
    hide IsPrivate;
    hide RepairedTo;
    ghost var f1, looks1, changes, m1 := k.fs, k.looks, |k.chmods|, ts[i].Now();
    if Fits(m1, DirectoryOf(f1)) && Current(m1, DirectoryOf(f1)) { ChangedFits(m1, DirectoryOf(f1)); }
    hide Fits;
    hide Current;
    hide Shows;
    hide WithMode;
    if repaired {
      var narrowed := NarrowIn(k, ts, i, base);
      LaterTransitive(start, f1, k.fs);
      KeptTwice(ms[i], m1, ts[i].Now(), looks1, k.looks, since);
      NarrowedIsSome(k.chmods, changes, [ms[i]], 0);
      if narrowed.Raise? { return Raise(narrowed.error); }
    }
    hide Later;
    hide KeptOrGone;
    ghost var f2 := k.fs;
    r := FinishMember(k, ts, i, base, expected, repaired, ms, since);
    LaterTransitive(start, f2, k.fs);
  }

  /** A member that shows its mode fits, and shows, any other mode once it has that. */
  lemma {:induction false} ChangedFits(m: Member, d: Directory)
    requires m.state.Present? && m.mode.Some? && Fits(m, d) && Current(m, d)
    ensures m.identity.Some? && Shows(d, m.leaf, m.identity.value, m.mode.value)
    ensures forall to: Mode :: Shows(WithMode(d, m.identity.value, to), m.leaf, m.identity.value, to)
                               && Fits(m, WithMode(d, m.identity.value, to))
  {
  }

  lemma {:induction false} MemberIsHeld(k: Kernel, ts: seq<MemberTerminal>, i: nat, base: set<Fd>)
    requires Family(k, ts, base) && i < |ts|
    ensures MemberHolds(ts[i].Now(), k.fs)
  {
    assert MemberHolds(AllNow(ts)[i], k.fs);
  }

  lemma {:induction false} NarrowedIsSome(changes: seq<ModeChange>, since: nat, ms: seq<Member>, i: nat)
    requires i < |ms| && ms[i].state.Present? && ms[i].fd.Some? && ms[i].mode.Some?
    requires OnlyNarrowed(changes, since, ms[i].serial, ms[i].fd.value, ms[i].mode.value)
    ensures AllNarrow(changes, since, ms)
  {
    forall c | since <= c < |changes| ensures NarrowsSome(changes[c], ms) {
      assert NarrowsOnly(changes[c], ms[i].serial, ms[i].fd.value, ms[i].mode.value);
    }
  }

  lemma {:induction false} KeptTwice(a: Member, b: Member, c: Member, looks: seq<Look>, more: seq<Look>, since: nat)
    requires since <= |looks| && looks <= more && KeptOrGone(a, b, looks, since) && KeptOrGone(b, c, more, |looks|)
    ensures KeptOrGone(a, c, more, since)
  {
    LooksGrew(looks, more);
    SeenSinceEarlier(more, |looks|, since);
  }

  lemma {:induction false} KeptWhateverReported(a: Member, b: Member, result: Option<PermissionResult>, looks: seq<Look>, since: nat)
    requires KeptOrGone(a, b, looks, since)
    ensures KeptOrGone(a, b.(result := result), looks, since)
  {
  }

  function FinalMode(expected: Mode, repaired: bool): Mode {
    if repaired then PrivatePart(expected) else expected
  }

  /** The check after narrowing, and the member's result. */
  method FinishMember(k: Kernel, ts: seq<MemberTerminal>, i: nat, ghost base: set<Fd>, expected: Mode, repaired: bool,
                      ghost ms: seq<Member>, ghost since: nat) returns (r: Outcome<bool>)
    requires Family(k, ts, base) && i < |ts| && since <= |k.looks|
    requires |ms| == |ts| && AllNow(ts) == ms[i := ts[i].Now()] && KeptOrGone(ms[i], ts[i].Now(), k.looks, since)
    requires ms[i].state.Present? && ms[i].mode == Some(expected) && (repaired <==> !IsPrivate(expected))
    modifies k, ts[i]
    ensures Family(k, ts, base) && Later(old(k.fs), k.fs) && old(k.looks) <= k.looks && k.chmods == old(k.chmods)
    ensures k.quiet ==> DirectoryOf(k.fs) == DirectoryOf(old(k.fs))
    ensures AllNow(ts) == ms[i := ts[i].Now()] && KeptOrGone(ms[i], ts[i].Now(), k.looks, since)
    ensures r.Ok? ==> RepairedTo(ms[i], ts[i].Now())
    ensures k.quiet && Fits(old(ts[i].Now()), DirectoryOf(k.fs)) && old(ts[i].state).Present?
            && Shows(DirectoryOf(k.fs), ts[i].leaf, old(ts[i].identity).value, FinalMode(expected, repaired)) ==>
              r.Ok?
  {
    hide OwnedBy;
    hide AllHold;
    hide AllNow;
    hide Fits;
    hide IsPrivate;
    hide PrivatePart;
    hide KeptOrGone;
    hide Later;
    hide ModeSeen;
    hide SeenAbsent;
    hide LastSaw;
    hide MemberHolds;
    ghost var looks1, m1 := k.looks, ts[i].Now();
    var current := RefreshIn(k, ts, i, base);
    KeptTwice(ms[i], m1, ts[i].Now(), looks1, k.looks, since);
    if current.Raise? { return Raise(current.error); }
    MemberIsHeld(k, ts, i, base);
    if current.value.None? { return Ok(repaired); }
    var final := current.value.value.mode;
    if final != FinalMode(expected, repaired) { return Raise(EntryChanged); }
    NarrowedIsPrivate(expected);
    KeptWhateverReported(ms[i], ts[i].Now(), Some(PermissionResult(if repaired then Repaired else Private, Some(final))), k.looks, since);
    SetResult(k, ts, i, base, if repaired then Repaired else Private, final, ms[i]);
    return Ok(repaired);
  }

  method SetResult(k: Kernel, ts: seq<MemberTerminal>, i: nat, ghost base: set<Fd>, state: PermissionState, final: Mode, ghost before: Member)
    requires Family(k, ts, base) && i < |ts| && ts[i].state.Present? && ts[i].mode == Some(final)
    requires before.mode.Some? && final == PrivatePart(before.mode.value) && IsPrivate(final)
    requires state == if IsPrivate(before.mode.value) then Private else Repaired
    modifies ts[i]
    ensures Family(k, ts, base) && AllNow(ts) == old(AllNow(ts))[i := ts[i].Now()]
    ensures ts[i].Now() == old(ts[i].Now()).(result := Some(PermissionResult(state, Some(final)))) && RepairedTo(before, ts[i].Now())
  {
    ghost var ms := AllNow(ts);
    assert MemberHolds(ms[i], k.fs);
    ts[i].result := Some(PermissionResult(state, Some(final)));
    LaterReflexive(k.fs);
    MemberMoved(k.fs, k.fs, ms, i, ts[i].Now(), base);
    assert AllNow(ts) == ms[i := ts[i].Now()];
  }

  lemma {:induction false} NarrowedIsPrivate(mode: Mode)
    ensures IsPrivate(PrivatePart(mode)) && (IsPrivate(mode) ==> PrivatePart(mode) == mode)
  {
  }

  lemma {:induction false} LiftNarrow(changes: seq<ModeChange>, since: nat, ms: seq<Member>, i: nat)
    requires i < |ms| && AllNarrow(changes, since, [ms[i]])
    ensures AllNarrow(changes, since, ms)
  {
    forall c | since <= c < |changes| ensures NarrowsSome(changes[c], ms) {
      assert NarrowsSome(changes[c], [ms[i]]);
    }
  }

  lemma {:induction false} NarrowAppended(changes: seq<ModeChange>, more: seq<ModeChange>, since: nat, ms: seq<Member>)
    requires changes <= more && since <= |changes| && AllNarrow(changes, since, ms) && AllNarrow(more, |changes|, ms)
    ensures AllNarrow(more, since, ms)
  {
    forall c | since <= c < |more| ensures NarrowsSome(more[c], ms) {
      if c < |changes| { assert NarrowsSome(changes[c], ms); }
    }
  }

  function ResultsOf(ms: seq<Member>): seq<PermissionResult> {
    if ms == [] then []
    else ResultsOf(ms[..|ms| - 1]) + if ms[|ms| - 1].result.Some? then [ms[|ms| - 1].result.value] else []
  }

  method Results(ts: seq<MemberTerminal>) returns (results: seq<PermissionResult>)
    ensures results == ResultsOf(AllNow(ts))
  {
    results := [];
    for i := 0 to |ts|
      invariant results == ResultsOf(AllNow(ts)[..i])
    {
      assert AllNow(ts)[..i + 1][..i] == AllNow(ts)[..i];
      if ts[i].result.Some? { results := results + [ts[i].result.value]; }
    }
    assert AllNow(ts)[..|ts|] == AllNow(ts);
  }

  /** `_repair_sqlite_terminals_at`. */
  method RepairTerminals(k: Kernel, ts: seq<MemberTerminal>, ghost base: set<Fd>) returns (r: Outcome<seq<PermissionResult>>)
    requires Family(k, ts, base) && NoInvalid(AllNow(ts)) && AllInspected(AllNow(ts))
    modifies k, ts
    ensures Family(k, ts, base) && Later(old(k.fs), k.fs) && old(k.looks) <= k.looks
    ensures old(k.chmods) <= k.chmods && AllNarrow(k.chmods, |old(k.chmods)|, old(AllNow(ts)))
    ensures AllKept(old(AllNow(ts)), AllNow(ts), k.looks, |old(k.looks)|)
    ensures r.Ok? ==> r.value == ResultsOf(AllNow(ts)) && AllRepairedTo(old(AllNow(ts)), AllNow(ts))
    ensures k.quiet && old(Faithful(AllNow(ts), DirectoryOf(k.fs))) ==>
              RepairOutcome(r.Ok?, DirectoryOf(old(k.fs)), DirectoryOf(k.fs), LeavesOf(old(AllNow(ts))))
  {
    hide OwnedBy;
    hide AllHold;
    hide AllNow;
    hide KeptOrGone;
    hide RepairedTo;
    hide NarrowsSome;
    hide Faithful;
    hide Later;
    hide RepairOutcome;
    var changed := RepairEach(k, ts, base);
    if changed.Raise? { return Raise(changed.error); }
    ghost var f1 := k.fs;
    if changed.value {
      var synced := SyncIn(k, ts, base);
      LaterTransitive(old(k.fs), f1, k.fs);
      if synced.Raise? { return Raise(synced.error); }
    }
    var results := Results(ts);
    return Ok(results);
  }

  /** Repair member after member. True: some mode was changed. */
  method RepairEach(k: Kernel, ts: seq<MemberTerminal>, ghost base: set<Fd>) returns (r: Outcome<bool>)
    requires Family(k, ts, base) && NoInvalid(AllNow(ts)) && AllInspected(AllNow(ts))
    modifies k, ts
    ensures Family(k, ts, base) && Later(old(k.fs), k.fs) && old(k.looks) <= k.looks
    ensures old(k.chmods) <= k.chmods && AllNarrow(k.chmods, |old(k.chmods)|, old(AllNow(ts)))
    ensures AllKept(old(AllNow(ts)), AllNow(ts), k.looks, |old(k.looks)|)
    ensures r.Ok? ==> AllRepairedTo(old(AllNow(ts)), AllNow(ts))
    ensures k.quiet && old(Faithful(AllNow(ts), DirectoryOf(k.fs))) ==>
              RepairOutcome(r.Ok?, DirectoryOf(old(k.fs)), DirectoryOf(k.fs), LeavesOf(old(AllNow(ts))))
  {
    hide OwnedBy;
    hide AllHold;
    hide AllNow;
    hide KeptOrGone;
    hide RepairedTo;
    hide NarrowsSome;
    hide Faithful;
    LaterReflexive(k.fs);
    hide Later;
    ghost var before, since, changes, d0 := AllNow(ts), |k.looks|, |k.chmods|, DirectoryOf(k.fs);
    KeptReflexive(before, k.looks, since);
    NothingRepairedYet(before, d0);
    hide QuietlyRepaired;
    hide RepairOutcome;
    hide LooseTwice;
    var changed := false;
    for i := 0 to |ts|
      invariant PartlyRepaired(k, ts, base, before, since, changes, i) && Later(old(k.fs), k.fs)
      invariant old(k.looks) <= k.looks && old(k.chmods) <= k.chmods
      invariant k.quiet && Faithful(before, d0) ==> QuietlyRepaired(before, d0, DirectoryOf(k.fs), i)
    {
      ghost var f1 := k.fs;
      var repaired := RepairNext(k, ts, i, base, before, since, changes, d0);
      LaterTransitive(old(k.fs), f1, k.fs);
      if repaired.Raise? {
        if k.quiet && Faithful(before, d0) { NotAllRepaired(before, d0, DirectoryOf(k.fs)); }
        return Raise(repaired.error);
      }
      changed := changed || repaired.value;
    }
    if k.quiet && Faithful(before, d0) { AllRepaired(before, d0, DirectoryOf(k.fs)); }
    return Ok(changed);
  }

  lemma {:induction false} NothingRepairedYet(before: seq<Member>, d: Directory)
    ensures QuietlyRepaired(before, d, d, 0)
  {
  }

  lemma {:induction false} AllRepaired(before: seq<Member>, d0: Directory, d: Directory)
    requires QuietlyRepaired(before, d0, d, |before|) && Faithful(before, d0) && NoInvalid(before)
    ensures RepairOutcome(true, d0, d, LeavesOf(before))
  {
    FaithfulIsInOrder(before, d0);
    LooseBeforeIsTwice(d0, LeavesOf(before));
    assert LeavesOf(before)[..|before|] == LeavesOf(before);
  }

  lemma {:induction false} NotAllRepaired(before: seq<Member>, d0: Directory, d: Directory)
    requires Faithful(before, d0) && NoInvalid(before) && LooseTwice(d0, LeavesOf(before))
    ensures RepairOutcome(false, d0, d, LeavesOf(before))
  {
    FaithfulIsInOrder(before, d0);
  }

  /** The first i members have been repaired, the others not yet touched. */
  ghost predicate PartlyRepaired(k: Kernel, ts: seq<MemberTerminal>, base: set<Fd>, before: seq<Member>, since: nat, changes: nat, i: nat)
    reads k, ts
  {
    && RepairBroken(k, ts, base, before, since, changes)
    && AllInspected(before)
    && (forall j :: i <= j < |ts| ==> AllNow(ts)[j] == before[j])
    && (forall j :: 0 <= j < i && j < |ts| ==> RepairedTo(before[j], AllNow(ts)[j]))
  }

  ghost predicate RepairBroken(k: Kernel, ts: seq<MemberTerminal>, base: set<Fd>, before: seq<Member>, since: nat, changes: nat)
    reads k, ts
  {
    && Family(k, ts, base) && since <= |k.looks| && changes <= |k.chmods|
    && AllNarrow(k.chmods, changes, before) && AllKept(before, AllNow(ts), k.looks, since) && NoInvalid(AllNow(ts))
  }

  /** After i members of an undisturbed repair: what they lead to is narrowed, and none of them led to a loose file
      that an earlier one led to. */
  ghost predicate QuietlyRepaired(before: seq<Member>, d0: Directory, d: Directory, i: nat) {
    i <= |before| && Narrowed(d0, d, LeavesOf(before)[..i]) && forall j :: 0 <= j < i ==> !LooseBefore(d0, LeavesOf(before), j)
  }

  lemma {:induction false} NextRepaired(k: Kernel, ts: seq<MemberTerminal>, base: set<Fd>, before: seq<Member>, d0: Directory, i: nat)
    requires Family(k, ts, base) && i < |ts| == |before| && before[i] == ts[i].Now() && !before[i].state.Invalid? && Inspected(before[i])
    requires Faithful(before, d0) && QuietlyRepaired(before, d0, DirectoryOf(k.fs), i)
    ensures Fits(before[i], DirectoryOf(k.fs))
    ensures if Current(before[i], DirectoryOf(k.fs)) then QuietlyRepaired(before, d0, DirectoryAfter(DirectoryOf(k.fs), before[i]), i + 1)
            else LooseTwice(d0, LeavesOf(before))
  {
    hide OwnedBy;
    hide AllHold;
    hide AllNow;
    hide Fits;
    hide Current;
    hide Narrowed;
    hide Reached;
    hide LooseTwice;
    hide DirectoryAfter;
    var m, d, leaves := before[i], DirectoryOf(k.fs), LeavesOf(before);
    MemberIsHeld(k, ts, i, base);
    HeldMode(m, k.fs);
    assert Fits(m, d0) && Current(m, d0);
    StillFits(m, d0, d, leaves[..i]);
    LooseNow(m, d0, leaves, i);
    LooseBeforeIsTwice(d0, leaves);
    NarrowedMore(m, d0, d, leaves[..i]);
    assert leaves[..i + 1] == leaves[..i] + [m.leaf];
  }

  lemma {:induction false} HeldMode(m: Member, f: Fs)
    requires MemberHolds(m, f) && Inspected(m)
    ensures m.state.Present? ==> m.mode.Some? && (RequiresNarrowing(m) <==> !IsPrivate(m.mode.value))
  {
  }

  lemma {:induction false} LooseNow(m: Member, d: Directory, leaves: seq<Name>, i: nat)
    requires i < |leaves| && m.leaf == leaves[i] && Fits(m, d) && Current(m, d) && !m.state.Invalid? && (m.state.Present? ==> m.mode.Some?)
    ensures LooseBefore(d, leaves, i) <==> m.state.Present? && !IsPrivate(m.mode.value) && Reached(d, leaves[..i], m.identity.value)
  {
  }

  method RepairNext(k: Kernel, ts: seq<MemberTerminal>, i: nat, ghost base: set<Fd>, ghost before: seq<Member>, ghost since: nat,
                    ghost changes: nat, ghost d0: Directory) returns (r: Outcome<bool>)
    requires i < |ts| && PartlyRepaired(k, ts, base, before, since, changes, i)
    requires (k.quiet && Faithful(before, d0) ==> QuietlyRepaired(before, d0, DirectoryOf(k.fs), i))
    modifies k, ts[i]
    ensures RepairBroken(k, ts, base, before, since, changes) && Later(old(k.fs), k.fs)
    ensures r.Ok? ==> PartlyRepaired(k, ts, base, before, since, changes, i + 1)
    ensures old(k.looks) <= k.looks && old(k.chmods) <= k.chmods
    ensures k.quiet && Faithful(before, d0) ==> if r.Ok? then QuietlyRepaired(before, d0, DirectoryOf(k.fs), i + 1)
                                                else LooseTwice(d0, LeavesOf(before))
  {
    hide OwnedBy;
    hide AllHold;
    hide AllNow;
    hide KeptOrGone;
    hide RepairedTo;
    hide NarrowsSome;
    hide Later;
    ghost var looks, ms, cs := k.looks, AllNow(ts), k.chmods;
    assert Inspected(before[i]) && ms[i] == before[i];
    if k.quiet && Faithful(before, d0) { NextRepaired(k, ts, base, before, d0, i); }
    hide QuietlyRepaired;
    hide Faithful;
    hide Fits;
    hide Current;
    hide DirectoryAfter;
    hide LooseTwice;
    r := RepairMember(k, ts, i, base);
    LiftNarrow(k.chmods, |cs|, before, i);
    NarrowAppended(cs, k.chmods, changes, before);
    KeptSince(before[i], ts[i].Now(), k.looks, |looks|, since);
    StillValid(before[i], ts[i].Now(), k.looks, since);
    KeptStep(before, ms, i, ts[i].Now(), looks, k.looks, since);
  }

  /** A call that only can fail leaves the family as it is. */
  method SyncIn(k: Kernel, ts: seq<MemberTerminal>, ghost base: set<Fd>) returns (r: Outcome<Unit>)
    requires Family(k, ts, base)
    modifies k`fs, k`script
    ensures Family(k, ts, base) && Later(old(k.fs), k.fs) && (r == Ok(Unit) || r == Raise(OperationFailed))
    ensures k.quiet ==> r.Ok? && DirectoryOf(k.fs) == DirectoryOf(old(k.fs))
  {
    ghost var f, ms := k.fs, AllNow(ts);
    r := k.Sync();
    FamilyStays(f, k.fs, ms, base);
  }

  lemma {:induction false} FamilyStays(f: Fs, g: Fs, ms: seq<Member>, base: set<Fd>)
    requires OwnedBy(f, ms, base) && AllHold(f, ms) && Later(f, g) && f.fds.Keys == g.fds.Keys
    ensures OwnedBy(g, ms, base) && AllHold(g, ms)
  {
    forall i | 0 <= i < |ms| ensures MemberHolds(ms[i], g) { assert MemberHolds(ms[i], f); }
  }

  method AnyRequiresNarrowing(ts: seq<MemberTerminal>) returns (any: bool)
    ensures any <==> exists i :: 0 <= i < |ts| && RequiresNarrowing(AllNow(ts)[i])
  {
    for i := 0 to |ts|
      invariant forall j :: 0 <= j < i ==> !RequiresNarrowing(AllNow(ts)[j])
    {
      if ts[i].state.Present? && ts[i].result.Some? && ts[i].result.value.state.RepairRequired? {
        assert RequiresNarrowing(AllNow(ts)[i]);
        return true;
      }
    }
    return false;
  }

  lemma {:induction false} AllKeptTwice(a: seq<Member>, b: seq<Member>, c: seq<Member>, looks: seq<Look>, more: seq<Look>, since: nat)
    requires since <= |looks| && looks <= more && AllKept(a, b, looks, since) && AllKept(b, c, more, |looks|)
    ensures AllKept(a, c, more, since)
  {
    forall i | 0 <= i < |a| ensures KeptOrGone(a[i], c[i], more, since) {
      KeptTwice(a[i], b[i], c[i], looks, more, since);
    }
  }

  /** What a repair of these members did: it narrowed only objects pinned by them, as recorded in
      `pins` after the last check before the first change, and kept or retired each member. */
  ghost predicate RepairedFrom(before: seq<Member>, pins: seq<Member>, after: seq<Member>, looks: seq<Look>, since: nat,
                               changes: seq<ModeChange>, changed: nat) {
    && AllKept(before, pins, looks, since) && AllKept(before, after, looks, since)
    && AllNarrow(changes, changed, pins)
  }

  /** `_repair_sqlite_terminals_with_authority_at`: the lock is taken only if something must change,
      and everything is checked again under it. */
  method RepairWithAuthority(k: Kernel, ts: seq<MemberTerminal>, ghost base: set<Fd>)
    returns (r: Outcome<seq<PermissionResult>>, ghost pins: seq<Member>)
    requires Family(k, ts, base) && |ts| > 0 && AllInspected(AllNow(ts))
    modifies k, ts
    ensures Family(k, ts, base) && Later(old(k.fs), k.fs) && old(k.looks) <= k.looks && old(k.chmods) <= k.chmods
    ensures RepairedFrom(old(AllNow(ts)), pins, AllNow(ts), k.looks, |old(k.looks)|, k.chmods, |old(k.chmods)|)
    ensures r.Ok? ==> r.value == ResultsOf(AllNow(ts)) && AllRepairedTo(pins, AllNow(ts))
    ensures k.quiet && old(Faithful(AllNow(ts), DirectoryOf(k.fs))) ==>
              RepairOutcome(r.Ok?, DirectoryOf(old(k.fs)), DirectoryOf(k.fs), LeavesOf(old(AllNow(ts))))
  {
    hide OwnedBy;
    hide AllHold;
    hide AllNow;
    hide KeptOrGone;
    hide Faithful;
    LaterReflexive(k.fs);
    ghost var before := AllNow(ts);
    if Faithful(before, DirectoryOf(k.fs)) { FaithfulIsInOrder(before, DirectoryOf(k.fs)); }
    hide InOrder;
    hide LooseTwice;
    hide Narrowed;
    pins := before;
    KeptReflexive(before, k.looks, |k.looks|);
    InvalidHaveErrors(k.fs, ts);
    var invalid := FirstInvalid(ts);
    if invalid.Some? { return Raise(invalid.value), pins; }
    var any := AnyRequiresNarrowing(ts);
    if !any {
      r := RepairTerminals(k, ts, base);
      KeptReflexive(before, k.looks, |old(k.looks)|);
      return;
    }
    r, pins := RepairLocked(k, ts, base);
  }

  method RepairLocked(k: Kernel, ts: seq<MemberTerminal>, ghost base: set<Fd>)
    returns (r: Outcome<seq<PermissionResult>>, ghost pins: seq<Member>)
    requires Family(k, ts, base) && |ts| > 0 && AllInspected(AllNow(ts))
    modifies k, ts
    ensures Family(k, ts, base) && Later(old(k.fs), k.fs) && old(k.looks) <= k.looks && old(k.chmods) <= k.chmods
    ensures RepairedFrom(old(AllNow(ts)), pins, AllNow(ts), k.looks, |old(k.looks)|, k.chmods, |old(k.chmods)|)
    ensures r.Ok? ==> r.value == ResultsOf(AllNow(ts)) && AllRepairedTo(pins, AllNow(ts))
    ensures k.quiet && old(Faithful(AllNow(ts), DirectoryOf(k.fs))) ==>
              RepairOutcome(r.Ok?, DirectoryOf(old(k.fs)), DirectoryOf(k.fs), LeavesOf(old(AllNow(ts))))
  {
    hide OwnedBy;
    hide AllHold;
    hide AllNow;
    hide KeptOrGone;
    hide Later;
    hide Faithful;
    hide RepairOutcome;
    pins := AllNow(ts);
    KeptReflexive(pins, k.looks, |k.looks|);
    var locked := SyncIn(k, ts, base);
    if locked.Raise? { return Raise(locked.error), pins; }
    ghost var f1 := k.fs;
    r, pins := CheckAndRepair(k, ts, base);
    LaterTransitive(old(k.fs), f1, k.fs);
    ghost var f2 := k.fs;
    var unlocked := SyncIn(k, ts, base);
    LaterTransitive(old(k.fs), f2, k.fs);
    if unlocked.Raise? { r := Raise(unlocked.error); }
  }

  /** Under the lock: check everything again, then repair. */
  method CheckAndRepair(k: Kernel, ts: seq<MemberTerminal>, ghost base: set<Fd>)
    returns (r: Outcome<seq<PermissionResult>>, ghost pins: seq<Member>)
    requires Family(k, ts, base) && |ts| > 0 && AllInspected(AllNow(ts))
    modifies k, ts
    ensures Family(k, ts, base) && Later(old(k.fs), k.fs) && old(k.looks) <= k.looks && old(k.chmods) <= k.chmods
    ensures RepairedFrom(old(AllNow(ts)), pins, AllNow(ts), k.looks, |old(k.looks)|, k.chmods, |old(k.chmods)|)
    ensures r.Ok? ==> r.value == ResultsOf(AllNow(ts)) && AllRepairedTo(pins, AllNow(ts))
    ensures k.quiet && old(Faithful(AllNow(ts), DirectoryOf(k.fs))) ==>
              RepairOutcome(r.Ok?, DirectoryOf(old(k.fs)), DirectoryOf(k.fs), LeavesOf(old(AllNow(ts))))
  {
    hide OwnedBy;
    hide AllHold;
    hide AllNow;
    hide KeptOrGone;
    hide Later;
    hide RepairedTo;
    hide Faithful;
    ghost var before, since := AllNow(ts), |k.looks|;
    if Faithful(before, DirectoryOf(k.fs)) { FaithfulIsInOrder(before, DirectoryOf(k.fs)); }
    hide InOrder;
    hide LooseTwice;
    hide Narrowed;
    var checked := Preflight(k, ts, false, base);
    pins := AllNow(ts);
    SameLeaves(before, pins, k.looks, since);
    ghost var f1, looks := k.fs, k.looks;
    if checked.Raise? { return Raise(checked.error), pins; }
    r := RepairTerminals(k, ts, base);
    LaterTransitive(old(k.fs), f1, k.fs);
    AllKeptTwice(before, pins, AllNow(ts), looks, k.looks, since);
    AllKeptLater(before, pins, looks, k.looks, since);
  }

  lemma {:induction false} AllKeptLater(a: seq<Member>, b: seq<Member>, looks: seq<Look>, more: seq<Look>, since: nat)
    requires AllKept(a, b, looks, since) && looks <= more
    ensures AllKept(a, b, more, since)
  {
    LooksGrew(looks, more);
    forall i | 0 <= i < |a| ensures KeptOrGone(a[i], b[i], more, since) { assert KeptOrGone(a[i], b[i], looks, since); }
  }
}
