/** One private directory as src/tendwire/local_state.py sees it: names, numbered inodes whose numbers
    come back once nothing refers to them, open descriptors that pin them, and other processes that may
    do anything they are able to before every system call. */
module FileSystem {
  import opened Options

  type Name = string
  type Ino = nat
  type Fd = nat
  type Mode = bv12
  type Byte = bv8

  const PRIVATE_FILE_MODE: Mode := 0x180

  /** `serial` tells apart the objects that carry the same inode number one after the other. */
  datatype Object = Object(regular: bool, owned: bool, mode: Mode, content: seq<Byte>, synced: bool, serial: nat)

  datatype Fs = Fs(names: map<Name, Ino>, table: map<Ino, Object>, fds: map<Fd, Ino>, serials: nat, nextFd: Fd)

  ghost predicate FsOk(f: Fs) {
    && (forall n :: n in f.names ==> f.names[n] in f.table)
    && (forall d :: d in f.fds ==> f.fds[d] in f.table && d < f.nextFd)
    && (forall i :: i in f.table ==> f.table[i].serial < f.serials)
    && (forall i, j :: i in f.table && j in f.table && i != j ==> f.table[i].serial != f.table[j].serial)
  }

  /** Nothing refers to the number any more. */
  predicate Unused(f: Fs, i: Ino) {
    (forall n :: n in f.names ==> f.names[n] != i) && (forall d :: d in f.fds ==> f.fds[d] != i)
  }

  // ----- Other processes -----

  datatype Outside =
    | Make(name: Name, ino: Ino, regular: bool, owned: bool, mode: Mode, content: seq<Byte>)
    | Link(source: Name, name: Name)
    | Unlink(name: Name)
    | Rename(source: Name, name: Name)
    | Chmod(ino: Ino, mode: Mode)
    | Write(ino: Ino, content: seq<Byte>)
    | Reclaim(ino: Ino)

  function Done(f: Fs, act: Outside): Fs {
    match act
    case Make(n, i, regular, owned, mode, content) =>
      if n in f.names || i in f.table then f
      else f.(names := f.names[n := i], table := f.table[i := Object(regular, owned, mode, content, false, f.serials)],
              serials := f.serials + 1)
    case Link(o, n) => if o !in f.names || n in f.names then f else f.(names := f.names[n := f.names[o]])
    case Unlink(n) => f.(names := f.names - {n})
    case Rename(o, n) => if o !in f.names then f else f.(names := (f.names - {o})[n := f.names[o]])
    case Chmod(i, mode) => if i !in f.table then f else f.(table := f.table[i := f.table[i].(mode := mode)])
    case Write(i, content) => if i !in f.table then f else f.(table := f.table[i := f.table[i].(content := content, synced := false)])
    case Reclaim(i) => if i in f.table && Unused(f, i) then f.(table := f.table - {i}) else f
  }

  function AllDone(f: Fs, acts: seq<Outside>): Fs {
    if acts == [] then f else Done(AllDone(f, acts[..|acts| - 1]), acts[|acts| - 1])
  }

  // ----- What no step of anybody can do -----

  /** This descriptor is open on the object with this number and serial. */
  predicate Pinned(f: Fs, d: Fd, i: Ino, serial: nat) {
    d in f.fds && f.fds[d] == i && i in f.table && f.table[i].serial == serial
  }

  /** The descriptors open on this number. */
  function OpenOn(f: Fs, i: Ino): set<Fd> {
    set d | d in f.fds && f.fds[d] == i
  }

  /** Later: a descriptor that is still open is open on the same object, and descriptor numbers are
      not handed out twice. */
  ghost predicate Later(f: Fs, g: Fs) {
    && FsOk(g) && f.nextFd <= g.nextFd && f.serials <= g.serials
    && (forall d :: d in g.fds ==> d in f.fds || f.nextFd <= d)
    && (forall d, i, serial :: d in g.fds && Pinned(f, d, i, serial) ==> Pinned(g, d, i, serial))
  }

  lemma {:induction false} LaterTransitive(f: Fs, g: Fs, h: Fs)
    requires FsOk(f) && Later(f, g) && Later(g, h)
    ensures Later(f, h)
  {
    forall d, i, serial | d in h.fds && Pinned(f, d, i, serial) ensures Pinned(h, d, i, serial) {
      assert d < f.nextFd;
      assert Pinned(g, d, i, serial);
    }
  }

  lemma {:induction false} LaterReflexive(f: Fs)
    requires FsOk(f)
    ensures Later(f, f)
  {
  }

  /** The table changes at one object only, which keeps its serial; descriptors stay. */
  lemma {:induction false} TouchedIsLater(f: Fs, g: Fs, i: Ino)
    requires FsOk(f) && i in f.table && i in g.table && g.table[i].serial == f.table[i].serial
    requires g == f.(table := f.table[i := g.table[i]])
    ensures Later(f, g)
  {
  }

  /** The names change, to numbers that exist. */
  lemma {:induction false} RenamedIsLater(f: Fs, g: Fs)
    requires FsOk(f) && g == f.(names := g.names) && forall n :: n in g.names ==> g.names[n] in f.table
    ensures Later(f, g)
  {
  }

  /** A number nobody refers to takes on a new object. */
  lemma {:induction false} MadeIsLater(f: Fs, g: Fs, n: Name, i: Ino)
    requires FsOk(f) && i !in f.table && i in g.table && g.table[i].serial == f.serials
    requires g == f.(names := f.names[n := i], table := f.table[i := g.table[i]], serials := f.serials + 1)
    ensures Later(f, g)
  {
  }

  lemma {:induction false} ReclaimedIsLater(f: Fs, i: Ino)
    requires FsOk(f) && i in f.table && Unused(f, i)
    ensures Later(f, f.(table := f.table - {i}))
  {
  }

  lemma {:induction false} DoneIsLater(f: Fs, act: Outside)
    requires FsOk(f)
    ensures Later(f, Done(f, act)) && Done(f, act).fds == f.fds && Done(f, act).nextFd == f.nextFd
  {
    var g := Done(f, act);
    if g == f { LaterReflexive(f); }
    else {
      match act
      case Make(n, i, _, _, _, _) => MadeIsLater(f, g, n, i);
      case Link(_, _) => RenamedIsLater(f, g);
      case Unlink(_) => RenamedIsLater(f, g);
      case Rename(_, _) => RenamedIsLater(f, g);
      case Chmod(i, _) => TouchedIsLater(f, g, i);
      case Write(i, _) => TouchedIsLater(f, g, i);
      case Reclaim(i) => ReclaimedIsLater(f, i);
    }
  }

  lemma {:induction false} AllDoneIsLater(f: Fs, acts: seq<Outside>)
    requires FsOk(f)
    ensures Later(f, AllDone(f, acts)) && AllDone(f, acts).fds == f.fds && AllDone(f, acts).nextFd == f.nextFd
  {
    if acts == [] { LaterReflexive(f); }
    else {
      AllDoneIsLater(f, acts[..|acts| - 1]);
      DoneIsLater(AllDone(f, acts[..|acts| - 1]), acts[|acts| - 1]);
      LaterTransitive(f, AllDone(f, acts[..|acts| - 1]), AllDone(f, acts));
    }
  }

  // ----- System calls -----

  datatype Code =
    | EntryChanged | OperationFailed | WrongType | WrongOwner | MissingEntry | InsecureMode | EntryExists | Interrupted

  datatype Outcome<+T> = Ok(value: T) | Raise(error: Code)

  datatype Unit = Unit

  datatype Stat = Stat(ino: Ino, regular: bool, owned: bool, mode: Mode)

  function StatOf(f: Fs, i: Ino): Stat
    requires i in f.table
  {
    Stat(i, f.table[i].regular, f.table[i].owned, f.table[i].mode)
  }

  /** What happens just before a system call: what others do, whether the call fails, and the choices
      the system makes in it (an inode number, a mode mask, how many bytes a write takes). */
  datatype Moment = Moment(acts: seq<Outside>, fails: bool, ino: Ino, mask: Mode, taken: nat)

  const QUIET := Moment([], false, 0, 0xFFF, 0)

  datatype Opening = Opened(fd: Fd) | NoEntry | Exists | OpenFailed

  /** History: our mode changes, each with the descriptors that were open on the object, and what our calls
      told us: what a name led to, which object a name was opened on or created as, and which mode a
      descriptor's object showed. */
  datatype ModeChange = ModeChange(serial: nat, from: Mode, to: Mode, pins: set<Fd>)
  datatype Look =
    | Look(name: Name, found: Option<Ino>)
    | Grabbed(name: Name, fd: Fd, ino: Ino, serial: nat)
    | Created(name: Name, fd: Fd, ino: Ino, serial: nat)
    | Shown(fd: Fd, ino: Ino, serial: nat, mode: Mode)

  /** What a descriptor's object shows. */
  function ShownBy(f: Fs, d: Fd): Look
    requires d in f.fds && f.fds[d] in f.table
  {
    Shown(d, f.fds[d], f.table[f.fds[d]].serial, f.table[f.fds[d]].mode)
  }

  /** `validate_owned_regular_stat`. */
  function Validated(st: Stat): Outcome<Unit> {
    if !st.regular then Raise(WrongType) else if !st.owned then Raise(WrongOwner) else Ok(Unit)
  }

  // ----- A directory that only we use -----

  /** The names and the objects, without our descriptors. */
  datatype Directory = Dir(names: map<Name, Ino>, table: map<Ino, Object>)

  function DirectoryOf(f: Fs): Directory {
    Dir(f.names, f.table)
  }

  function WithMode(d: Directory, i: Ino, mode: Mode): Directory {
    if i in d.table then d.(table := d.table[i := d.table[i].(mode := mode)]) else d
  }

  function WithEntry(d: Directory, n: Name, i: Ino, made: Object): Directory {
    Dir(d.names[n := i], d.table[i := made])
  }

  /** A new name, for a new and empty file of ours under a number of its own. */
  predicate AddedTo(before: Directory, after: Directory, n: Name) {
    && n !in before.names && n in after.names && after.names[n] in after.table && after.names[n] !in before.table
    && after.table[after.names[n]].regular && after.table[after.names[n]].owned && after.table[after.names[n]].content == []
    && after == WithEntry(before, n, after.names[n], after.table[after.names[n]])
  }

  /** Nobody else acts, and no call fails. */
  predicate Undisturbed(script: seq<Moment>) {
    forall i :: 0 <= i < |script| ==> script[i].acts == [] && !script[i].fails
  }

  /** There is always another number. */
  lemma {:induction false} AnotherNumber(used: set<Ino>) returns (free: Ino)
    ensures forall i: Ino :: i in used ==> i < free
    decreases used
  {
    if used == {} { return 0; }
    var i :| i in used;
    var least := AnotherNumber(used - {i});
    free := if least <= i then i + 1 else least;
    forall j: Ino | j in used ensures j < free { assert j == i || j in used - {i}; }
  }

  class Kernel {
    var fs: Fs
    var script: seq<Moment>
    ghost var chmods: seq<ModeChange>
    ghost var looks: seq<Look>
    /** Whether it is never disturbed. */
    ghost const quiet: bool

    ghost predicate Valid()
      reads this
    {
      FsOk(fs) && (quiet ==> Undisturbed(script))
    }

    constructor (fs: Fs, script: seq<Moment>)
      requires FsOk(fs)
      ensures Valid() && this.fs == fs && this.script == script && chmods == [] && looks == [] && quiet == Undisturbed(script)
    {
      this.fs, this.script, chmods, looks, quiet := fs, script, [], [], Undisturbed(script);
    }

    /** Everybody else acts. */
    method Pause() returns (m: Moment)
      requires Valid()
      modifies this`fs, this`script
      ensures Valid() && Later(old(fs), fs) && fs.fds == old(fs).fds && fs.nextFd == old(fs).nextFd
      ensures quiet ==> fs == old(fs) && !m.fails
    {
      m := QUIET;
      if script != [] {
        m, script := script[0], script[1..];
        AllDoneIsLater(fs, m.acts);
        fs := AllDone(fs, m.acts);
      } else {
        LaterReflexive(fs);
      }
    }

    /** A seam where a test, or a signal, may raise. */
    method Seam() returns (raised: bool)
      requires Valid()
      modifies this`fs, this`script
      ensures Valid() && Later(old(fs), fs) && fs.fds == old(fs).fds
      ensures quiet ==> !raised && fs == old(fs)
    {
      var m := Pause();
      raised := m.fails;
    }

    method Lstat(name: Name) returns (r: Outcome<Option<Stat>>)
      requires Valid()
      modifies this`fs, this`script, this`looks
      ensures Valid() && Later(old(fs), fs) && fs.fds == old(fs).fds
      ensures quiet ==> r.Ok? && fs == old(fs)
      ensures r.Raise? ==> r.error.OperationFailed? && looks == old(looks)
      ensures r.Ok? ==> if name in fs.names then r.value == Some(StatOf(fs, fs.names[name])) && looks == old(looks) + [Look(name, Some(fs.names[name]))]
                        else r.value == None && looks == old(looks) + [Look(name, None)]
    {
      var m := Pause();
      if m.fails { return Raise(OperationFailed); }
      if name !in fs.names {
        looks := looks + [Look(name, None)];
        return Ok(None);
      }
      looks := looks + [Look(name, Some(fs.names[name]))];
      return Ok(Some(StatOf(fs, fs.names[name])));
    }

    method Open(name: Name) returns (r: Opening)
      requires Valid()
      modifies this`fs, this`script, this`looks
      ensures Valid() && Later(old(fs), fs) && !r.Exists?
      ensures quiet ==> DirectoryOf(fs) == DirectoryOf(old(fs)) && (r.Opened? <==> name in fs.names)
      ensures r.NoEntry? ==> name !in fs.names
      ensures r.Opened? ==> r.fd !in old(fs).fds && name in fs.names && fs.fds == old(fs).fds[r.fd := fs.names[name]]
                            && looks == old(looks) + [Grabbed(name, r.fd, fs.names[name], fs.table[fs.names[name]].serial)]
      ensures !r.Opened? ==> fs.fds == old(fs).fds && looks == old(looks)
    {
      var m := Pause();
      if m.fails { return OpenFailed; }
      if name !in fs.names { return NoEntry; }
      ghost var g := fs;
      var d := NextOn(name);
      LaterTransitive(old(fs), g, fs);
      looks := looks + [Grabbed(name, d, fs.names[name], fs.table[fs.names[name]].serial)];
      return Opened(d);
    }

    /** The next descriptor, open on what the name leads to. */
    method NextOn(name: Name) returns (d: Fd)
      requires Valid() && name in fs.names
      modifies this`fs
      ensures Valid() && Later(old(fs), fs) && d !in old(fs).fds
      ensures fs == old(fs).(fds := old(fs).fds[d := old(fs).names[name]], nextFd := fs.nextFd)
    {
      d := fs.nextFd;
      OpenedIsLater(fs, name);
      fs := fs.(fds := fs.fds[d := fs.names[name]], nextFd := d + 1);
    }

    method Fstat(d: Fd) returns (r: Outcome<Stat>)
      requires Valid() && d in fs.fds
      modifies this`fs, this`script, this`looks
      ensures Valid() && Later(old(fs), fs) && fs.fds == old(fs).fds
      ensures r == Raise(OperationFailed) || r == Ok(StatOf(fs, fs.fds[d]))
      ensures quiet ==> r.Ok? && fs == old(fs)
      ensures looks == if r.Ok? then old(looks) + [ShownBy(fs, d)] else old(looks)
    {
      var m := Pause();
      if m.fails { return Raise(OperationFailed); }
      looks := looks + [ShownBy(fs, d)];
      return Ok(StatOf(fs, fs.fds[d]));
    }

    method Fchmod(d: Fd, mode: Mode) returns (r: Outcome<Unit>)
      requires Valid() && d in fs.fds
      modifies this`fs, this`script, this`chmods
      ensures Valid() && Later(old(fs), fs) && fs.fds == old(fs).fds
      ensures r == Raise(OperationFailed) || r == Ok(Unit)
      ensures quiet ==> r.Ok? && DirectoryOf(fs) == WithMode(DirectoryOf(old(fs)), fs.fds[d], mode)
      ensures r.Raise? ==> chmods == old(chmods)
      ensures r.Ok? ==> exists from :: chmods == old(chmods) + [ModeChange(fs.table[fs.fds[d]].serial, from, mode, OpenOn(fs, fs.fds[d]))]
    {
      var m := Pause();
      if m.fails { return Raise(OperationFailed); }
      ghost var g := fs;
      var i := fs.fds[d];
      ghost var from := fs.table[i].mode;
      chmods := chmods + [ModeChange(fs.table[i].serial, from, mode, OpenOn(fs, i))];
      fs := fs.(table := fs.table[i := fs.table[i].(mode := mode)]);
      TouchedIsLater(g, fs, i);
      LaterTransitive(old(fs), g, fs);
      assert chmods == old(chmods) + [ModeChange(fs.table[fs.fds[d]].serial, from, mode, OpenOn(fs, fs.fds[d]))];
      return Ok(Unit);
    }

    method Close(d: Fd)
      requires Valid() && d in fs.fds
      modifies this`fs
      ensures Valid() && Later(old(fs), fs) && fs.fds == old(fs).fds - {d}
      ensures DirectoryOf(fs) == DirectoryOf(old(fs))
    {
      ClosedIsLater(fs, d);
      fs := fs.(fds := fs.fds - {d});
    }

    /** An exclusive create: a new object under a number that nothing uses. */
    method Create(name: Name) returns (r: Opening)
      requires Valid()
      modifies this`fs, this`script, this`looks
      ensures Valid() && Later(old(fs), fs) && !r.NoEntry?
      ensures quiet ==> (r.Exists? <==> name in old(fs).names) && (r.Opened? <==> name !in old(fs).names)
      ensures r.Exists? ==> name in fs.names
      ensures r.Opened? ==> r.fd !in old(fs).fds && name in fs.names && fs.fds == old(fs).fds[r.fd := fs.names[name]]
                            && fs.table[fs.names[name]].serial >= old(fs).serials
                            && looks == old(looks) + [Created(name, r.fd, fs.names[name], fs.table[fs.names[name]].serial)]
      ensures r.Opened? && quiet ==> AddedTo(DirectoryOf(old(fs)), DirectoryOf(fs), name)
      ensures !r.Opened? ==> fs.fds == old(fs).fds && looks == old(looks) && (quiet ==> DirectoryOf(fs) == DirectoryOf(old(fs)))
    {
      var m := Pause();
      if m.fails { return OpenFailed; }
      if name in fs.names { return Exists; }
      ghost var g := fs;
      Enter(name, m);
      LaterTransitive(old(fs), g, fs);
      ghost var h := fs;
      var d := NextOn(name);
      LaterTransitive(old(fs), h, fs);
      looks := looks + [Created(name, d, fs.names[name], fs.table[fs.names[name]].serial)];
      return Opened(d);
    }

    /** A new object under the name; the system finds a number of its own where the moment's is taken. */
    method Enter(name: Name, m: Moment)
      requires Valid() && name !in fs.names
      modifies this`fs
      ensures Valid() && Later(old(fs), fs) && fs.fds == old(fs).fds && name in fs.names
      ensures AddedTo(DirectoryOf(old(fs)), DirectoryOf(fs), name) && fs.table[fs.names[name]].serial == old(fs).serials
    {
      var ino := m.ino;
      if ino in fs.table {
        ghost var free := AnotherNumber(fs.table.Keys);
        assert free !in fs.table;
        ino :| ino !in fs.table;
      }
      ghost var g := fs;
      var made := Object(true, true, PRIVATE_FILE_MODE & m.mask, [], false, fs.serials);
      fs := fs.(names := fs.names[name := ino], table := fs.table[ino := made], serials := fs.serials + 1);
      MadeIsLater(g, fs, name, ino);
    }

    method Remove(name: Name) returns (r: Outcome<Unit>)
      requires Valid()
      modifies this`fs, this`script
      ensures Valid() && Later(old(fs), fs) && fs.fds == old(fs).fds
    {
      var m := Pause();
      if m.fails || name !in fs.names { return Raise(OperationFailed); }
      ghost var g := fs;
      fs := fs.(names := fs.names - {name});
      RenamedIsLater(g, fs);
      LaterTransitive(old(fs), g, fs);
      return Ok(Unit);
    }

    /** Any call whose only effect for us is that it can fail: `fsync`, `flock`. */
    method Sync() returns (r: Outcome<Unit>)
      requires Valid()
      modifies this`fs, this`script
      ensures Valid() && Later(old(fs), fs) && fs.fds == old(fs).fds
      ensures r == Raise(OperationFailed) || r == Ok(Unit)
      ensures quiet ==> r.Ok? && fs == old(fs)
    {
      var m := Pause();
      if m.fails { return Raise(OperationFailed); }
      return Ok(Unit);
    }
  }

  lemma {:induction false} OpenedIsLater(f: Fs, n: Name)
    requires FsOk(f) && n in f.names
    ensures Later(f, f.(fds := f.fds[f.nextFd := f.names[n]], nextFd := f.nextFd + 1)) && f.nextFd !in f.fds
  {
  }

  lemma {:induction false} ClosedIsLater(f: Fs, d: Fd)
    requires FsOk(f) && d in f.fds
    ensures Later(f, f.(fds := f.fds - {d}))
  {
  }
}
