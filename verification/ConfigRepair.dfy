/** `repair_config_state` (src/tendwire/local_state.py) in a run where nobody else touches the files: look at
    everything, then narrow it. When is that all or nothing? And what if a call fails? */
module ConfigRepair {
  import opened Options
  import opened FileSystem

  const PRIVATE_DIRECTORY_MODE: Mode := 0x1C0
  const OWNER_READ: Mode := 0x100

  function Masked(mode: Mode, maximum: Mode): Mode { mode & maximum }
  predicate Within(mode: Mode, maximum: Mode) { mode & !maximum == 0 }
  predicate OwnerReads(mode: Mode) { mode & OWNER_READ != 0 }

  datatype FileType = Directory | RegularFile | OtherType

  datatype Node = Node(kind: FileType, owned: bool, mode: Mode)

  /** A configured entry: a member of the database family or an ordinary one. */
  datatype Listed = Listed(name: Name, member: bool, kind: FileType, maximum: Mode)

  function DirectoryEntry(n: Name): Listed { Listed(n, false, Directory, PRIVATE_DIRECTORY_MODE) }
  function MemberEntry(n: Name): Listed { Listed(n, true, RegularFile, PRIVATE_FILE_MODE) }
  function FileEntry(n: Name): Listed { Listed(n, false, RegularFile, PRIVATE_FILE_MODE) }

  function EntriesOf(ns: seq<Name>, member: bool): (es: seq<Listed>)
    ensures |es| == |ns|
    ensures forall i :: 0 <= i < |ns| ==> es[i] == if member then MemberEntry(ns[i]) else FileEntry(ns[i])
  {
    seq(|ns|, i requires 0 <= i < |ns| => if member then MemberEntry(ns[i]) else FileEntry(ns[i]))
  }

  /** In the order in which modes are changed: the family first, then the directory, then the files. */
  function Order(dataDir: Name, family: seq<Name>, files: seq<Name>): (es: seq<Listed>) {
    EntriesOf(family, true) + [DirectoryEntry(dataDir)] + EntriesOf(files, false)
  }

  /** The kind decides the maximum. */
  predicate WellListed(es: seq<Listed>) {
    forall i :: 0 <= i < |es| ==> es[i] == DirectoryEntry(es[i].name) || es[i] == MemberEntry(es[i].name) || es[i] == FileEntry(es[i].name)
  }

  datatype World = World(names: map<Name, Ino>, table: map<Ino, Node>, privileged: bool)

  predicate Sound(w: World) {
    forall n :: n in w.names ==> w.names[n] in w.table
  }

  predicate Present(w: World, e: Listed) {
    e.name in w.names && w.names[e.name] in w.table
  }

  function NodeOf(w: World, e: Listed): Node
    requires Present(w, e)
  {
    w.table[w.names[e.name]]
  }

  predicate Acceptable(w: World, e: Listed) {
    Present(w, e) ==> NodeOf(w, e).kind == e.kind && NodeOf(w, e).owned
  }

  ghost predicate AllAcceptable(w: World, es: seq<Listed>) {
    forall i :: 0 <= i < |es| ==> Acceptable(w, es[i])
  }

  /** The mode has a bit beyond the maximum. */
  predicate Loose(w: World, e: Listed) {
    Present(w, e) && !Within(NodeOf(w, e).mode, e.maximum)
  }

  predicate Readable(w: World, e: Listed) {
    Present(w, e) ==> w.privileged || OwnerReads(NodeOf(w, e).mode)
  }

  /** A member is narrowed through an ordinary descriptor, which its owner cannot get without the read bit;
      looking at it took none. */
  predicate Stuck(w: World, e: Listed) {
    e.member && Loose(w, e) && !Readable(w, e)
  }

  predicate SameFile(w: World, a: Listed, b: Listed) {
    Present(w, a) && Present(w, b) && w.names[a.name] == w.names[b.name]
  }

  function Narrowed(w: World, e: Listed): World {
    if !Loose(w, e) then w
    else w.(table := w.table[w.names[e.name] := NodeOf(w, e).(mode := Masked(NodeOf(w, e).mode, e.maximum))])
  }

  function NarrowedTo(w: World, es: seq<Listed>, k: nat): World
    requires k <= |es|
  {
    if k == 0 then w else Narrowed(NarrowedTo(w, es, k - 1), es[k - 1])
  }

  /** The change of this entry fails: it cannot be opened, or an earlier change already hit the same file. */
  predicate Fails(w: World, es: seq<Listed>, k: nat)
    requires k < |es|
  {
    Loose(w, es[k]) && (Stuck(w, es[k]) || exists j :: 0 <= j < k && SameFile(w, es[j], es[k]))
  }

  ghost predicate NoneFails(w: World, es: seq<Listed>, k: nat)
    requires k <= |es|
  {
    forall j :: 0 <= j < k ==> !Fails(w, es, j)
  }

  // ----- What the changes made so far leave -----

  /** Acceptable entries that lead to one file have one kind, so one maximum. */
  lemma {:induction false} OneMaximum(w: World, es: seq<Listed>, i: nat, j: nat)
    requires WellListed(es) && AllAcceptable(w, es) && i < |es| && j < |es| && SameFile(w, es[i], es[j])
    ensures es[i].maximum == es[j].maximum && (Loose(w, es[i]) <==> Loose(w, es[j]))
  {
    hide Within;
    hide Masked;
    assert Acceptable(w, es[i]) && Acceptable(w, es[j]);
  }

  ghost function ModeAfter(w: World, es: seq<Listed>, k: nat, e: Listed): Mode
    requires k <= |es| && Present(w, e)
  {
    if exists j :: 0 <= j < k && SameFile(w, es[j], e) then Masked(NodeOf(w, e).mode, e.maximum) else NodeOf(w, e).mode
  }

  /** Every entry after the first k changes: narrowed if one of them was its file's, or as it was. */
  lemma {:induction false} NodeAfter(w: World, es: seq<Listed>, k: nat, i: nat)
    requires WellListed(es) && AllAcceptable(w, es) && k <= |es| && i < |es|
    ensures NarrowedTo(w, es, k).names == w.names && NarrowedTo(w, es, k).table.Keys == w.table.Keys
    ensures Present(w, es[i]) ==> NodeOf(NarrowedTo(w, es, k), es[i]) == NodeOf(w, es[i]).(mode := ModeAfter(w, es, k, es[i]))
    decreases k
  {
    hide Within;
    hide Masked;
    if k > 0 {
      NodeAfter(w, es, k - 1, i);
      NodeAfter(w, es, k - 1, k - 1);
      if SameFile(w, es[k - 1], es[i]) {
        OneMaximum(w, es, k - 1, i);
        MaskTwice(NodeOf(w, es[i]).mode, es[i].maximum);
      }
    }
  }

  /** Masking keeps every bit that the maximum allows, and no other. */
  lemma {:induction false} MaskedExactly(mode: Mode, maximum: Mode)
    ensures Masked(mode, maximum) & maximum == mode & maximum && Masked(mode, maximum) & !maximum == 0
  {
  }

  lemma {:induction false} MaskTwice(mode: Mode, maximum: Mode)
    ensures Masked(Masked(mode, maximum), maximum) == Masked(mode, maximum) && Within(Masked(mode, maximum), maximum)
    ensures Within(Masked(mode, maximum), mode) && (Within(mode, maximum) <==> Masked(mode, maximum) == mode)
  {
  }

  /** Files that no entry leads to are never touched. */
  lemma {:induction false} OthersUntouched(w: World, es: seq<Listed>, k: nat, ino: Ino)
    requires k <= |es| && ino in w.table
    requires forall j :: 0 <= j < |es| && Present(w, es[j]) ==> w.names[es[j].name] != ino
    ensures ino in NarrowedTo(w, es, k).table && NarrowedTo(w, es, k).table[ino] == w.table[ino]
    ensures NarrowedTo(w, es, k).names == w.names && NarrowedTo(w, es, k).table.Keys == w.table.Keys
    decreases k
  {
    if k > 0 { OthersUntouched(w, es, k - 1, ino); }
  }

  // ----- When the repair is all or nothing -----

  /** Nothing fails, or what fails is the very first change. */
  ghost predicate Repairable(w: World, es: seq<Listed>) {
    || NoneFails(w, es, |es|)
    || exists k :: 0 <= k < |es| && Stuck(w, es[k]) && forall j :: 0 <= j < k ==> !Loose(w, es[j])
  }

  /** What a repair of acceptable entries does: it stops at the first change that fails. */
  ghost predicate Stops(w: World, es: seq<Listed>, k: nat) {
    k <= |es| && NoneFails(w, es, k) && (k < |es| ==> Fails(w, es, k))
  }

  lemma {:induction false} NothingLooseNothingChanged(w: World, es: seq<Listed>, k: nat)
    requires k <= |es| && forall j :: 0 <= j < k ==> !Loose(w, es[j])
    ensures NarrowedTo(w, es, k) == w
    decreases k
  {
    if k > 0 { NothingLooseNothingChanged(w, es, k - 1); }
  }

  lemma {:induction false} LooseIsChanged(w: World, es: seq<Listed>, k: nat, j: nat)
    requires WellListed(es) && AllAcceptable(w, es) && j < k <= |es| && Loose(w, es[j])
    ensures NarrowedTo(w, es, k) != w
  {
    hide Within;
    hide Masked;
    NodeAfter(w, es, k, j);
    MaskTwice(NodeOf(w, es[j]).mode, es[j].maximum);
    assert SameFile(w, es[j], es[j]);
  }

  /** A repair finishes or leaves everything as it was, exactly if the entries are repairable. */
  lemma {:induction false} AllOrNothing(w: World, es: seq<Listed>, stop: nat)
    requires WellListed(es) && AllAcceptable(w, es) && Stops(w, es, stop)
    ensures (stop == |es| || NarrowedTo(w, es, stop) == w) <==> Repairable(w, es)
  {
    hide Within;
    hide Masked;
    if j :| 0 <= j < stop && Loose(w, es[j]) {
      LooseIsChanged(w, es, stop, j);
      forall k | 0 <= k <= j ensures !Stuck(w, es[k]) { assert !Fails(w, es, k); }
    } else {
      NothingLooseNothingChanged(w, es, stop);
      if stop < |es| {
        if i :| 0 <= i < stop && SameFile(w, es[i], es[stop]) { OneMaximum(w, es, i, stop); }
        assert Stuck(w, es[stop]);
      }
    }
  }

  /** Enough: no two entries lead to one file, and each member is readable. */
  lemma {:induction false} DistinctAndReadable(w: World, es: seq<Listed>)
    requires forall i, j :: 0 <= i < j < |es| ==> !SameFile(w, es[i], es[j])
    requires forall i :: 0 <= i < |es| && es[i].member ==> Readable(w, es[i])
    ensures NoneFails(w, es, |es|) && Repairable(w, es)
  {
    hide Within;
    hide Masked;
  }

  /** After a complete repair every present entry has exactly those bits that it had and its maximum allows; names
      are as they were. */
  lemma {:induction false} RepairedWorld(w: World, es: seq<Listed>, i: nat)
    requires WellListed(es) && AllAcceptable(w, es) && i < |es|
    ensures var v := NarrowedTo(w, es, |es|);
            && v.names == w.names && v.table.Keys == w.table.Keys
            && (Present(v, es[i]) <==> Present(w, es[i])) && !Loose(v, es[i]) && Acceptable(v, es[i])
            && (Present(w, es[i]) ==> NodeOf(v, es[i]).mode == Masked(NodeOf(w, es[i]).mode, es[i].maximum)
                                      && Within(NodeOf(v, es[i]).mode, NodeOf(w, es[i]).mode)
                                      && NodeOf(v, es[i]).mode & es[i].maximum == NodeOf(w, es[i]).mode & es[i].maximum
                                      && NodeOf(v, es[i]).mode & !es[i].maximum == 0)
  {
    hide Within;
    hide Masked;
    NodeAfter(w, es, |es|, i);
    if Present(w, es[i]) {
      assert SameFile(w, es[i], es[i]);
      MaskTwice(NodeOf(w, es[i]).mode, es[i].maximum);
      MaskedExactly(NodeOf(w, es[i]).mode, es[i].maximum);
    }
  }

  lemma {:induction false} RepairIsIdempotent(w: World, es: seq<Listed>)
    requires WellListed(es) && AllAcceptable(w, es)
    ensures var v := NarrowedTo(w, es, |es|); AllAcceptable(v, es) && Stops(v, es, |es|) && NarrowedTo(v, es, |es|) == v
  {
    hide Within;
    hide Masked;
    var v := NarrowedTo(w, es, |es|);
    forall i | 0 <= i < |es| ensures !Loose(v, es[i]) && Acceptable(v, es[i]) { RepairedWorld(w, es, i); }
    NothingLooseNothingChanged(v, es, |es|);
  }

  /** Distinct files are not enough: the database is narrowed, then its log cannot be opened. */
  lemma {:induction false} HalfRepaired()
    ensures var es := Order("data", ["db", "db-wal"], []);
            var w := World(map["db" := 1, "db-wal" := 2], map[1 := Node(RegularFile, true, 0x1A4), 2 := Node(RegularFile, true, 0x024)], false);
            && Sound(w) && WellListed(es) && AllAcceptable(w, es) && (forall i, j :: 0 <= i < j < |es| ==> !SameFile(w, es[i], es[j]))
            && Stops(w, es, 1) && NarrowedTo(w, es, 1) != w && !Repairable(w, es)
  {
    var es := Order("data", ["db", "db-wal"], []);
    var w := World(map["db" := 1, "db-wal" := 2], map[1 := Node(RegularFile, true, 0x1A4), 2 := Node(RegularFile, true, 0x024)], false);
    assert es == [MemberEntry("db"), MemberEntry("db-wal"), DirectoryEntry("data")];
    assert "db-wal" != "db" && "data" != "db" && "data" != "db-wal";
    assert Loose(w, es[0]) && Loose(w, es[1]) && Stuck(w, es[1]) && Fails(w, es, 1);
    assert !Fails(w, es, 0);
    LooseIsChanged(w, es, 1, 0);
    AllOrNothing(w, es, 1);
  }

  // ----- The code -----

  datatype Snapshot = Snapshot(entry: Listed, ino: Option<Ino>, mode: Mode)

  datatype Result = AbsentResult | PrivateResult(mode: Mode) | RepairedResult(mode: Mode)

  predicate LeadsTo(names: map<Name, Ino>, s: Snapshot) {
    s.ino == if s.entry.name in names then Some(names[s.entry.name]) else None
  }

  predicate Taken(w: World, s: Snapshot) {
    && LeadsTo(w.names, s)
    && (Present(w, s.entry) ==> s.mode == NodeOf(w, s.entry).mode)
  }

  ghost predicate AllTaken(w: World, ss: seq<Snapshot>, es: seq<Listed>) {
    |ss| == |es| && forall i :: 0 <= i < |ss| ==> ss[i].entry == es[i] && Taken(w, ss[i])
  }

  /** What the report says of an entry. */
  function ResultOf(w: World, e: Listed): Result {
    if !Present(w, e) then AbsentResult
    else if Loose(w, e) then RepairedResult(Masked(NodeOf(w, e).mode, e.maximum))
    else PrivateResult(NodeOf(w, e).mode)
  }

  /** The report's last word on an entry. */
  function FinalOf(v: World, e: Listed, before: Result): Result {
    if !Present(v, e) then before
    else if before.RepairedResult? then RepairedResult(NodeOf(v, e).mode)
    else PrivateResult(NodeOf(v, e).mode)
  }

  class LocalFiles {
    var names: map<Name, Ino>
    var table: map<Ino, Node>
    /** Which of the next calls succeed; those after them all do. */
    var luck: seq<bool>
    const privileged: bool

    ghost function Value(): World
      reads this
    {
      World(names, table, privileged)
    }

    /** No call fails by chance. */
    ghost predicate Lucky()
      reads this
    {
      forall i :: 0 <= i < |luck| ==> luck[i]
    }

    constructor (names: map<Name, Ino>, table: map<Ino, Node>, privileged: bool, luck: seq<bool>)
      ensures Value() == World(names, table, privileged) && this.luck == luck
    {
      this.names, this.table, this.privileged, this.luck := names, table, privileged, luck;
    }

    /** A call of the system: does it succeed? */
    method Call() returns (ok: bool)
      modifies this`luck
      ensures old(Lucky()) ==> ok && Lucky()
    {
      ok := true;
      if luck != [] { ok, luck := luck[0], luck[1..]; }
    }

    /** Look at an entry: absent, or owned and of its kind. */
    method Observe(e: Listed) returns (r: Outcome<Snapshot>)
      requires Sound(Value())
      modifies this`luck
      ensures r.Ok? ==> Acceptable(Value(), e) && r.value.entry == e && Taken(Value(), r.value)
      ensures old(Lucky()) ==> Lucky() && (Acceptable(Value(), e) ==> r.Ok?)
    {
      var ok := Call();
      if !ok { return Raise(OperationFailed); }
      if e.name !in names { return Ok(Snapshot(e, None, 0)); }
      assert Present(Value(), e);
      var node := table[names[e.name]];
      if node.kind != e.kind { return Raise(WrongType); }
      if !node.owned { return Raise(WrongOwner); }
      return Ok(Snapshot(e, Some(names[e.name]), node.mode));
    }

    /** Look again: still absent, or still the same acceptable file. */
    method Verify(s: Snapshot) returns (r: Outcome<Unit>)
      requires Sound(Value())
      modifies this`luck
      ensures r.Ok? ==> LeadsTo(names, s) && Acceptable(Value(), s.entry)
      ensures old(Lucky()) ==> Lucky() && (LeadsTo(names, s) && Acceptable(Value(), s.entry) ==> r.Ok?)
    {
      var again := Observe(s.entry);
      if again.Raise? { return Raise(again.error); }
      return if again.value.ino == s.ino then Ok(Unit) else Raise(EntryChanged);
    }

    method VerifyAll(ss: seq<Snapshot>) returns (r: Outcome<Unit>)
      requires Sound(Value())
      modifies this`luck
      ensures r.Ok? ==> forall i :: 0 <= i < |ss| ==> LeadsTo(names, ss[i]) && Acceptable(Value(), ss[i].entry)
      ensures old(Lucky()) ==> Lucky()
      ensures old(Lucky()) && (forall i :: 0 <= i < |ss| ==> LeadsTo(names, ss[i]) && Acceptable(Value(), ss[i].entry)) ==> r.Ok?
    {
      for i := 0 to |ss|
        invariant forall j :: 0 <= j < i ==> LeadsTo(names, ss[j]) && Acceptable(Value(), ss[j].entry)
        invariant old(Lucky()) ==> Lucky()
      {
        r := Verify(ss[i]);
        if r.Raise? { return; }
      }
      return Ok(Unit);
    }

    method ObserveAll(es: seq<Listed>) returns (r: Outcome<seq<Snapshot>>)
      requires Sound(Value())
      modifies this`luck
      ensures r.Ok? ==> AllAcceptable(Value(), es) && AllTaken(Value(), r.value, es)
      ensures old(Lucky()) ==> Lucky() && (AllAcceptable(Value(), es) ==> r.Ok?)
    {
      var ss: seq<Snapshot> := [];
      for i := 0 to |es|
        invariant |ss| == i && forall j :: 0 <= j < i ==> ss[j].entry == es[j] && Taken(Value(), ss[j]) && Acceptable(Value(), es[j])
        invariant old(Lucky()) ==> Lucky()
      {
        var s := Observe(es[i]);
        if s.Raise? { return Raise(s.error); }
        ss := ss + [s.value];
      }
      return Ok(ss);
    }

    method SetMode(ino: Ino, mode: Mode)
      requires ino in table
      modifies this`table
      ensures table == old(table)[ino := old(table)[ino].(mode := mode)]
    {
      table := table[ino := table[ino].(mode := mode)];
    }

    /** Change one entry's mode if it is loose; its mode must be the one that was seen. A call that fails
        after the change leaves it made. */
    method RepairOne(s: Snapshot) returns (r: Outcome<Result>)
      requires Sound(Value()) && Acceptable(Value(), s.entry)
      requires LeadsTo(names, s)
      modifies this`table, this`luck
      ensures var w := old(Value());
              var fails := (Present(w, s.entry) && NodeOf(w, s.entry).mode != s.mode) || Stuck(w, s.entry);
              && (Value() == w || (!fails && Value() == Narrowed(w, s.entry)))
              && (r.Ok? ==> !fails && r.value == ResultOf(w, s.entry) && Value() == Narrowed(w, s.entry))
              && (old(Lucky()) ==> Lucky() && (r.Raise? ==> fails))
    {
      hide Within;
      hide Masked;
      ghost var w := Value();
      if s.ino.None? { return Ok(AbsentResult); }
      var ino := s.ino.value;
      assert Present(Value(), s.entry);
      var found := Call();
      if !found { return Raise(OperationFailed); }
      var mode := table[ino].mode;
      if mode != s.mode { return Raise(EntryChanged); }
      if Within(mode, s.entry.maximum) { return Ok(PrivateResult(mode)); }
      var opens := privileged || OwnerReads(mode);
      if s.entry.member && !opens { return Raise(OperationFailed); }
      // Without a descriptor an ordinary entry is changed by name.
      var changes := Call();
      if !changes { return Raise(OperationFailed); }
      SetMode(ino, Masked(mode, s.entry.maximum));
      var synced := Call();
      if !synced { return Raise(OperationFailed); }
      return Ok(RepairedResult(Masked(mode, s.entry.maximum)));
    }

    /** Change what is loose, in order, until a change fails. */
    method RepairAll(ss: seq<Snapshot>, ghost es: seq<Listed>) returns (r: Outcome<seq<Result>>, ghost stop: nat)
      requires Sound(Value()) && WellListed(es) && AllAcceptable(Value(), es) && AllTaken(Value(), ss, es)
      modifies this`table, this`luck
      ensures stop <= |es| && NoneFails(old(Value()), es, stop) && Value() == NarrowedTo(old(Value()), es, stop)
      ensures r.Ok? ==> stop == |es| == |r.value| && forall i :: 0 <= i < |es| ==> r.value[i] == ResultOf(old(Value()), es[i])
      ensures old(Lucky()) ==> Lucky() && Stops(old(Value()), es, stop) && (r.Raise? ==> stop < |es|)
    {
      hide Within;
      hide Masked;
      ghost var w := Value();
      var results: seq<Result> := [];
      for i := 0 to |ss|
        invariant Value() == NarrowedTo(w, es, i) && NoneFails(w, es, i)
        invariant |results| == i && forall j :: 0 <= j < i ==> results[j] == ResultOf(w, es[j])
        invariant old(Lucky()) ==> Lucky()
      {
        StillThere(w, es, i);
        Step(w, es, i, ss[i]);
        var done := RepairOne(ss[i]);
        if done.Raise? { return Raise(done.error), if Value() == NarrowedTo(w, es, i) then i else i + 1; }
        results := results + [done.value];
      }
      return Ok(results), |ss|;
    }

    /** The last look at every entry. */
    method Finalize(ss: seq<Snapshot>, results: seq<Result>) returns (r: Outcome<seq<Result>>)
      requires Sound(Value()) && |ss| == |results|
      requires forall i :: 0 <= i < |ss| ==> Acceptable(Value(), ss[i].entry) && ss[i].ino.Some? == (ss[i].entry.name in names)
      modifies this`luck
      ensures old(Lucky()) ==> Lucky() && ((forall i :: 0 <= i < |ss| ==> !Loose(Value(), ss[i].entry)) ==> r.Ok?)
      ensures r.Ok? ==> |r.value| == |ss| && forall i :: 0 <= i < |ss| ==>
                !Loose(Value(), ss[i].entry) && r.value[i] == FinalOf(Value(), ss[i].entry, results[i])
    {
      hide Within;
      hide Masked;
      var final: seq<Result> := [];
      for i := 0 to |ss|
        invariant |final| == i && forall j :: 0 <= j < i ==> !Loose(Value(), ss[j].entry)
        invariant forall j :: 0 <= j < i ==> final[j] == FinalOf(Value(), ss[j].entry, results[j])
        invariant old(Lucky()) ==> Lucky()
      {
        var e := ss[i].entry;
        if e.name !in names { final := final + [results[i]]; }
        else {
          var found := Call();
          if !found { return Raise(OperationFailed); }
          var mode := table[names[e.name]].mode;
          if !Within(mode, e.maximum) { return Raise(InsecureMode); }
          final := final + [if results[i].RepairedResult? then RepairedResult(mode) else PrivateResult(mode)];
        }
      }
      return Ok(final);
    }

    /** Every entry is looked at before any is changed. */
    method LookAtAll(dataDir: Name, family: seq<Name>, files: seq<Name>) returns (r: Outcome<seq<Snapshot>>)
      requires Sound(Value())
      modifies this`luck
      ensures r.Ok? ==> AllAcceptable(Value(), Order(dataDir, family, files)) && AllTaken(Value(), r.value, Order(dataDir, family, files))
      ensures old(Lucky()) ==> Lucky() && (AllAcceptable(Value(), Order(dataDir, family, files)) ==> r.Ok?)
    {
      Split(Value(), dataDir, family, files);
      var ordinary := ObserveAll([DirectoryEntry(dataDir)] + EntriesOf(files, false));
      if ordinary.Raise? { return Raise(ordinary.error); }
      var members := ObserveAll(EntriesOf(family, true));
      if members.Raise? { return Raise(members.error); }
      var verified := VerifyAll(ordinary.value);
      if verified.Raise? { return Raise(verified.error); }
      var ss := members.value + ordinary.value;
      assert AllTaken(Value(), ss, Order(dataDir, family, files));
      verified := VerifyAll(ss);
      return if verified.Raise? then Raise(verified.error) else Ok(ss);
    }

    /** Make the changes, and look once more. */
    method Narrow(ss: seq<Snapshot>, ghost es: seq<Listed>) returns (r: Outcome<seq<Result>>, ghost stop: nat)
      requires Sound(Value()) && WellListed(es) && AllAcceptable(Value(), es) && AllTaken(Value(), ss, es)
      modifies this`table, this`luck
      ensures stop <= |es| && NoneFails(old(Value()), es, stop) && Value() == NarrowedTo(old(Value()), es, stop)
      ensures r.Ok? ==> stop == |es| == |r.value| && forall i :: 0 <= i < |es| ==> r.value[i] == ResultOf(old(Value()), es[i])
      ensures old(Lucky()) ==> Stops(old(Value()), es, stop) && (r.Ok? <==> stop == |es|)
    {
      ghost var w := Value();
      r, stop := RepairAll(ss, es);
      if r.Ok? {
        Settled(w, es, ss);
        FinalResults(w, es);
        hide Acceptable;
        hide Loose;
        hide ResultOf;
        var verified := VerifyAll(ss);
        if verified.Raise? { return Raise(verified.error), stop; }
        r := Finalize(ss, r.value);
      }
    }

    /** `repair_config_state`. `family` is empty if no database is configured, and `lockRefused` says that
        its directory is locked by somebody. The results are in the order of `Order`. Whatever fails, the
        changes made are the first of them; if no call fails by chance, those before the first that must. */
    method Repair(dataDir: Name, family: seq<Name>, files: seq<Name>, lockRefused: bool) returns (r: Outcome<seq<Result>>, ghost stop: nat)
      requires Sound(Value())
      modifies this`table, this`luck
      ensures var w, es := old(Value()), Order(dataDir, family, files);
              var refused := !AllAcceptable(w, es) || (family != [] && lockRefused && exists i :: 0 <= i < |es| && Loose(w, es[i]));
              && stop <= |es| && NoneFails(w, es, stop) && Value() == NarrowedTo(w, es, stop)
              && (refused ==> r.Raise? && Value() == w)
              && (r.Ok? ==> stop == |es| == |r.value| && forall i :: 0 <= i < |es| ==> r.value[i] == ResultOf(w, es[i]))
              && (old(Lucky()) && !refused ==> Stops(w, es, stop) && (r.Ok? <==> stop == |es|))
    {
      hide Loose;
      hide Acceptable;
      hide ResultOf;
      ghost var es := Order(dataDir, family, files);
      stop := 0;
      Split(Value(), dataDir, family, files);
      var seen := LookAtAll(dataDir, family, files);
      if seen.Raise? { return Raise(seen.error), 0; }
      var required := AnyLoose(seen.value);
      if family != [] && required {
        var locked := Call();
        if lockRefused || !locked { return Raise(OperationFailed), 0; }
        var verified := VerifyAll(seen.value);
        if verified.Raise? { return Raise(verified.error), 0; }
      }
      r, stop := Narrow(seen.value, es);
    }

    method AnyLoose(ss: seq<Snapshot>) returns (any: bool)
      requires forall i :: 0 <= i < |ss| ==> Taken(Value(), ss[i])
      requires Sound(Value())
      ensures any <==> exists i :: 0 <= i < |ss| && Loose(Value(), ss[i].entry)
    {
      hide Within;
      hide Masked;
      for i := 0 to |ss|
        invariant forall j :: 0 <= j < i ==> !Loose(Value(), ss[j].entry)
      {
        if ss[i].ino.Some? && !Within(ss[i].mode, ss[i].entry.maximum) {
          assert Loose(Value(), ss[i].entry);
          return true;
        }
      }
      return false;
    }
  }

  lemma {:induction false} StillThere(w: World, es: seq<Listed>, i: nat)
    requires WellListed(es) && AllAcceptable(w, es) && Sound(w) && i < |es|
    ensures var v := NarrowedTo(w, es, i); Sound(v) && v.names == w.names && Acceptable(v, es[i])
  {
    hide Within;
    hide Masked;
    NodeAfter(w, es, i, i);
    assert Acceptable(w, es[i]);
  }

  /** One more change, against the plan. */
  lemma {:induction false} Step(w: World, es: seq<Listed>, i: nat, s: Snapshot)
    requires WellListed(es) && AllAcceptable(w, es) && i < |es| && NoneFails(w, es, i) && s.entry == es[i] && Taken(w, s)
    ensures var v := NarrowedTo(w, es, i);
            && (Fails(w, es, i) <==> (Present(v, s.entry) && NodeOf(v, s.entry).mode != s.mode) || Stuck(v, s.entry))
            && (!Fails(w, es, i) ==> ResultOf(v, s.entry) == ResultOf(w, s.entry) && NoneFails(w, es, i + 1))
  {
    hide Within;
    hide Masked;
    NodeAfter(w, es, i, i);
    KeepsPrivilege(w, es, i);
    if Present(w, es[i]) {
      MaskTwice(NodeOf(w, es[i]).mode, es[i].maximum);
    }
  }

  lemma {:induction false} KeepsPrivilege(w: World, es: seq<Listed>, k: nat)
    requires k <= |es|
    ensures NarrowedTo(w, es, k).privileged == w.privileged
    decreases k
  {
    if k > 0 { KeepsPrivilege(w, es, k - 1); }
  }

  lemma {:induction false} Split(w: World, dataDir: Name, family: seq<Name>, files: seq<Name>)
    ensures WellListed(Order(dataDir, family, files))
    ensures AllAcceptable(w, Order(dataDir, family, files))
            <==> AllAcceptable(w, EntriesOf(family, true)) && AllAcceptable(w, [DirectoryEntry(dataDir)] + EntriesOf(files, false))
  {
    var ms, os, es := EntriesOf(family, true), [DirectoryEntry(dataDir)] + EntriesOf(files, false), Order(dataDir, family, files);
    assert es == ms + os;
    if AllAcceptable(w, es) {
      forall i | 0 <= i < |ms| ensures Acceptable(w, ms[i]) { assert es[i] == ms[i]; }
      forall i | 0 <= i < |os| ensures Acceptable(w, os[i]) { assert es[|ms| + i] == os[i]; }
    }
  }

  lemma {:induction false} Settled(w: World, es: seq<Listed>, ss: seq<Snapshot>)
    requires WellListed(es) && AllAcceptable(w, es) && Sound(w) && AllTaken(w, ss, es)
    ensures var v := NarrowedTo(w, es, |es|);
            && Sound(v) && v.names == w.names
            && forall i :: 0 <= i < |ss| ==> Acceptable(v, ss[i].entry) && !Loose(v, ss[i].entry)
  {
    hide Within;
    hide Masked;
    forall i | 0 <= i < |ss| ensures Acceptable(NarrowedTo(w, es, |es|), ss[i].entry) && !Loose(NarrowedTo(w, es, |es|), ss[i].entry) {
      RepairedWorld(w, es, i);
    }
    OthersNamed(w, es, |es|);
  }

  lemma {:induction false} OthersNamed(w: World, es: seq<Listed>, k: nat)
    requires k <= |es|
    ensures NarrowedTo(w, es, k).names == w.names && NarrowedTo(w, es, k).table.Keys == w.table.Keys
    decreases k
  {
    if k > 0 { OthersNamed(w, es, k - 1); }
  }

  lemma {:induction false} FinalResults(w: World, es: seq<Listed>)
    requires WellListed(es) && AllAcceptable(w, es)
    ensures forall i :: 0 <= i < |es| ==> FinalOf(NarrowedTo(w, es, |es|), es[i], ResultOf(w, es[i])) == ResultOf(w, es[i])
  {
    hide Within;
    hide Masked;
    forall i | 0 <= i < |es| ensures FinalOf(NarrowedTo(w, es, |es|), es[i], ResultOf(w, es[i])) == ResultOf(w, es[i]) {
      RepairedWorld(w, es, i);
      if Present(w, es[i]) { MaskTwice(NodeOf(w, es[i]).mode, es[i].maximum); }
    }
  }
}
