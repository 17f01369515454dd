/** The decision-to-keystroke compiler (`calibrate_decision_steps`) and the picker it drives, as its
    module's documentation describes it. */
module DecisionKeys {
  import opened Options
  import opened Sorting

  datatype Kind = Single | Multi | Plan

  // ----- The compiler's output -----

  datatype Key = Digit(value: nat) | Down | Right | Enter

  /** One pane operation: keys, or prose that Herdr follows with its own Enter. */
  datatype Operation = Keys(keys: seq<Key>) | Input(text: string)

  // ----- Decimal numerals -----

  predicate IsDecimal(s: string) {
    s != "" && forall i :: 0 <= i < |s| ==> '0' <= s[i] <= '9'
  }

  function Numeral(s: string): nat {
    if s == "" then 0 else 10 * Numeral(s[..|s| - 1]) + DigitValue(s[|s| - 1])
  }

  function DigitValue(c: char): nat {
    if '0' <= c <= '9' then c as int - '0' as int else 0
  }

  function Digits(n: nat): (keys: seq<Key>)
    ensures keys != [] && forall i :: 0 <= i < |keys| ==> keys[i].Digit? && keys[i].value <= 9
    ensures n >= 1 ==> keys[0].value >= 1
    ensures |keys| == 1 <==> n <= 9
    ensures n <= 9 ==> keys == [Digit(n)]
  {
    if n <= 9 then [Digit(n)] else Digits(n / 10) + [Digit(n % 10)]
  }

  // ----- The compiler -----

  predicate AtMost(a: nat, b: nat) {
    a <= b
  }

  predicate Distinct(refs: seq<string>) {
    forall i, j :: 0 <= i < j < |refs| ==> refs[i] != refs[j]
  }

  predicate InRange(ref: string, count: nat) {
    IsDecimal(ref) && 1 <= Numeral(ref) <= count
  }

  predicate AllInRange(refs: seq<string>, count: nat) {
    forall i :: 0 <= i < |refs| ==> InRange(refs[i], count)
  }

  function Ordinals(refs: seq<string>): seq<nat> {
    if refs == [] then [] else Ordinals(refs[..|refs| - 1]) + [Numeral(refs[|refs| - 1])]
  }

  function Toggles(ordinals: seq<nat>): seq<Operation> {
    if ordinals == [] then [] else Toggles(ordinals[..|ordinals| - 1]) + [Keys(Digits(ordinals[|ordinals| - 1]))]
  }

  predicate ValidWriteIn(kind: Kind, refs: seq<string>, text: string) {
    kind.Single? && refs == [] && text != ""
  }

  predicate ValidChoice(kind: Kind, count: nat, refs: seq<string>) {
    refs != [] && Distinct(refs) && AllInRange(refs, count) && (!kind.Multi? ==> |refs| == 1)
  }

  /** `calibrate_decision_steps`; None is the ValueError. */
  method Calibrate(kind: Kind, count: nat, refs: seq<string>, text: Option<string>) returns (steps: Option<seq<Operation>>)
    ensures steps.Some? <==> count >= 1 && if text.Some? then ValidWriteIn(kind, refs, text.value) else ValidChoice(kind, count, refs)
    ensures steps.Some? && text.Some? ==> steps.value == WriteInSteps(count, text.value)
    ensures steps.Some? && text.None? ==> steps.value == ChoiceSteps(kind, refs)
  {
    if count < 1 { return None; }
    if text.Some? {
      if !kind.Single? || refs != [] || text.value == "" { return None; }
      return Some([Keys(seq(count, _ => Down)), Input(text.value)]);
    }
    if refs == [] || !Distinct(refs) { return None; }
    var ordinals: seq<nat> := [];
    for i := 0 to |refs|
      invariant AllInRange(refs[..i], count)
      invariant ordinals == Ordinals(refs[..i])
    {
      assert refs[..i + 1][..i] == refs[..i];
      var ref := refs[i];
      if !IsDecimal(ref) { return None; }
      var ordinal := Numeral(ref);
      if !(1 <= ordinal <= count) { return None; }
      ordinals := ordinals + [ordinal];
    }
    assert refs[..|refs|] == refs;
    OrdinalsAt(refs);
    if !kind.Multi? {
      if |ordinals| != 1 { return None; }
      return Some([Keys(Digits(ordinals[0]))]);
    }
    var sorted := Sorted(ordinals, AtMost);
    var toggles: seq<Operation> := [];
    for i := 0 to |sorted|
      invariant toggles == Toggles(sorted[..i])
    {
      assert sorted[..i + 1][..i] == sorted[..i];
      toggles := toggles + [Keys(Digits(sorted[i]))];
    }
    assert sorted[..|sorted|] == sorted;
    return Some(toggles + [Keys([Right, Enter])]);
  }

  function WriteInSteps(count: nat, text: string): seq<Operation> {
    [Keys(seq(count, _ => Down)), Input(text)]
  }

  function ChoiceSteps(kind: Kind, refs: seq<string>): seq<Operation>
    requires refs != []
  {
    if !kind.Multi? then [Keys(Digits(Numeral(refs[0])))]
    else Toggles(Sorted(Ordinals(refs), AtMost)) + [Keys([Right, Enter])]
  }

  lemma {:induction false} OrdinalsAt(refs: seq<string>)
    ensures |Ordinals(refs)| == |refs|
    ensures forall i :: 0 <= i < |refs| ==> Ordinals(refs)[i] == Numeral(refs[i])
  {
    if refs != [] { OrdinalsAt(refs[..|refs| - 1]); }
  }

  // ----- The picker -----

  datatype Answer = Chosen(rows: set<nat>) | WroteIn(text: string)

  /** `row` is the focused row, counted from 1; the write-in row comes after the last option. `extra`
      counts what arrives after the submission: it leaks into whatever interface is next. */
  datatype Picker = Picker(kind: Kind, count: nat, row: nat, marked: set<nat>, review: bool,
                           answer: Option<Answer>, extra: nat)

  function Opened(kind: Kind, count: nat): Picker {
    Picker(kind, count, 1, {}, false, None, 0)
  }

  function Toggled(rows: set<nat>, row: nat): set<nat> {
    if row in rows then rows - {row} else rows + {row}
  }

  function Press(p: Picker, key: Key): Picker {
    if p.answer.Some? then p.(extra := p.extra + 1)
    else
      match key
      case Digit(d) =>
        if !(1 <= d <= p.count) then p
        else if p.kind.Multi? then p.(marked := Toggled(p.marked, d))
        else p.(answer := Some(Chosen({d})))
      case Down => if p.row <= p.count then p.(row := p.row + 1) else p
      case Right => if p.kind.Multi? then p.(review := true) else p
      case Enter => if p.kind.Multi? && p.review then p.(answer := Some(Chosen(p.marked))) else p
  }

  function PressAll(p: Picker, keys: seq<Key>): Picker {
    if keys == [] then p else Press(PressAll(p, keys[..|keys| - 1]), keys[|keys| - 1])
  }

  function Perform(p: Picker, op: Operation): Picker {
    match op
    case Keys(keys) => PressAll(p, keys)
    case Input(text) =>
      if p.answer.Some? then p.(extra := p.extra + 1)
      else if p.kind.Single? && p.row == p.count + 1 then p.(answer := Some(WroteIn(text)))
      else p
  }

  function PerformAll(p: Picker, steps: seq<Operation>): Picker {
    if steps == [] then p else Perform(PerformAll(p, steps[..|steps| - 1]), steps[|steps| - 1])
  }

  /** The picker submitted exactly this answer, and nothing was typed after it. */
  predicate Submits(kind: Kind, count: nat, steps: seq<Operation>, answer: Answer) {
    var p := PerformAll(Opened(kind, count), steps);
    p.answer == Some(answer) && p.extra == 0
  }

  // ----- Write-ins -----

  lemma {:induction false} DownReaches(p: Picker, n: nat)
    requires p.answer.None? && p.row + n <= p.count + 1
    ensures PressAll(p, seq(n, _ => Down)) == p.(row := p.row + n)
  {
    if n > 0 {
      assert seq(n, _ => Down)[..n - 1] == seq(n - 1, _ => Down);
      DownReaches(p, n - 1);
    }
  }

  lemma {:induction false} TwoSteps(p: Picker, a: Operation, b: Operation)
    ensures PerformAll(p, [a, b]) == Perform(Perform(p, a), b)
  {
    assert [a, b][..1] == [a];
    OneStep(p, a);
  }

  /** A write-in is submitted as written whatever the number of options. */
  lemma {:induction false} WriteInIsSubmitted(count: nat, text: string)
    requires count >= 1
    ensures Submits(Single, count, WriteInSteps(count, text), WroteIn(text))
  {
    var p := Opened(Single, count);
    DownReaches(p, count);
    TwoSteps(p, Keys(seq(count, _ => Down)), Input(text));
  }

  // ----- One choice -----

  lemma {:induction false} TypedAfterwards(p: Picker, keys: seq<Key>)
    requires p.answer.Some?
    ensures PressAll(p, keys) == p.(extra := p.extra + |keys|)
  {
    if keys != [] { TypedAfterwards(p, keys[..|keys| - 1]); }
  }

  lemma {:induction false} PressAppend(p: Picker, a: seq<Key>, b: seq<Key>)
    ensures PressAll(p, a + b) == PressAll(PressAll(p, a), b)
    decreases |b|
  {
    if b == [] { assert a + b == a; }
    else {
      assert (a + b)[..|a + b| - 1] == a + b[..|b| - 1];
      PressAppend(p, a, b[..|b| - 1]);
    }
  }

  lemma {:induction false} OneStep(p: Picker, a: Operation)
    ensures PerformAll(p, [a]) == Perform(p, a)
  {
    assert [a][..0] == [];
  }

  /** A single or plan choice is submitted, with no leftover key, exactly when its ordinal is one
      digit: of a longer ordinal the first digit already submits another row. */
  lemma {:induction false} SingleChoice(kind: Kind, count: nat, refs: seq<string>)
    requires !kind.Multi? && ValidChoice(kind, count, refs)
    ensures Submits(kind, count, ChoiceSteps(kind, refs), Chosen({Numeral(refs[0])})) <==> Numeral(refs[0]) <= 9
  {
    var n := Numeral(refs[0]);
    var p := Opened(kind, count);
    var keys := Digits(n);
    OneStep(p, Keys(keys));
    assert keys == [keys[0]] + keys[1..];
    PressAppend(p, [keys[0]], keys[1..]);
    PressOne(p, keys[0]);
    assert keys[0].value <= count;
    TypedAfterwards(PressAll(p, [keys[0]]), keys[1..]);
  }

  lemma {:induction false} PressOne(p: Picker, key: Key)
    ensures PressAll(p, [key]) == Press(p, key)
  {
    assert [key][..0] == [];
  }

  // ----- Several choices -----

  /** Which rows an odd number of these keys toggles. */
  function OddRows(count: nat, keys: seq<Key>): (rows: set<nat>)
    ensures forall r :: r in rows ==> 1 <= r <= count
  {
    if keys == [] then {}
    else
      var (before, last) := (OddRows(count, keys[..|keys| - 1]), keys[|keys| - 1]);
      if last.Digit? && 1 <= last.value <= count then Toggled(before, last.value) else before
  }

  /** The keys of all the toggling steps, in order. */
  function AllDigits(ordinals: seq<nat>): seq<Key> {
    if ordinals == [] then [] else AllDigits(ordinals[..|ordinals| - 1]) + Digits(ordinals[|ordinals| - 1])
  }

  lemma {:induction false} DigitsMark(p: Picker, keys: seq<Key>)
    requires p.kind.Multi? && p.answer.None? && p.marked == {}
    requires forall i :: 0 <= i < |keys| ==> keys[i].Digit?
    ensures PressAll(p, keys) == p.(marked := OddRows(p.count, keys))
  {
    if keys != [] { DigitsMark(p, keys[..|keys| - 1]); }
  }

  lemma {:induction false} TogglesTypeDigits(p: Picker, ordinals: seq<nat>)
    ensures PerformAll(p, Toggles(ordinals)) == PressAll(p, AllDigits(ordinals))
    ensures forall i :: 0 <= i < |AllDigits(ordinals)| ==> AllDigits(ordinals)[i].Digit? && AllDigits(ordinals)[i].value <= 9
  {
    if ordinals != [] {
      var rest := ordinals[..|ordinals| - 1];
      TogglesTypeDigits(p, rest);
      assert Toggles(ordinals)[..|Toggles(ordinals)| - 1] == Toggles(rest);
      PressAppend(p, AllDigits(rest), Digits(ordinals[|ordinals| - 1]));
    }
  }

  /** What a multi-select submits: the rows toggled an odd number of times, once, nothing leftover. */
  lemma {:induction false} MultiSubmitsOddRows(count: nat, refs: seq<string>)
    requires ValidChoice(Multi, count, refs)
    ensures var p := PerformAll(Opened(Multi, count), ChoiceSteps(Multi, refs));
            p.answer == Some(Chosen(OddRows(count, AllDigits(Sorted(Ordinals(refs), AtMost))))) && p.extra == 0
  {
    var p := Opened(Multi, count);
    var sorted := Sorted(Ordinals(refs), AtMost);
    TogglesTypeDigits(p, sorted);
    DigitsMark(p, AllDigits(sorted));
    var steps := Toggles(sorted) + [Keys([Right, Enter])];
    assert steps[..|steps| - 1] == Toggles(sorted);
    SubmitTab(PerformAll(p, Toggles(sorted)));
  }

  /** Right reaches the review tab, Enter submits what is marked. */
  lemma {:induction false} SubmitTab(q: Picker)
    requires q.kind.Multi? && q.answer.None?
    ensures PressAll(q, [Right, Enter]) == q.(review := true, answer := Some(Chosen(q.marked)))
  {
    assert [Right, Enter] == [Right] + [Enter];
    PressAppend(q, [Right], [Enter]);
    PressOne(q, Right);
    PressOne(Press(q, Right), Enter);
  }

  predicate OneDigitRows(count: nat, ordinals: seq<nat>) {
    forall i :: 0 <= i < |ordinals| ==> 1 <= ordinals[i] <= count && ordinals[i] <= 9
  }

  /** Single-digit ordinals toggle their own rows, so the marked rows are those named oddly often. */
  lemma {:induction false} OddlyNamed(count: nat, ordinals: seq<nat>, r: nat)
    requires OneDigitRows(count, ordinals)
    ensures r in OddRows(count, AllDigits(ordinals)) <==> multiset(ordinals)[r] % 2 == 1
  {
    if ordinals == [] {
    } else {
      hide OddRows;
      hide AllDigits;
      var (rest, last) := (ordinals[..|ordinals| - 1], ordinals[|ordinals| - 1]);
      OddlyNamed(count, rest, r);
      CountSnoc(rest, last, r);
      assert ordinals == rest + [last];
      OneMoreDigit(count, ordinals);
    }
  }

  lemma {:induction false} CountSnoc(rest: seq<nat>, last: nat, r: nat)
    ensures multiset(rest + [last])[r] == multiset(rest)[r] + if r == last then 1 else 0
  {
  }

  lemma {:induction false} OneMoreDigit(count: nat, ordinals: seq<nat>)
    requires ordinals != [] && OneDigitRows(count, ordinals)
    ensures var (rest, last) := (ordinals[..|ordinals| - 1], ordinals[|ordinals| - 1]);
            OddRows(count, AllDigits(ordinals)) == Toggled(OddRows(count, AllDigits(rest)), last)
  {
    var (rest, last) := (ordinals[..|ordinals| - 1], ordinals[|ordinals| - 1]);
    assert Digits(last) == [Digit(last)];
    var keys := AllDigits(ordinals);
    assert keys[..|keys| - 1] == AllDigits(rest) && keys[|keys| - 1] == Digit(last);
  }

  lemma {:induction false} OddRowsAreDigits(count: nat, keys: seq<Key>)
    requires forall i :: 0 <= i < |keys| ==> keys[i].Digit? && keys[i].value <= 9
    ensures forall r :: r in OddRows(count, keys) ==> r <= 9
  {
    if keys != [] { OddRowsAreDigits(count, keys[..|keys| - 1]); }
  }

  function Named(ordinals: seq<nat>): set<nat> {
    set n | n in ordinals
  }

  /** Every ordinal is one digit and is named an odd number of times. */
  predicate NamedOddly(ordinals: seq<nat>) {
    forall i :: 0 <= i < |ordinals| ==> ordinals[i] <= 9 && multiset(ordinals)[ordinals[i]] % 2 == 1
  }

  /** A multi-select submits exactly the named rows if and only if every ordinal is one digit and
      is named an odd number of times (refs are distinct as text, but "1" and "01" name one row). */
  lemma {:induction false} MultiChoice(count: nat, refs: seq<string>)
    requires ValidChoice(Multi, count, refs)
    ensures Submits(Multi, count, ChoiceSteps(Multi, refs), Chosen(Named(Ordinals(refs)))) <==> NamedOddly(Ordinals(refs))
  {
    MultiSubmitsOddRows(count, refs);
    OrdinalsInRange(count, refs);
    RowsAreNamed(count, Ordinals(refs));
  }

  lemma {:induction false} OrdinalsInRange(count: nat, refs: seq<string>)
    requires AllInRange(refs, count)
    ensures forall i :: 0 <= i < |Ordinals(refs)| ==> 1 <= Ordinals(refs)[i] <= count
  {
    OrdinalsAt(refs);
    forall i | 0 <= i < |Ordinals(refs)| ensures 1 <= Ordinals(refs)[i] <= count { assert InRange(refs[i], count); }
  }

  lemma {:induction false} RowsAreNamed(count: nat, ordinals: seq<nat>)
    requires forall i :: 0 <= i < |ordinals| ==> 1 <= ordinals[i] <= count
    ensures OddRows(count, AllDigits(Sorted(ordinals, AtMost))) == Named(ordinals) <==> NamedOddly(ordinals)
  {
    if i :| 0 <= i < |ordinals| && ordinals[i] > 9 { LongOrdinalIsLost(count, ordinals, ordinals[i]); }
    else {
      var rows := OddRows(count, AllDigits(Sorted(ordinals, AtMost)));
      forall r ensures r in rows <==> multiset(ordinals)[r] % 2 == 1 { ShortOrdinalsMark(count, ordinals, r); }
      OddIsNamed(ordinals, rows);
    }
  }

  lemma {:induction false} LongOrdinalIsLost(count: nat, ordinals: seq<nat>, n: nat)
    requires n in ordinals && n > 9
    ensures OddRows(count, AllDigits(Sorted(ordinals, AtMost))) != Named(ordinals)
  {
    TogglesTypeDigits(Opened(Multi, count), Sorted(ordinals, AtMost));
    OddRowsAreDigits(count, AllDigits(Sorted(ordinals, AtMost)));
    assert n in Named(ordinals);
  }

  lemma {:induction false} ShortOrdinalsMark(count: nat, ordinals: seq<nat>, r: nat)
    requires OneDigitRows(count, ordinals)
    ensures r in OddRows(count, AllDigits(Sorted(ordinals, AtMost))) <==> multiset(ordinals)[r] % 2 == 1
  {
    SortedKeeps(ordinals, AtMost);
    SortedInRange(count, ordinals, Sorted(ordinals, AtMost));
    OddlyNamed(count, Sorted(ordinals, AtMost), r);
  }

  lemma {:induction false} SortedInRange(count: nat, ordinals: seq<nat>, sorted: seq<nat>)
    requires multiset(sorted) == multiset(ordinals) && OneDigitRows(count, ordinals)
    ensures OneDigitRows(count, sorted)
  {
    forall i | 0 <= i < |sorted| ensures 1 <= sorted[i] <= count && sorted[i] <= 9 {
      assert sorted[i] in multiset(sorted);
      assert sorted[i] in ordinals;
    }
  }

  lemma {:induction false} OddIsNamed(ordinals: seq<nat>, rows: set<nat>)
    requires forall r :: r in rows <==> multiset(ordinals)[r] % 2 == 1
    ensures rows == Named(ordinals) <==> forall i :: 0 <= i < |ordinals| ==> multiset(ordinals)[ordinals[i]] % 2 == 1
  {
    forall r ensures r in Named(ordinals) <==> multiset(ordinals)[r] > 0 { assert r in Named(ordinals) <==> r in ordinals; }
    if forall i :: 0 <= i < |ordinals| ==> multiset(ordinals)[ordinals[i]] % 2 == 1 {
      forall r ensures r in rows <==> r in Named(ordinals) {
        if r in Named(ordinals) { var i :| 0 <= i < |ordinals| && ordinals[i] == r; }
      }
    } else {
      var i :| 0 <= i < |ordinals| && multiset(ordinals)[ordinals[i]] % 2 != 1;
      assert ordinals[i] in Named(ordinals) && ordinals[i] !in rows;
    }
  }

  /** The ordinals that occur an odd number of times. */
  function OddOnes(ordinals: seq<nat>): set<nat> {
    set n | n in ordinals && multiset(ordinals)[n] % 2 == 1
  }

  /** With one-digit ordinals a multi-select submits, once and with no leftover key, exactly the rows that are
      named an odd number of times. */
  lemma {:induction false} OneDigitChoice(count: nat, refs: seq<string>)
    requires ValidChoice(Multi, count, refs) && forall i :: 0 <= i < |Ordinals(refs)| ==> Ordinals(refs)[i] <= 9
    ensures Submits(Multi, count, ChoiceSteps(Multi, refs), Chosen(OddOnes(Ordinals(refs))))
  {
    MultiSubmitsOddRows(count, refs);
    OrdinalsInRange(count, refs);
    OddOnesAreMarked(count, Ordinals(refs));
  }

  lemma {:induction false} OddOnesAreMarked(count: nat, ordinals: seq<nat>)
    requires OneDigitRows(count, ordinals)
    ensures OddRows(count, AllDigits(Sorted(ordinals, AtMost))) == OddOnes(ordinals)
  {
    hide OneDigitRows;
    var rows := OddRows(count, AllDigits(Sorted(ordinals, AtMost)));
    forall r: nat ensures r in rows <==> r in OddOnes(ordinals) {
      ShortOrdinalsMark(count, ordinals, r);
      hide OddRows;
      assert r in multiset(ordinals) <==> r in ordinals;
    }
  }

  // ----- Canonical refs -----

  predicate Canonical(ref: string) {
    IsDecimal(ref) && ref[0] != '0'
  }

  lemma {:induction false} CanonicalIsPositive(ref: string)
    requires Canonical(ref)
    ensures Numeral(ref) >= 1
  {
    if |ref| > 1 { CanonicalIsPositive(ref[..|ref| - 1]); }
  }

  lemma {:induction false} NumeralIsInjective(a: string, b: string)
    requires Canonical(a) && Canonical(b) && Numeral(a) == Numeral(b)
    ensures a == b
    decreases |a|
  {
    var (x, y) := (a[..|a| - 1], b[..|b| - 1]);
    assert a == x + [a[|a| - 1]] && b == y + [b[|b| - 1]];
    if |a| > 1 { CanonicalIsPositive(x); }
    if |b| > 1 { CanonicalIsPositive(y); }
    if |a| > 1 && |b| > 1 { NumeralIsInjective(x, y); }
  }

  /** The keys are the ref's own characters. */
  predicate Spells(keys: seq<Key>, ref: string) {
    |keys| == |ref| && forall i :: 0 <= i < |ref| ==> keys[i].Digit? && keys[i].value == ref[i] as int - '0' as int
  }

  lemma {:induction false} NumeralIsSpelled(ref: string)
    requires Canonical(ref)
    ensures Spells(Digits(Numeral(ref)), ref)
  {
    var rest, last := ref[..|ref| - 1], ref[|ref| - 1];
    if |ref| == 1 { assert Numeral("") == 0; }
    else {
      CanonicalIsPositive(rest);
      NumeralIsSpelled(rest);
      assert Numeral(ref) / 10 == Numeral(rest) && Numeral(ref) % 10 == DigitValue(last);
    }
  }

  /** Shorter first, and of one length as text. */
  predicate Precedes(a: string, b: string) {
    |a| < |b| || (|a| == |b| && (a == b || exists k :: 0 <= k < |a| && a[..k] == b[..k] && a[k] < b[k]))
  }

  lemma {:induction false} SmallerPrecedes(a: string, b: string)
    requires Canonical(a) && Canonical(b) && Numeral(a) <= Numeral(b)
    ensures Precedes(a, b)
    decreases |a|
  {
    SpelledLength(a);
    SpelledLength(b);
    LongerIsLarger(|b|, |a|);
    if |a| == |b| && a != b { FirstDifference(a, b); }
  }

  function Power(n: nat): (p: nat)
    ensures p >= 1
  {
    if n == 0 then 1 else 10 * Power(n - 1)
  }

  lemma {:induction false} LongerIsLarger(m: nat, n: nat)
    ensures m < n ==> Power(m) <= Power(n - 1)
    decreases n
  {
    if m < n - 1 { LongerIsLarger(m, n - 1); }
  }

  /** A canonical ref of n characters is an n-digit number. */
  lemma {:induction false} SpelledLength(ref: string)
    requires Canonical(ref)
    ensures Power(|ref| - 1) <= Numeral(ref) < Power(|ref|)
  {
    var rest := ref[..|ref| - 1];
    if |ref| == 1 { assert Numeral("") == 0 && Power(1) == 10 * Power(0); }
    else { SpelledLength(rest); }
  }

  lemma {:induction false} FirstDifference(a: string, b: string)
    requires IsDecimal(a) && IsDecimal(b) && |a| == |b| && a != b && Numeral(a) <= Numeral(b)
    ensures exists k :: 0 <= k < |a| && a[..k] == b[..k] && a[k] < b[k]
    decreases |a|
  {
    var n := |a| - 1;
    var x, y := a[..n], b[..n];
    assert Numeral(a) == 10 * Numeral(x) + DigitValue(a[n]) && Numeral(b) == 10 * Numeral(y) + DigitValue(b[n]);
    hide Numeral;
    if x == y {
      assert a == x + [a[n]] && b == y + [b[n]];
    } else {
      assert Numeral(x) <= Numeral(y);
      FirstDifference(x, y);
      var k :| 0 <= k < |x| && x[..k] == y[..k] && x[k] < y[k];
      assert a[..k] == x[..k] && b[..k] == y[..k];
    }
  }

  /** For a single or plan choice of a canonical ref the compiler presses the ref's own characters, and nothing
      else. */
  lemma {:induction false} ChoiceIsSpelled(kind: Kind, count: nat, ref: string)
    requires !kind.Multi? && ValidChoice(kind, count, [ref]) && Canonical(ref)
    ensures var steps := ChoiceSteps(kind, [ref]); |steps| == 1 && steps[0].Keys? && Spells(steps[0].keys, ref)
  {
    NumeralIsSpelled(ref);
  }

  /** These refs' own characters, one ref after the other, and then the submission. */
  predicate SpelledSteps(steps: seq<Operation>, refs: seq<string>) {
    && |steps| == |refs| + 1 && steps[|refs|] == Keys([Right, Enter])
    && forall i :: 0 <= i < |refs| ==> steps[i].Keys? && Spells(steps[i].keys, refs[i])
  }

  /** For several canonical refs it presses, ref by ref, shorter and smaller ones first, each one's own
      characters, and then submits. */
  lemma {:induction false} ChoicesAreSpelled(count: nat, refs: seq<string>) returns (ordered: seq<string>)
    requires ValidChoice(Multi, count, refs) && forall i :: 0 <= i < |refs| ==> Canonical(refs[i])
    ensures multiset(ordered) == multiset(refs) && forall i, j :: 0 <= i < j < |ordered| ==> Precedes(ordered[i], ordered[j])
    ensures SpelledSteps(ChoiceSteps(Multi, refs), ordered)
  {
    hide Canonical;
    hide Precedes;
    hide Spells;
    hide Numeral;
    hide Toggles;
    hide Ordinals;
    var sorted;
    sorted, ordered := OrderedRefs(refs);
    StillCanonical(refs, ordered);
    ArrangedIsSpelled(sorted, ordered);
    TogglesAt(sorted);
  }

  lemma {:induction false} OrderedRefs(refs: seq<string>) returns (sorted: seq<nat>, ordered: seq<string>)
    ensures sorted == Sorted(Ordinals(refs), AtMost) && Ordered(sorted, AtMost) && multiset(ordered) == multiset(refs)
    ensures |sorted| == |ordered| == |refs| && forall i :: 0 <= i < |ordered| ==> Numeral(ordered[i]) == sorted[i]
  {
    sorted, ordered := Sorted(Ordinals(refs), AtMost), Sorted(refs, ByOrdinal);
    SortedTogether(refs);
    OrdinalsAt(ordered);
    SortedKeeps(Ordinals(refs), AtMost);
    SortedKeeps(refs, ByOrdinal);
    hide Sorted;
    hide Numeral;
    SameLength(refs, ordered);
  }

  lemma {:induction false} SameLength(a: seq<string>, b: seq<string>)
    requires multiset(a) == multiset(b)
    ensures |a| == |b|
  {
    assert |multiset(a)| == |a| && |multiset(b)| == |b|;
  }

  lemma {:induction false} StillCanonical(refs: seq<string>, ordered: seq<string>)
    requires multiset(ordered) == multiset(refs) && forall i :: 0 <= i < |refs| ==> Canonical(refs[i])
    ensures forall i :: 0 <= i < |ordered| ==> Canonical(ordered[i])
  {
    hide Canonical;
    forall i | 0 <= i < |ordered| ensures Canonical(ordered[i]) {
      assert ordered[i] in multiset(ordered);
      assert ordered[i] in refs;
    }
  }

  lemma {:induction false} ArrangedIsSpelled(sorted: seq<nat>, ordered: seq<string>)
    requires |ordered| == |sorted| && Ordered(sorted, AtMost) && forall i :: 0 <= i < |ordered| ==> Canonical(ordered[i])
    requires forall i :: 0 <= i < |ordered| ==> Numeral(ordered[i]) == sorted[i]
    ensures forall i :: 0 <= i < |ordered| ==> Spells(Digits(sorted[i]), ordered[i])
    ensures forall i, j :: 0 <= i < j < |ordered| ==> Precedes(ordered[i], ordered[j])
  {
    hide Canonical;
    hide Numeral;
    hide Spells;
    hide Precedes;
    hide Digits;
    forall i | 0 <= i < |ordered| ensures Spells(Digits(sorted[i]), ordered[i]) { NumeralIsSpelled(ordered[i]); }
    forall i, j | 0 <= i < j < |ordered| ensures Precedes(ordered[i], ordered[j]) {
      assert AtMost(sorted[i], sorted[j]);
      SmallerPrecedes(ordered[i], ordered[j]);
    }
  }

  lemma {:induction false} TogglesAt(ordinals: seq<nat>)
    ensures |Toggles(ordinals)| == |ordinals|
    ensures forall i :: 0 <= i < |ordinals| ==> Toggles(ordinals)[i] == Keys(Digits(ordinals[i]))
  {
    if ordinals != [] { TogglesAt(ordinals[..|ordinals| - 1]); }
  }

  predicate ByOrdinal(a: string, b: string) {
    Numeral(a) <= Numeral(b)
  }

  /** Sorting the refs by their ordinals sorts the ordinals. */
  lemma {:induction false} SortedTogether(refs: seq<string>)
    ensures Ordinals(Sorted(refs, ByOrdinal)) == Sorted(Ordinals(refs), AtMost)
  {
    hide Numeral;
    if refs != [] {
      SortedTogether(refs[1..]);
      FirstOrdinal(refs);
      InsertedTogether(refs[0], Sorted(refs[1..], ByOrdinal));
    }
  }

  lemma {:induction false} InsertedTogether(ref: string, refs: seq<string>)
    ensures Ordinals(Inserted(ref, refs, ByOrdinal)) == Inserted(Numeral(ref), Ordinals(refs), AtMost)
  {
    hide Numeral;
    OrdinalsAt(refs);
    FirstOrdinal([ref] + refs);
    assert ([ref] + refs)[1..] == refs;
    if refs != [] && !ByOrdinal(ref, refs[0]) {
      InsertedTogether(ref, refs[1..]);
      FirstOrdinal(refs);
      var inserted := Inserted(ref, refs[1..], ByOrdinal);
      FirstOrdinal([refs[0]] + inserted);
      assert ([refs[0]] + inserted)[1..] == inserted;
    }
  }

  lemma {:induction false} FirstOrdinal(refs: seq<string>)
    requires refs != []
    ensures Ordinals(refs) == [Numeral(refs[0])] + Ordinals(refs[1..])
  {
    OrdinalsAt(refs);
    OrdinalsAt(refs[1..]);
  }

  /** A one-character ref names the row that its character is the number of. */
  lemma {:induction false} OneCharacter(ref: string, count: nat)
    requires |ref| == 1 && '0' <= ref[0] <= '9'
    ensures Numeral(ref) == ref[0] as int - '0' as int
    ensures InRange(ref, count) <==> 1 <= ref[0] as int - '0' as int <= count
  {
    assert Numeral("") == 0;
  }

  /** One-character refs submit, once and with no leftover key, exactly the rows that their characters are the
      numbers of. */
  lemma {:induction false} OneCharacterChoice(kind: Kind, count: nat, refs: seq<string>) returns (rows: set<nat>)
    requires refs != [] && Distinct(refs) && (!kind.Multi? ==> |refs| == 1)
    requires forall i :: 0 <= i < |refs| ==> |refs[i]| == 1 && '1' <= refs[i][0] <= '9' && refs[i][0] as int - '0' as int <= count
    ensures ValidChoice(kind, count, refs) && Submits(kind, count, ChoiceSteps(kind, refs), Chosen(rows))
    ensures forall r :: r in rows <==> exists i :: 0 <= i < |refs| && r == refs[i][0] as int - '0' as int
  {
    rows := OneCharacterRows(count, refs);
    hide Numeral;
    hide Submits;
    hide ChoiceSteps;
    hide Ordinals;
    if kind.Multi? {
      CanonicalOnesAreNamedOddly(refs);
      MultiChoice(count, refs);
    } else {
      SingleChoice(kind, count, refs);
      OnlyOrdinal(refs);
    }
  }

  lemma {:induction false} CanonicalOnesAreNamedOddly(refs: seq<string>)
    requires Distinct(refs) && forall i :: 0 <= i < |refs| ==> Canonical(refs[i])
    requires forall i :: 0 <= i < |Ordinals(refs)| ==> Ordinals(refs)[i] <= 9
    ensures NamedOddly(Ordinals(refs))
  {
    hide Canonical;
    forall i, j | 0 <= i < j < |Ordinals(refs)| ensures Ordinals(refs)[i] != Ordinals(refs)[j] { RefsApart(refs, i, j); }
    DistinctIsNamedOddly(Ordinals(refs));
  }

  lemma {:induction false} OneCharacterRows(count: nat, refs: seq<string>) returns (rows: set<nat>)
    requires forall i :: 0 <= i < |refs| ==> |refs[i]| == 1 && '1' <= refs[i][0] <= '9' && refs[i][0] as int - '0' as int <= count
    ensures rows == Named(Ordinals(refs)) && |Ordinals(refs)| == |refs|
    ensures forall i :: 0 <= i < |refs| ==> InRange(refs[i], count) && Canonical(refs[i]) && Ordinals(refs)[i] == Numeral(refs[i]) <= 9
    ensures forall r :: r in rows <==> exists i :: 0 <= i < |refs| && r == refs[i][0] as int - '0' as int
  {
    rows := Named(Ordinals(refs));
    OrdinalsAt(refs);
    hide Numeral;
    hide Ordinals;
    forall i | 0 <= i < |refs|
      ensures InRange(refs[i], count) && Canonical(refs[i]) && Ordinals(refs)[i] == refs[i][0] as int - '0' as int <= 9
    {
      OneCharacter(refs[i], count);
    }
    forall r ensures r in rows <==> exists i :: 0 <= i < |refs| && r == refs[i][0] as int - '0' as int {
      if r in rows { var i :| 0 <= i < |Ordinals(refs)| && Ordinals(refs)[i] == r; }
      if i :| 0 <= i < |refs| && r == refs[i][0] as int - '0' as int { assert Ordinals(refs)[i] == r; }
    }
  }

  lemma {:induction false} DistinctCounts(numbers: seq<nat>, n: nat)
    requires forall i, j :: 0 <= i < j < |numbers| ==> numbers[i] != numbers[j]
    ensures multiset(numbers)[n] == if n in numbers then 1 else 0
  {
    if numbers != [] {
      var rest := numbers[..|numbers| - 1];
      DistinctCounts(rest, n);
      assert numbers == rest + [numbers[|numbers| - 1]];
    }
  }

  /** For canonical refs of at most nine options, in any order, exactly the chosen set is submitted,
      once, with no leftover key. */
  lemma {:induction false} CanonicalChoiceIsSubmitted(kind: Kind, count: nat, refs: seq<string>)
    requires ValidChoice(kind, count, refs) && count <= 9 && forall i :: 0 <= i < |refs| ==> Canonical(refs[i])
    ensures Submits(kind, count, ChoiceSteps(kind, refs), Chosen(Named(Ordinals(refs))))
  {
    if kind.Multi? {
      CanonicalIsNamedOddly(count, refs);
      MultiChoice(count, refs);
    } else {
      SingleChoice(kind, count, refs);
      OnlyOrdinal(refs);
      assert InRange(refs[0], count);
    }
  }

  lemma {:induction false} OnlyOrdinal(refs: seq<string>)
    requires |refs| == 1
    ensures Named(Ordinals(refs)) == {Numeral(refs[0])}
  {
    OrdinalsAt(refs);
    assert Ordinals(refs) == [Numeral(refs[0])];
  }

  lemma {:induction false} CanonicalIsNamedOddly(count: nat, refs: seq<string>)
    requires Distinct(refs) && AllInRange(refs, count) && count <= 9 && forall i :: 0 <= i < |refs| ==> Canonical(refs[i])
    ensures NamedOddly(Ordinals(refs))
  {
    OrdinalsInRange(count, refs);
    var ordinals := Ordinals(refs);
    forall i, j | 0 <= i < j < |ordinals| ensures ordinals[i] != ordinals[j] { RefsApart(refs, i, j); }
    DistinctIsNamedOddly(ordinals);
  }

  lemma {:induction false} RefsApart(refs: seq<string>, i: nat, j: nat)
    requires Distinct(refs) && i < j < |Ordinals(refs)| && forall k :: 0 <= k < |refs| ==> Canonical(refs[k])
    ensures Ordinals(refs)[i] != Ordinals(refs)[j]
  {
    OrdinalsAt(refs);
    assert Canonical(refs[i]) && Canonical(refs[j]);
    if Numeral(refs[i]) == Numeral(refs[j]) { NumeralIsInjective(refs[i], refs[j]); }
  }

  lemma {:induction false} DistinctIsNamedOddly(ordinals: seq<nat>)
    requires forall i, j :: 0 <= i < j < |ordinals| ==> ordinals[i] != ordinals[j]
    requires forall i :: 0 <= i < |ordinals| ==> ordinals[i] <= 9
    ensures NamedOddly(ordinals)
  {
    forall i | 0 <= i < |ordinals| ensures multiset(ordinals)[ordinals[i]] % 2 == 1 { DistinctCounts(ordinals, ordinals[i]); }
  }

  lemma {:induction false} NumeralSnoc(s: string, c: char)
    ensures Numeral(s + [c]) == 10 * Numeral(s) + DigitValue(c)
  {
    assert (s + [c])[..|s|] == s;
  }

  lemma {:induction false} SpellingsOfOne()
    ensures InRange("1", 1) && InRange("01", 1) && Numeral("1") == 1 && Numeral("01") == 1
  {
    NumeralSnoc("", '1');
    NumeralSnoc("", '0');
    NumeralSnoc("0", '1');
    assert "1" == "" + ['1'] && "0" == "" + ['0'] && "01" == "0" + ['1'];
  }

  /** Two spellings of one row cancel out: "1" and "01" submit the empty set. */
  lemma {:induction false} TwoSpellingsCancel()
    ensures ValidChoice(Multi, 1, ["1", "01"]) && Named(Ordinals(["1", "01"])) == {1}
    ensures Submits(Multi, 1, ChoiceSteps(Multi, ["1", "01"]), Chosen({}))
    ensures !Submits(Multi, 1, ChoiceSteps(Multi, ["1", "01"]), Chosen(Named(Ordinals(["1", "01"]))))
  {
    hide Submits;
    hide ChoiceSteps;
    hide Numeral;
    hide IsDecimal;
    var refs := ["1", "01"];
    SpellingsOfOne();
    assert "1" != "01";
    OrdinalsAt(refs);
    assert Ordinals(refs) == [1, 1];
    assert multiset([1, 1])[1] == 2;
    OneDigitChoice(1, refs);
    assert OddOnes([1, 1]) == {} && Named([1, 1]) == {1};
    MultiChoice(1, refs);
  }
}
