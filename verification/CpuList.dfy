/** Parsing a cpu list such as "0,2-4,7": which cpus the functor is called for, in which order. */
module CpuList {

  /** The largest value of `unsigned`. */
  const MAX := 0xFFFF_FFFF

  /** Endless: the range loop counts past the largest unsigned value and never leaves its range. */
  datatype End = Finished | Stopped | Endless
  datatype Outcome = Outcome(calls: seq<nat>, end: End)

  // ---------------------------------------------------------------- numbers

  predicate IsDigit(c: char) {
    '0' <= c <= '9'
  }

  /** How many digits follow one another from position i on. */
  function DigitCount(s: string, i: nat): (n: nat)
    requires i <= |s|
    ensures i + n <= |s| && forall k | i <= k < i + n :: IsDigit(s[k])
    decreases |s| - i
  {
    if i == |s| || !IsDigit(s[i]) then 0 else 1 + DigitCount(s, i + 1)
  }

  /** The value of the first n characters. */
  function Value(s: string, n: nat): nat
    requires n <= |s| && forall k | 0 <= k < n :: IsDigit(s[k])
  {
    if n == 0 then 0 else
      assert IsDigit(s[n - 1]);
      Value(s, n - 1) * 10 + (s[n - 1] as int - '0' as int)
  }

  /** std::from_chars for unsigned: the longest run of digits, unless there is none or it overflows. */
  datatype Number = Bad | Good(value: nat, rest: string)

  function FromChars(s: string): Number {
    var d := DigitCount(s, 0);
    if d == 0 || Value(s, d) > MAX then Bad else Good(Value(s, d), s[d..])
  }

  function Dec(n: nat): (s: string)
    ensures s != ""
  {
    if n < 10 then [('0' as int + n) as char] else Dec(n / 10) + [('0' as int + n % 10) as char]
  }

  /** The value depends on those characters only. */
  lemma {:induction false} SameValue(s: string, t: string, n: nat)
    requires n <= |s| && n <= |t| && forall k | 0 <= k < n :: s[k] == t[k] && IsDigit(s[k])
    ensures Value(s, n) == Value(t, n)
  {
    if n > 0 { SameValue(s, t, n - 1); }
  }

  lemma {:induction false} DecValue(n: nat)
    ensures forall k | 0 <= k < |Dec(n)| :: IsDigit(Dec(n)[k])
    ensures Value(Dec(n), |Dec(n)|) == n
  {
    if n < 10 {
      assert Value(Dec(n), 0) == 0;
    } else {
      DecValue(n / 10);
      SameValue(Dec(n / 10), Dec(n), |Dec(n / 10)|);
    }
  }

  lemma {:induction false} DigitsThen(d: string, rest: string, i: nat)
    requires i <= |d| && forall k | 0 <= k < |d| :: IsDigit(d[k])
    requires rest != "" ==> !IsDigit(rest[0])
    ensures DigitCount(d + rest, i) == |d| - i
    decreases |d| - i
  {
    if i < |d| { DigitsThen(d, rest, i + 1); }
  }

  /** Printing and reading back a number that fits, whatever non-digit follows it. */
  lemma {:induction false} DecRoundTrip(n: nat, rest: string)
    requires n <= MAX && (rest != "" ==> !IsDigit(rest[0]))
    ensures FromChars(Dec(n) + rest) == Good(n, rest)
  {
    DecValue(n);
    DigitsThen(Dec(n), rest, 0);
    SameValue(Dec(n), Dec(n) + rest, |Dec(n)|);
    assert (Dec(n) + rest)[|Dec(n)|..] == rest;
  }

  /** A text that does not begin with a digit holds no number. */
  lemma NoNumber(s: string)
    requires s == "" || !IsDigit(s[0])
    ensures FromChars(s) == Bad
  {
  }

  predicate Digits(d: string) {
    d != "" && forall k | 0 <= k < |d| :: IsDigit(d[k])
  }

  predicate NoDigitFirst(s: string) {
    s == "" || !IsDigit(s[0])
  }

  /** The whole run of digits is the number; it is unreadable iff it exceeds the largest unsigned value. */
  lemma {:induction false} NumberThen(d: string, rest: string)
    requires Digits(d) && NoDigitFirst(rest)
    ensures FromChars(d + rest) == if Value(d, |d|) <= MAX then Good(Value(d, |d|), rest) else Bad
  {
    DigitsThen(d, rest, 0);
    SameValue(d, d + rest, |d|);
    assert (d + rest)[|d|..] == rest;
  }

  /** Leading zeros do not count. */
  lemma {:induction false} LeadingZero(d: string, n: nat)
    requires n <= |d| && forall k | 0 <= k < n :: IsDigit(d[k])
    ensures Value("0" + d, n + 1) == Value(d, n)
  {
    if n == 0 {
      assert Value("0" + d, 0) == 0;
    } else {
      LeadingZero(d, n - 1);
      assert ("0" + d)[n] == d[n - 1];
    }
  }

  // ---------------------------------------------------------------- sections

  function Range(a: nat, b: nat): seq<nat>
    decreases b - a
  {
    if a > b then [] else [a] + Range(a + 1, b)
  }

  /** Which cpus a range stands for: each of a, a + 1, ..., b once, in this order. */
  lemma {:induction false} RangeIs(a: nat, b: nat)
    ensures |Range(a, b)| == if a <= b then b - a + 1 else 0
    ensures forall k | 0 <= k < |Range(a, b)| :: Range(a, b)[k] == a + k
    decreases b - a
  {
    if a <= b { RangeIs(a + 1, b); }
  }

  /** What one comma-separated section does. Unreadable numbers are skipped; a foreign separator ends the call. */
  function Section(cpu: string): Outcome {
    match FromChars(cpu)
    case Bad => Outcome([], Finished)
    case Good(a, rest) =>
      if rest == "" then Outcome([a], Finished)
      else if rest[0] != '-' then Outcome([], Stopped)
      else match FromChars(rest[1..])
           case Bad => Outcome([], Finished)
           case Good(b, _) => Outcome(Range(a, b), if a <= b == MAX then Endless else Finished)
  }

  /** The range loop. `i++` wraps at MAX, so with b == MAX the loop never ends; the calls are those before the wrap. */
  method RunRange(a: nat, b: nat) returns (calls: seq<nat>, endless: bool)
    requires a <= MAX && b <= MAX
    ensures calls == Range(a, b) && (endless <==> a <= b == MAX)
    ensures |calls| == if a <= b then b - a + 1 else 0
    ensures forall k | 0 <= k < |calls| :: calls[k] == a + k
  {
    RangeIs(a, b);
    calls, endless := [], false;
    var i := a;
    while i <= b
      invariant a <= i <= MAX && !endless && (i > a ==> i - 1 < MAX)
      invariant calls + Range(i, b) == Range(a, b)
      invariant i > b ==> a > b || b < MAX
      decreases b - i
    {
      calls := calls + [i];
      assert Range(i, b) == [i] + Range(i + 1, b);
      if i == MAX {
        endless := true;
        return;
      }
      i := i + 1;
    }
  }

  /** The position of the first comma at or after `from`, or the end of s. */
  function Comma(s: string, from: nat): (n: nat)
    requires from <= |s|
    ensures from <= n <= |s| && (n < |s| ==> s[n] == ',') && forall i | from <= i < n :: s[i] != ','
    decreases |s| - from
  {
    if from == |s| || s[from] == ',' then from else Comma(s, from + 1)
  }

  /** The sections of s from `from` on. */
  function Sections(s: string, from: nat): (ss: seq<string>)
    requires from <= |s|
    ensures ss != []
    decreases |s| - from
  {
    var n := Comma(s, from);
    if n == |s| then [s[from..n]] else [s[from..n]] + Sections(s, n + 1)
  }

  /** The sections from index i on with a comma between each two. */
  function JoinSections(ss: seq<string>, i: nat): string
    requires i < |ss|
    decreases |ss| - i
  {
    if i == |ss| - 1 then ss[i] else ss[i] + "," + JoinSections(ss, i + 1)
  }

  /** Splitting loses nothing: joining the sections with commas rebuilds the list, and no section holds a comma. */
  lemma {:induction false} SectionsRebuild(s: string, from: nat, ss: seq<string>, i: nat)
    requires from <= |s| && i < |ss| && ss[i..] == Sections(s, from)
    ensures JoinSections(ss, i) == s[from..]
    ensures forall k | i <= k < |ss| :: ',' !in ss[k]
    decreases |s| - from
  {
    var n := Comma(s, from);
    assert ss[i] == ss[i..][0] == s[from..n];
    if n < |s| {
      assert ss[i + 1..] == ss[i..][1..] == Sections(s, n + 1);
      SectionsRebuild(s, n + 1, ss, i + 1);
      assert s[from..n] + "," + s[n + 1..] == s[from..];
    }
  }

  /** Sections are processed in order until one of them stops the call or never ends. */
  function Process(sections: seq<string>): Outcome {
    if sections == [] then Outcome([], Finished)
    else
      var o := Section(sections[0]);
      if o.end != Finished then o
      else After(o.calls, Process(sections[1..]))
  }

  /** The work on one section, inside the scan. */
  method RunSection(cpu: string) returns (o: Outcome)
    ensures o == Section(cpu)
  {
    match FromChars(cpu) {
      case Bad =>
        o := Outcome([], Finished);
      case Good(a, rest) =>
        if rest == "" {
          o := Outcome([a], Finished);
        } else if rest[0] != '-' {
          o := Outcome([], Stopped);
        } else {
          match FromChars(rest[1..]) {
            case Bad =>
              o := Outcome([], Finished);
            case Good(b, _) =>
              var calls, endless := RunRange(a, b);
              o := Outcome(calls, if endless then Endless else Finished);
          }
        }
    }
  }

  /** No call is made for a section without a first number, and the scan goes on. */
  lemma SectionWithoutNumber(cpu: string)
    requires NoDigitFirst(cpu)
    ensures Section(cpu) == Outcome([], Finished)
  {
    NoNumber(cpu);
  }

  /**
   A section that begins with the number d. Too large: no call, and the scan goes on. Alone: one
   call. Followed by anything but a minus sign: no call, and nothing more is scanned at all.
   */
  lemma {:induction false} SectionWithNumber(d: string, rest: string)
    requires Digits(d) && NoDigitFirst(rest)
    ensures Value(d, |d|) > MAX ==> Section(d + rest) == Outcome([], Finished)
    ensures Value(d, |d|) <= MAX && rest == "" ==> Section(d + rest) == Outcome([Value(d, |d|)], Finished)
    ensures Value(d, |d|) <= MAX && rest != "" && rest[0] != '-' ==> Section(d + rest) == Outcome([], Stopped)
  {
    NumberThen(d, rest);
  }

  /** Behind number and minus sign, no second number: no call, and the scan goes on. */
  lemma {:induction false} SectionWithoutEnd(d: string, rest: string)
    requires Digits(d) && Value(d, |d|) <= MAX && NoDigitFirst(rest)
    ensures Section(d + ("-" + rest)) == Outcome([], Finished)
  {
    NumberThen(d, "-" + rest);
    assert ("-" + rest)[1..] == rest;
    NoNumber(rest);
  }

  /**
   Number, minus sign and number, whatever follows: too large a second number is no call, else
   the cpus of the range are called for, and the scan goes on unless the range never ends.
   */
  lemma {:induction false} SectionWithRange(d: string, e: string, rest: string)
    requires Digits(d) && Value(d, |d|) <= MAX && Digits(e) && NoDigitFirst(rest)
    ensures var a, b, o := Value(d, |d|), Value(e, |e|), Section(d + ("-" + (e + rest)));
            && (b > MAX ==> o == Outcome([], Finished))
            && (b <= MAX ==>
                  && |o.calls| == (if a <= b then b - a + 1 else 0)
                  && (forall k | 0 <= k < |o.calls| :: o.calls[k] == a + k)
                  && o.end == if a <= b == MAX then Endless else Finished)
  {
    NumberThen(d, "-" + (e + rest));
    assert ("-" + (e + rest))[1..] == e + rest;
    NumberThen(e, rest);
    RangeIs(Value(d, |d|), Value(e, |e|));
  }

  lemma {:induction false} ProcessFirst(sections: seq<string>)
    requires sections != [] && Section(sections[0]).end == Finished
    ensures Process(sections) == After(Section(sections[0]).calls, Process(sections[1..]))
  {
  }

  /** Once every section has finished, what stands behind them adds its calls to theirs. */
  lemma {:induction false} ProcessMore(sections: seq<string>, more: seq<string>)
    requires Process(sections).end == Finished
    ensures Process(sections + more) == After(Process(sections).calls, Process(more))
  {
    var all := sections + more;
    if sections == [] {
      assert all == more;
    } else {
      assert all[1..] == sections[1..] + more;
      ProcessFirst(sections);
      ProcessFirst(all);
      ProcessMore(sections[1..], more);
      AfterAfter(Section(sections[0]).calls, Process(sections[1..]).calls, Process(more));
    }
  }

  /** A section that stops the call or never ends is the last one that matters. */
  lemma {:induction false} ProcessStops(sections: seq<string>, more: seq<string>)
    requires Process(sections).end != Finished
    ensures Process(sections + more) == Process(sections)
  {
    assert sections != [];
    assert (sections + more)[1..] == sections[1..] + more;
    if Section(sections[0]).end == Finished { ProcessStops(sections[1..], more); }
  }

  function After(calls: seq<nat>, o: Outcome): Outcome {
    Outcome(calls + o.calls, o.end)
  }

  /** One round of the scan: the section from `from` on is found and processed, and its calls are added. */
  method RunRound(cpus: string, from: nat, calls: seq<nat>, ghost all: Outcome) returns (next: nat, r: Outcome)
    requires from <= |cpus| && ScanAt(cpus, from, calls, all)
    ensures from <= next <= |cpus|
    ensures if r.end != Finished || next == |cpus| then all == r else ScanAt(cpus, next + 1, r.calls, all)
  {
    next := Comma(cpus, from);
    var o := RunSection(cpus[from..next]);
    ScanRound(cpus, from, next, calls, o, all);
    r := Outcome(calls + o.calls, o.end);
  }

  lemma {:induction false} ScanBegins(cpus: string)
    ensures ScanAt(cpus, 0, [], Process(Sections(cpus, 0)))
  {
    ScanIs(cpus, 0);
  }

  /** The do-while scan over the whole list. It visits every section of every string and then ends. */
  method ProcessCpuList(cpus: string) returns (r: Outcome)
    ensures r == Process(Sections(cpus, 0))
  {
    var from := 0;
    r := Outcome([], Finished);
    var more := true;
    ghost var all := Process(Sections(cpus, 0));
    ScanBegins(cpus);
    while more
      invariant from <= |cpus|
      invariant if more then ScanAt(cpus, from, r.calls, all) else all == r
      decreases more, |cpus| - from
    {
      var next: nat;
      next, r := RunRound(cpus, from, r.calls, all);
      if r.end != Finished {
        return;
      }
      more := next != |cpus|;
      if more {
        from := next + 1;
      }
    }
  }

  /** The whole list does what was done so far and then what is left does. */
  predicate ScanAt(cpus: string, from: nat, calls: seq<nat>, all: Outcome)
    requires from <= |cpus|
  {
    all == After(calls, Scan(cpus, from))
  }

  /** What the sections from `from` on do, found and processed one by one. */
  function Scan(s: string, from: nat): Outcome
    requires from <= |s|
    decreases |s| - from
  {
    var n := Comma(s, from);
    var o := Section(s[from..n]);
    if o.end != Finished || n == |s| then o else After(o.calls, Scan(s, n + 1))
  }

  lemma {:induction false} ScanIs(s: string, from: nat)
    requires from <= |s|
    ensures Scan(s, from) == Process(Sections(s, from))
    decreases |s| - from
  {
    var n := Comma(s, from);
    var ss := Sections(s, from);
    if n == |s| {
      assert ss == [s[from..n]] && ss[1..] == [];
      assert Process([]) == Outcome([], Finished);
      assert Section(s[from..n]).calls + [] == Section(s[from..n]).calls;
    } else {
      ScanIs(s, n + 1);
      assert ss[1..] == Sections(s, n + 1);
      if Section(ss[0]).end == Finished { ProcessFirst(ss); }
    }
  }

  /** One round of the scan. */
  lemma {:induction false} ScanRound(cpus: string, from: nat, next: nat, calls: seq<nat>, o: Outcome, all: Outcome)
    requires from <= |cpus| && next == Comma(cpus, from) && o == Section(cpus[from..next])
    requires ScanAt(cpus, from, calls, all)
    ensures if o.end != Finished || next == |cpus| then all == Outcome(calls + o.calls, o.end)
            else ScanAt(cpus, next + 1, calls + o.calls, all)
  {
    if o.end == Finished && next < |cpus| { AfterAfter(calls, o.calls, Scan(cpus, next + 1)); }
  }

  lemma {:induction false} AfterAfter(a: seq<nat>, b: seq<nat>, o: Outcome)
    ensures After(a, After(b, o)) == After(a + b, o)
  {
    assert a + (b + o.calls) == (a + b) + o.calls;
  }

  /** Section i is a rising range up to MAX, and no section before it stopped the scan. */
  predicate EndlessAt(sections: seq<string>, i: nat) {
    && i < |sections| && Section(sections[i]).end == Endless
    && forall j | 0 <= j < i :: Section(sections[j]).end == Finished
  }

  lemma {:induction false} EndlessShift(sections: seq<string>, i: nat)
    requires sections != [] && Section(sections[0]).end == Finished
    ensures EndlessAt(sections[1..], i) <==> EndlessAt(sections, i + 1)
  {
    var rest := sections[1..];
    if EndlessAt(rest, i) {
      forall j | 0 <= j < i + 1 ensures Section(sections[j]).end == Finished {
        if j > 0 { assert Section(rest[j - 1]).end == Finished; }
      }
    }
    if EndlessAt(sections, i + 1) {
      forall j | 0 <= j < i ensures Section(rest[j]).end == Finished {
        assert Section(sections[j + 1]).end == Finished;
      }
    }
  }

  /** When a whole list never ends. */
  lemma {:induction false} EndlessIff(sections: seq<string>)
    ensures Process(sections).end == Endless <==> exists i: nat :: EndlessAt(sections, i)
  {
    if sections != [] {
      if Section(sections[0]).end != Finished {
        assert Process(sections).end == Endless ==> EndlessAt(sections, 0);
      } else {
        EndlessIff(sections[1..]);
        if i: nat :| EndlessAt(sections[1..], i) { EndlessShift(sections, i); }
        if i: nat :| EndlessAt(sections, i) { EndlessShift(sections, i - 1); }
      }
    }
  }

  // ---------------------------------------------------------------- round trip

  datatype Item = One(n: nat) | Span(a: nat, b: nat)

  predicate Fits(item: Item) {
    match item
    case One(n) => n <= MAX
    case Span(a, b) => a <= MAX && b <= MAX
  }

  /** The item is a range that counts up to the largest unsigned value. */
  predicate ReachesMax(item: Item) {
    item.Span? && item.a <= item.b == MAX
  }

  function Print(item: Item): string {
    match item
    case One(n) => Dec(n)
    case Span(a, b) => Dec(a) + "-" + Dec(b)
  }

  /** q, then the items from index i on with a comma between each two. */
  function PrintList(q: string, items: seq<Item>, i: nat): (s: string)
    requires i < |items|
    ensures q <= s
    decreases |items| - i
  {
    if i == |items| - 1 then q + Print(items[i]) else PrintList(q + Print(items[i]) + ",", items, i + 1)
  }

  /** The texts of the items from index i on. */
  function Texts(items: seq<Item>, i: nat): (ts: seq<string>)
    requires i <= |items|
    ensures |ts| == |items| - i
    decreases |items| - i
  {
    if i == |items| then [] else [Print(items[i])] + Texts(items, i + 1)
  }

  lemma {:induction false} TextOf(items: seq<Item>, i: nat, j: nat)
    requires i <= j < |items|
    ensures Texts(items, i)[j - i] == Print(items[j])
    decreases j - i
  {
    if i < j { TextOf(items, i + 1, j); }
  }

  /** How many cpus an item stands for, and the first of them. */
  function Size(item: Item): nat {
    match item
    case One(_) => 1
    case Span(a, b) => if a <= b then b - a + 1 else 0
  }

  function First(item: Item): nat {
    match item
    case One(n) => n
    case Span(a, _) => a
  }

  function Cpus(item: Item): seq<nat> {
    match item
    case One(n) => [n]
    case Span(a, b) => Range(a, b)
  }

  /** The cpus that the items from index i on stand for. */
  function Expand(items: seq<Item>, i: nat): seq<nat>
    requires i <= |items|
    decreases |items| - i
  {
    if i == |items| then [] else Cpus(items[i]) + Expand(items, i + 1)
  }

  /** How many cpus the items from index i up to k stand for. */
  function SizeOf(items: seq<Item>, i: nat, k: nat): nat
    requires i <= k <= |items|
    decreases k - i
  {
    if i == k then 0 else Size(items[i]) + SizeOf(items, i + 1, k)
  }

  lemma CpusAre(item: Item)
    ensures |Cpus(item)| == Size(item)
    ensures forall j | 0 <= j < |Cpus(item)| :: Cpus(item)[j] == First(item) + j
  {
    if item.Span? { RangeIs(item.a, item.b); }
  }

  lemma {:induction false} ExpandSize(items: seq<Item>, i: nat)
    requires i <= |items|
    ensures |Expand(items, i)| == SizeOf(items, i, |items|)
    decreases |items| - i
  {
    if i < |items| {
      CpusAre(items[i]);
      ExpandSize(items, i + 1);
    }
  }

  /** What the expansion is: behind the cpus of the items before it, item k's cpus, one up from the other. */
  lemma {:induction false} ExpandIs(items: seq<Item>, i: nat, k: nat, j: nat)
    requires i <= k < |items| && j < Size(items[k])
    ensures SizeOf(items, i, k) + j < |Expand(items, i)|
    ensures Expand(items, i)[SizeOf(items, i, k) + j] == First(items[k]) + j
    decreases k - i
  {
    CpusAre(items[i]);
    if i < k { ExpandIs(items, i + 1, k, j); }
  }

  /** A printed item does what it says: a falling span calls nothing, one that rises to MAX is endless. */
  lemma PrintedSection(item: Item)
    requires Fits(item)
    ensures Section(Print(item)) ==
              match item
              case One(n) => Outcome([n], Finished)
              case Span(a, b) => Outcome(Range(a, b), if ReachesMax(item) then Endless else Finished)
  {
    match item
    case One(n) =>
      DecRoundTrip(n, "");
      assert Dec(n) + "" == Dec(n);
    case Span(a, b) =>
      DecRoundTrip(a, "-" + Dec(b));
      DecRoundTrip(b, "");
      assert Dec(a) + "-" + Dec(b) == Dec(a) + ("-" + Dec(b));
      assert ("-" + Dec(b))[1..] == Dec(b) == Dec(b) + "";
  }

  /** A text without a comma is skipped by the search; the comma right behind it is found. */
  lemma {:induction false} CommaBehind(s: string, from: nat, at: nat)
    requires from <= at <= |s| && forall i | from <= i < at :: s[i] != ','
    requires at < |s| ==> s[at] == ','
    ensures Comma(s, from) == at
    decreases at - from
  {
    if from < at { CommaBehind(s, from + 1, at); }
  }

  lemma NoCommaPrinted(item: Item)
    ensures forall i | 0 <= i < |Print(item)| :: Print(item)[i] != ','
  {
    match item
    case One(n) => DecValue(n);
    case Span(a, b) =>
      DecValue(a);
      DecValue(b);
  }

  lemma {:induction false} AfterPrefix(q: string, p: string, s: string)
    requires q + p + "," <= s
    ensures |q| + |p| < |s| && s[|q|..|q| + |p|] == p && s[|q| + |p|] == ','
    ensures forall i | 0 <= i < |p| :: s[|q| + i] == p[i]
  {
    var t := q + p + ",";
    assert s[..|t|] == t && t[|q| + |p|] == ',';
    assert s[|q|..|q| + |p|] == t[|q|..|q| + |p|];
  }

  /** Splitting a printed list at its commas gives back the texts of its items. */
  lemma {:induction false} PrintedSections(q: string, items: seq<Item>, i: nat)
    requires i < |items|
    ensures Sections(PrintList(q, items, i), |q|) == Texts(items, i)
    decreases |items| - i
  {
    var p, s := Print(items[i]), PrintList(q, items, i);
    NoCommaPrinted(items[i]);
    if i == |items| - 1 {
      assert s[|q|..|s|] == p;
      assert forall k | |q| <= k < |s| :: s[k] == p[k - |q|];
      CommaBehind(s, |q|, |s|);
      assert Texts(items, i + 1) == [];
    } else {
      PrintedSections(q + p + ",", items, i + 1);
      AfterPrefix(q, p, s);
      FirstSection(q, p, s);
    }
  }

  lemma {:induction false} FirstSection(q: string, p: string, s: string)
    requires |q| + |p| < |s| && s[|q|..|q| + |p|] == p && s[|q| + |p|] == ','
    requires forall i | 0 <= i < |p| :: p[i] != ','
    ensures Sections(s, |q|) == [p] + Sections(s, |q + p + ","|)
  {
    forall k | |q| <= k < |q| + |p| ensures s[k] != ',' {
      assert s[k] == s[|q|..|q| + |p|][k - |q|];
    }
    CommaBehind(s, |q|, |q| + |p|);
    assert |q + p + ","| == |q| + |p| + 1;
  }

  lemma {:induction false} ProcessPrinted(items: seq<Item>, i: nat)
    requires i <= |items|
    requires forall j | i <= j < |items| :: Fits(items[j]) && !ReachesMax(items[j])
    ensures Process(Texts(items, i)) == Outcome(Expand(items, i), Finished)
    decreases |items| - i
  {
    if i < |items| {
      PrintedSection(items[i]);
      ProcessPrinted(items, i + 1);
      assert Texts(items, i)[1..] == Texts(items, i + 1);
    }
  }

  lemma {:induction false} FirstEndless(items: seq<Item>, all: seq<string>, i: nat)
    requires i < |items| == |all| && forall j | 0 <= j < |items| :: Fits(items[j]) && all[j] == Print(items[j])
    requires Section(all[i]).end == Endless
    ensures exists k: nat :: EndlessAt(all, k)
    decreases i
  {
    if j :| 0 <= j < i && Section(all[j]).end != Finished {
      PrintedSection(items[j]);
      FirstEndless(items, all, j);
    } else {
      assert EndlessAt(all, i);
    }
  }

  lemma {:induction false} SpanToMaxNeverEnds(items: seq<Item>, i: nat)
    requires i < |items| && ReachesMax(items[i])
    requires forall j | 0 <= j < |items| :: Fits(items[j])
    ensures Process(Sections(PrintList("", items, 0), 0)).end == Endless
  {
    PrintedSections("", items, 0);
    var all := Sections(PrintList("", items, 0), 0);
    forall j: nat | j < |items| ensures all[j] == Print(items[j]) { TextOf(items, 0, j); }
    PrintedSection(items[i]);
    assert Section(all[i]).end == Endless;
    FirstEndless(items, all, i);
    EndlessIff(all);
  }

  /**
   Printing a list of cpus and ranges and processing it calls the functor for exactly those
   cpus in order and ends, iff no range rises to the largest unsigned value.
   */
  lemma {:induction false} RoundTrip(items: seq<Item>)
    requires items != [] && forall i | 0 <= i < |items| :: Fits(items[i])
    ensures Process(Sections(PrintList("", items, 0), 0)) == Outcome(Expand(items, 0), Finished)
            <==> forall i | 0 <= i < |items| :: !ReachesMax(items[i])
  {
    if i :| 0 <= i < |items| && ReachesMax(items[i]) {
      SpanToMaxNeverEnds(items, i);
    } else {
      PrintedSections("", items, 0);
      ProcessPrinted(items, 0);
    }
  }
}
