/**
 Log message templates: counting the `{}` placeholders of a pattern, splitting it at
 them, and printing it with its arguments. Arguments are the texts their types print.
 */
module Template {
  import opened Common

  const HOLE := "{}"

  /** The characters of p from index k on stand in s, p starting at position i. */
  predicate Matches(s: string, p: string, i: nat, k: nat)
    requires i + |p| <= |s|
    decreases |p| - k
  {
    k >= |p| || (s[i + k] == p[k] && Matches(s, p, i, k + 1))
  }

  predicate Occurs(s: string, p: string, i: nat) {
    i + |p| <= |s| && Matches(s, p, i, 0)
  }

  lemma {:induction false} MatchesIs(s: string, p: string, i: nat, k: nat)
    requires i + |p| <= |s| && k <= |p|
    ensures Matches(s, p, i, k) <==> forall j | k <= j < |p| :: s[i + j] == p[j]
    decreases |p| - k
  {
    if k < |p| { MatchesIs(s, p, i, k + 1); }
  }

  /** What an occurrence is. */
  lemma {:induction false} OccursIs(s: string, p: string, i: nat)
    ensures Occurs(s, p, i) <==> i + |p| <= |s| && s[i..i + |p|] == p
  {
    if i + |p| <= |s| {
      MatchesIs(s, p, i, 0);
      var t := s[i..i + |p|];
      forall j | 0 <= j < |p| ensures t[j] == s[i + j] {}
    }
  }

  /** string_view::find(p, from): the first occurrence at or after `from`. */
  function Find(s: string, p: string, from: nat): (r: Option<nat>)
    ensures r.Some? ==> from <= r.value <= r.value + |p| <= |s|
    decreases |s| - from
  {
    if from + |p| > |s| then None
    else if Occurs(s, p, from) then Some(from)
    else Find(s, p, from + 1)
  }

  /** A placeholder stands at position i. */
  predicate HoleAt(s: string, i: nat) {
    i + 1 < |s| && s[i] == '{' && s[i + 1] == '}'
  }

  lemma OccursHole(s: string, i: nat)
    ensures Occurs(s, HOLE, i) <==> HoleAt(s, i)
  {
    if i + 2 <= |s| {
      assert HOLE[0] == '{' && HOLE[1] == '}' && |HOLE| == 2;
      MatchesIs(s, HOLE, i, 0);
    }
  }

  predicate NoHoleIn(s: string, a: nat, b: nat) {
    forall i | a <= i < b :: !HoleAt(s, i)
  }

  /** What the search finds is a placeholder, and the first one. */
  lemma {:induction false} FindHole(s: string, from: nat)
    ensures var f := Find(s, HOLE, from);
            if f.Some? then HoleAt(s, f.value) && NoHoleIn(s, from, f.value) else NoHoleIn(s, from, |s|)
    decreases |s| - from
  {
    OccursHole(s, from);
    if from + 2 <= |s| && !Occurs(s, HOLE, from) { FindHole(s, from + 1); }
  }

  lemma {:induction false} FindsAt(s: string, from: nat, at: nat)
    requires from <= at && HoleAt(s, at) && NoHoleIn(s, from, at)
    ensures Find(s, HOLE, from) == Some(at)
    decreases at - from
  {
    OccursHole(s, from);
    if from < at {
      assert !HoleAt(s, from);
      FindsAt(s, from + 1, at);
    }
  }

  lemma FindsNone(s: string, from: nat)
    requires NoHoleIn(s, from, |s|)
    ensures Find(s, HOLE, from) == None
  {
    FindHole(s, from);
  }

  // ---------------------------------------------------------------- counting

  /** Occurrences found left to right from `from`, each search starting behind the previous match. */
  function Count(s: string, p: string, from: nat): nat
    requires p != ""
    decreases |s| - from
  {
    var f := Find(s, p, from);
    if f.None? then 0 else 1 + Count(s, p, f.value + |p|)
  }

  /** None: the search finds an empty pattern again and again, so there is no result. */
  method PlaceholdersCount(view: string, pattern: string) returns (res: Option<nat>)
    ensures pattern == "" ==> res == None
    ensures pattern != "" ==> res == Some(Count(view, pattern, 0))
  {
    var count, pos := 0, 0;
    var found := Find(view, pattern, pos);
    while found.Some?
      invariant found == Find(view, pattern, pos)
      invariant pattern != "" ==> count + Count(view, pattern, pos) == Count(view, pattern, 0)
      invariant pattern == "" ==> found.Some?
      decreases |view| - pos
    {
      count := count + 1;
      pos := found.value + |pattern|;
      if pattern == "" {
        return None;
      }
      found := Find(view, pattern, pos);
    }
    res := Some(count);
  }

  /** The occurrences counted do not overlap: each takes up its own |p| characters. */
  lemma {:induction false} CountFits(s: string, p: string, from: nat)
    requires p != "" && from <= |s|
    ensures Count(s, p, from) * |p| <= |s| - from
    decreases |s| - from
  {
    var f := Find(s, p, from);
    if f.Some? { CountFits(s, p, f.value + |p|); }
  }

  /** Nothing is counted only if there is nothing to find. */
  lemma {:induction false} CountZero(s: string, p: string, from: nat)
    requires p != ""
    ensures Count(s, p, from) == 0 <==> forall i: nat | from <= i :: !Occurs(s, p, i)
    decreases |s| - from
  {
    FindFirst(s, p, from);
  }

  /** The search returns the first occurrence at or after `from`, if there is one. */
  lemma {:induction false} FindFirst(s: string, p: string, from: nat)
    ensures var f := Find(s, p, from);
            && (f.Some? ==> Occurs(s, p, f.value))
            && forall i: nat | from <= i && (f.Some? ==> i < f.value) :: !Occurs(s, p, i)
    decreases |s| - from
  {
    if from + |p| <= |s| && !Occurs(s, p, from) { FindFirst(s, p, from + 1); }
  }

  /** Every position from `from` on at which a placeholder stands, looked at one by one. */
  function HoleCount(s: string, from: nat): nat
    decreases |s| - from
  {
    if from >= |s| then 0 else (if HoleAt(s, from) then 1 else 0) + HoleCount(s, from + 1)
  }

  lemma {:induction false} NothingCounted(s: string, from: nat, end: nat)
    requires from <= end && NoHoleIn(s, from, end)
    ensures HoleCount(s, from) == HoleCount(s, end)
    decreases end as int - from as int
  {
    if from < end {
      assert !HoleAt(s, from);
      NothingCounted(s, from + 1, end);
    }
  }

  /** The count misses no placeholder, although each search skips behind the previous match. */
  lemma {:induction false} CountIsAllHoles(s: string, from: nat)
    ensures Count(s, HOLE, from) == HoleCount(s, from)
    decreases |s| - from
  {
    var f := Find(s, HOLE, from);
    FindHole(s, from);
    if f.None? {
      if from <= |s| { NothingCounted(s, from, |s|); }
    } else {
      NothingCounted(s, from, f.value);
      assert !HoleAt(s, f.value + 1);
      CountIsAllHoles(s, f.value + 2);
      assert HoleCount(s, f.value + 1) == HoleCount(s, f.value + 2);
    }
  }

  // ---------------------------------------------------------------- splitting and joining

  /** The texts around the placeholders of s, from `from` on. */
  function Pieces(s: string, from: nat): (ps: seq<string>)
    requires from <= |s|
    ensures ps != []
    decreases |s| - from
  {
    var f := Find(s, HOLE, from);
    if f.None? then [s[from..]] else [s[from..f.value]] + Pieces(s, f.value + 2)
  }

  /** The texts from index i on are what lies around the placeholders of s, from `from` on. */
  predicate Splits(s: string, from: nat, ps: seq<string>, i: nat)
    requires from <= |s| && i < |ps|
    decreases |ps| - i
  {
    var f := Find(s, HOLE, from);
    if f.None? then i == |ps| - 1 && ps[i] == s[from..]
    else i + 1 < |ps| && ps[i] == s[from..f.value] && Splits(s, f.value + 2, ps, i + 1)
  }

  lemma {:induction false} PiecesSplit(s: string, from: nat, ps: seq<string>, i: nat)
    requires from <= |s| && i < |ps| && ps[i..] == Pieces(s, from)
    ensures Splits(s, from, ps, i)
    decreases |s| - from
  {
    var f := Find(s, HOLE, from);
    assert ps[i] == ps[i..][0];
    if f.Some? {
      assert ps[i + 1..] == ps[i..][1..];
      PiecesSplit(s, f.value + 2, ps, i + 1);
    }
  }

  lemma {:induction false} SplitsPieces(s: string, from: nat, ps: seq<string>, i: nat)
    requires from <= |s| && i < |ps| && Splits(s, from, ps, i)
    ensures ps[i..] == Pieces(s, from)
    decreases |ps| - i
  {
    var f := Find(s, HOLE, from);
    if f.Some? {
      SplitsPieces(s, f.value + 2, ps, i + 1);
    }
    HeadOfRest(ps, i);
  }

  lemma HeadOfRest(ps: seq<string>, i: nat)
    requires i < |ps|
    ensures ps[i..] == [ps[i]] + ps[i + 1..]
    ensures i == |ps| - 1 ==> ps[i..] == [ps[i]]
  {
  }

  lemma {:induction false} SplitsCount(s: string, from: nat, ps: seq<string>, i: nat)
    requires from <= |s| && i < |ps| && Splits(s, from, ps, i)
    ensures |ps| - i == Count(s, HOLE, from) + 1
    decreases |ps| - i
  {
    var f := Find(s, HOLE, from);
    if f.Some? { SplitsCount(s, f.value + 2, ps, i + 1); }
  }

  /** q, then the texts from index i on with a placeholder between each two. */
  function Join(q: string, ps: seq<string>, i: nat): string
    requires i < |ps|
    decreases |ps| - i
  {
    if i == |ps| - 1 then q + ps[i] else Join(q + ps[i] + HOLE, ps, i + 1)
  }

  lemma {:induction false} SplitsJoin(s: string, from: nat, ps: seq<string>, i: nat)
    requires from <= |s| && i < |ps| && Splits(s, from, ps, i)
    ensures Join(s[..from], ps, i) == s
    decreases |ps| - i
  {
    var f := Find(s, HOLE, from);
    if f.None? {
      assert s[..from] + s[from..] == s;
    } else {
      FindHole(s, from);
      SplitsJoin(s, f.value + 2, ps, i + 1);
      UpToHole(s, from, f.value);
    }
  }

  lemma UpToHole(s: string, from: nat, at: nat)
    requires from <= at && HoleAt(s, at)
    ensures s[..from] + s[from..at] + HOLE == s[..at + 2]
  {
    assert s[..from] + s[from..at] == s[..at];
    assert HOLE == [s[at], s[at + 1]] == s[at..at + 2];
  }

  /** Splitting loses nothing: joining the pieces, one more than placeholders, rebuilds the template. */
  lemma {:induction false} JoinPieces(s: string)
    ensures Join("", Pieces(s, 0), 0) == s && |Pieces(s, 0)| == Count(s, HOLE, 0) + 1
  {
    var ps := Pieces(s, 0);
    assert ps[0..] == ps && s[..0] == "";
    PiecesSplit(s, 0, ps, 0);
    SplitsJoin(s, 0, ps, 0);
    SplitsCount(s, 0, ps, 0);
  }

  predicate NoHole(p: string) {
    NoHoleIn(p, 0, |p|)
  }

  lemma {:induction false} CutNoHole(s: string, a: nat, b: nat)
    requires a <= b <= |s| && NoHoleIn(s, a, b)
    ensures NoHole(s[a..b])
  {
    var p := s[a..b];
    forall i | 0 <= i < |p| ensures !HoleAt(p, i) {
      assert !HoleAt(s, a + i);
      assert p[i] == s[a + i] && (i + 1 < |p| ==> p[i + 1] == s[a + i + 1]);
    }
  }

  lemma {:induction false} SplitsNoHole(s: string, from: nat, ps: seq<string>, i: nat, k: nat)
    requires from <= |s| && i <= k < |ps| && Splits(s, from, ps, i)
    ensures NoHole(ps[k])
    decreases |ps| - i
  {
    var f := Find(s, HOLE, from);
    FindHole(s, from);
    if f.None? {
      assert s[from..] == s[from..|s|];
      CutNoHole(s, from, |s|);
    } else if i == k {
      CutNoHole(s, from, f.value);
    } else {
      SplitsNoHole(s, f.value + 2, ps, i + 1, k);
    }
  }

  /** Splitting leaves no placeholder inside a piece. */
  lemma {:induction false} PiecesHaveNoHole(s: string, k: nat)
    requires k < |Pieces(s, 0)|
    ensures NoHole(Pieces(s, 0)[k])
  {
    var ps := Pieces(s, 0);
    assert ps[0..] == ps;
    PiecesSplit(s, 0, ps, 0);
    SplitsNoHole(s, 0, ps, 0, k);
  }

  predicate NoHoles(ps: seq<string>) {
    forall k | 0 <= k < |ps| :: NoHole(ps[k])
  }

  lemma {:induction false} JoinStarts(q: string, ps: seq<string>, i: nat)
    requires i < |ps|
    ensures q <= Join(q, ps, i)
    decreases |ps| - i
  {
    if i < |ps| - 1 {
      var r := q + ps[i] + HOLE;
      JoinStarts(r, ps, i + 1);
      PrefixOfPrefix(q, r, Join(r, ps, i + 1));
    }
  }

  lemma PrefixOfPrefix(q: string, r: string, s: string)
    requires q <= r <= s
    ensures q <= s
  {
  }

  /** Behind q, a text without a placeholder and then a placeholder: the search stops exactly there. */
  lemma {:induction false} FindsBehind(q: string, p: string, s: string)
    requires NoHole(p) && q + p + HOLE <= s
    ensures Find(s, HOLE, |q|) == Some(|q| + |p|) && s[|q|..|q| + |p|] == p
  {
    var t := q + p + HOLE;
    assert t == s[..|t|];
    forall i | |q| <= i < |q| + |p| ensures !HoleAt(s, i) {
      assert s[i] == t[i] == p[i - |q|] && s[i + 1] == t[i + 1];
      assert !HoleAt(p, i - |q|);
      if i + 1 < |q| + |p| { assert t[i + 1] == p[i + 1 - |q|]; } else { assert t[i + 1] == '{'; }
    }
    assert s[|q| + |p|] == t[|q| + |p|] == '{' && s[|q| + |p| + 1] == t[|q| + |p| + 1] == '}';
    FindsAt(s, |q|, |q| + |p|);
  }

  lemma {:induction false} FindsNothingBehind(q: string, p: string)
    requires NoHole(p)
    ensures Find(q + p, HOLE, |q|) == None && (q + p)[|q|..] == p
  {
    var s := q + p;
    forall i | |q| <= i < |s| ensures !HoleAt(s, i) {
      assert !HoleAt(p, i - |q|);
      assert s[i] == p[i - |q|] && (i + 1 < |s| ==> s[i + 1] == p[i + 1 - |q|]);
    }
    FindsNone(s, |q|);
  }

  lemma {:induction false} JoinSplits(q: string, ps: seq<string>, i: nat)
    requires i < |ps| && NoHoles(ps)
    ensures |q| <= |Join(q, ps, i)| && Splits(Join(q, ps, i), |q|, ps, i)
    decreases |ps| - i
  {
    if i == |ps| - 1 {
      FindsNothingBehind(q, ps[i]);
    } else {
      var r := q + ps[i] + HOLE;
      JoinSplits(r, ps, i + 1);
      JoinStarts(r, ps, i + 1);
      FindsBehind(q, ps[i], Join(r, ps, i + 1));
    }
  }

  /** Joining loses nothing either: any texts without a placeholder are recovered. */
  lemma {:induction false} PiecesJoin(ps: seq<string>)
    requires ps != [] && NoHoles(ps)
    ensures Pieces(Join("", ps, 0), 0) == ps
  {
    JoinSplits("", ps, 0);
    SplitsPieces(Join("", ps, 0), 0, ps, 0);
    assert ps[0..] == ps;
  }

  // ---------------------------------------------------------------- printing

  /** The stream after the arguments from index k on, one after the other. */
  function Spare(out: string, args: seq<string>, k: nat): string
    decreases |args| - k
  {
    if k >= |args| then out else Spare(out + args[k], args, k + 1)
  }

  /**
   The stream after replacing the placeholders from `from` on by the arguments from index
   k on, left to right: spare arguments follow the text, spare placeholders stay.
   */
  function Subst(out: string, s: string, from: nat, args: seq<string>, k: nat): string
    requires from <= |s| && k <= |args|
    decreases |args| - k
  {
    var f := Find(s, HOLE, from);
    if k == |args| || f.None? then Spare(out + s[from..], args, k)
    else Subst(out + s[from..f.value] + args[k], s, f.value + 2, args, k + 1)
  }

  /**
   The texts and arguments alternating: with arguments missing, the remaining texts keep
   their placeholders; with texts missing, the remaining arguments follow.
   */
  function Alternate(out: string, ps: seq<string>, i: nat, args: seq<string>, k: nat): string
    requires i < |ps| && k <= |args|
    decreases |args| - k
  {
    if k == |args| then Join(out, ps, i)
    else if i == |ps| - 1 then Spare(out + ps[i], args, k)
    else Alternate(out + ps[i] + args[k], ps, i + 1, args, k + 1)
  }

  lemma {:induction false} SubstSplits(out: string, s: string, from: nat, args: seq<string>, k: nat,
                                       ps: seq<string>, i: nat)
    requires from <= |s| && k <= |args| && i < |ps| && Splits(s, from, ps, i)
    ensures Subst(out, s, from, args, k) == Alternate(out, ps, i, args, k)
    decreases |args| - k
  {
    var f := Find(s, HOLE, from);
    if k == |args| {
      JoinRest(out, s, from, ps, i);
    } else if f.Some? {
      SubstSplits(out + ps[i] + args[k], s, f.value + 2, args, k + 1, ps, i + 1);
    }
  }

  lemma {:induction false} JoinRest(out: string, s: string, from: nat, ps: seq<string>, i: nat)
    requires from <= |s| && i < |ps| && Splits(s, from, ps, i)
    ensures Join(out, ps, i) == out + s[from..]
    decreases |ps| - i
  {
    var f := Find(s, HOLE, from);
    if f.Some? {
      FindHole(s, from);
      JoinRest(out + ps[i] + HOLE, s, f.value + 2, ps, i + 1);
      FromHole(out, s, from, f.value);
    }
  }

  lemma {:induction false} FromHole(out: string, s: string, from: nat, at: nat)
    requires from <= at && HoleAt(s, at)
    ensures out + s[from..at] + HOLE + s[at + 2..] == out + s[from..]
  {
    assert HOLE == [s[at], s[at + 1]] == s[at..at + 2];
    assert s[from..at] + s[at..at + 2] == s[from..at + 2];
    assert s[from..at + 2] + s[at + 2..] == s[from..];
    Appended(out, s[from..at], HOLE, s[at + 2..]);
  }

  lemma Appended(a: string, b: string, c: string, d: string)
    ensures a + b + c + d == a + (b + c + d)
  {
  }

  /** What is printed, for every template and every number of arguments, in terms of the pieces. */
  lemma {:induction false} SubstMeaning(s: string, args: seq<string>)
    ensures Subst("", s, 0, args, 0) == Alternate("", Pieces(s, 0), 0, args, 0)
  {
    var ps := Pieces(s, 0);
    assert ps[0..] == ps;
    PiecesSplit(s, 0, ps, 0);
    SubstSplits("", s, 0, args, 0, ps, 0);
  }

  /** Texts and arguments strictly alternating, ending with a text. */
  function Weave(out: string, texts: seq<string>, args: seq<string>, i: nat): string
    requires |texts| == |args| + 1 && i <= |args|
    decreases |args| - i
  {
    if i == |args| then out + texts[i] else Weave(out + texts[i] + args[i], texts, args, i + 1)
  }

  /** One more argument and text print behind the others, the argument first. */
  lemma {:induction false} WeaveMore(out: string, texts: seq<string>, args: seq<string>, a: string, t: string, i: nat)
    requires |texts| == |args| + 1 && i <= |args|
    ensures Weave(out, texts + [t], args + [a], i) == Weave(out, texts, args, i) + a + t
    decreases |args| - i
  {
    if i < |args| {
      WeaveMore(out + texts[i] + args[i], texts, args, a, t, i + 1);
    } else {
      assert Weave(out, texts + [t], args + [a], i) == Weave(out + texts[i] + a, texts + [t], args + [a], i + 1);
    }
  }

  /** One more spare argument prints behind the others. */
  lemma {:induction false} SpareMore(out: string, args: seq<string>, a: string, k: nat)
    requires k <= |args|
    ensures Spare(out, args + [a], k) == Spare(out, args, k) + a
    decreases |args| - k
  {
    if k < |args| {
      SpareMore(out + args[k], args, a, k + 1);
    } else {
      assert Spare(out + a, args + [a], k + 1) == out + a;
    }
  }

  /** Replacing placeholders by placeholders prints the template itself, however many are replaced. */
  lemma {:induction false} HolesStay(out: string, s: string, from: nat, args: seq<string>, k: nat)
    requires from <= |s| && k <= |args| && |args| - k <= Count(s, HOLE, from)
    requires forall i | 0 <= i < |args| :: args[i] == HOLE
    ensures Subst(out, s, from, args, k) == out + s[from..]
    decreases |args| - k
  {
    var f := Find(s, HOLE, from);
    if k < |args| && f.Some? {
      FindHole(s, from);
      HolesStay(out + s[from..f.value] + args[k], s, f.value + 2, args, k + 1);
      FromHole(out, s, from, f.value);
    }
  }

  lemma {:induction false} AlternateMatching(out: string, ps: seq<string>, args: seq<string>, i: nat)
    requires |ps| == |args| + 1 && i <= |args|
    ensures Alternate(out, ps, i, args, i) == Weave(out, ps, args, i)
    decreases |args| - i
  {
    if i < |args| { AlternateMatching(out + ps[i] + args[i], ps, args, i + 1); }
  }

  /** A template made of n + 1 texts around n placeholders prints as the texts around the n arguments. */
  lemma {:induction false} MatchingTemplate(ps: seq<string>, args: seq<string>)
    requires |ps| == |args| + 1 && NoHoles(ps)
    ensures Count(Join("", ps, 0), HOLE, 0) == |args|
    ensures Subst("", Join("", ps, 0), 0, args, 0) == Weave("", ps, args, 0)
  {
    var s := Join("", ps, 0);
    JoinSplits("", ps, 0);
    SplitsCount(s, 0, ps, 0);
    SubstSplits("", s, 0, args, 0, ps, 0);
    AlternateMatching("", ps, args, 0);
  }

  /** Where the text in front of placeholder k begins, when `at` lists the positions of the placeholders. */
  function Begin(at: seq<nat>, k: nat): nat
    requires k <= |at|
  {
    if k == 0 then 0 else at[k - 1] + 2
  }

  /** Placeholder k is the first one behind placeholder k - 1, and this is the text between them. */
  predicate TextAt(s: string, at: seq<nat>, k: nat, text: string)
    requires k < |at|
  {
    Begin(at, k) <= at[k] <= |s| && Find(s, HOLE, Begin(at, k)) == Some(at[k]) && text == s[Begin(at, k)..at[k]]
  }

  /** The texts stored by the splitting loop: one in front of each placeholder, then the rest of s, then empty ones. */
  predicate Stored(s: string, at: seq<nat>, ts: seq<string>) {
    && |at| < |ts| && Begin(at, |at|) <= |s|
    && (|at| == |ts| - 1 || Find(s, HOLE, Begin(at, |at|)).None?)
    && (forall k | 0 <= k < |at| :: TextAt(s, at, k, ts[k]))
    && ts[|at|] == s[Begin(at, |at|)..]
    && (forall k | |at| < k < |ts| :: ts[k] == "")
  }

  /** The splitting loop, and the tail behind the last placeholder. */
  method SplitTemplate(expr: string, n: nat) returns (texts: array<string>, ghost at: seq<nat>)
    ensures fresh(texts) && texts.Length == n + 1 && Stored(expr, at, texts[..])
  {
    texts := new string[n + 1](_ => "");
    at := [];
    var from, count := 0, 0;
    var pos := Find(expr, HOLE, from);
    while pos.Some? && count < n
      invariant |at| == count <= n && from == Begin(at, count) <= |expr| && pos == Find(expr, HOLE, from)
      invariant forall k | 0 <= k < count :: TextAt(expr, at, k, texts[k])
      invariant forall k | count <= k <= n :: texts[k] == ""
      decreases n - count
    {
      texts[count] := expr[from..pos.value];
      at := at + [pos.value];
      count := count + 1;
      from := pos.value + 2;
      pos := Find(expr, HOLE, from);
    }
    texts[count] := expr[from..];
  }

  /** The splitting loop into an array of |args| + 1 texts, then the print loop over it. */
  method PrintTuple(expr: string, args: seq<string>) returns (out: string)
    ensures out == Subst("", expr, 0, args, 0)
  {
    var texts, at := SplitTemplate(expr, |args|);
    WeaveStored("", expr, at, args, 0, texts[..]);
    out := PrintTexts(texts, args);
  }

  /** Each text followed by its argument, then the last text. */
  method PrintTexts(a: array<string>, args: seq<string>) returns (out: string)
    requires a.Length == |args| + 1
    ensures out == Weave("", a[..], args, 0)
  {
    out := "";
    var i := 0;
    while i < |args|
      invariant 0 <= i <= |args| && Weave(out, a[..], args, i) == Weave("", a[..], args, 0)
    {
      out := out + a[i] + args[i];
      i := i + 1;
    }
    out := out + a[|args|];
  }

  /** Printing what the splitting loop stored is replacing the placeholders. */
  lemma {:induction false} WeaveStored(out: string, s: string, at: seq<nat>, args: seq<string>, k: nat, ts: seq<string>)
    requires |ts| == |args| + 1 && Stored(s, at, ts) && k <= |at|
    ensures Begin(at, k) <= |s| && Weave(out, ts, args, k) == Subst(out, s, Begin(at, k), args, k)
    decreases |at| - k
  {
    if k == |at| {
      WeaveEmpty(out, ts, args, k);
    } else {
      assert TextAt(s, at, k, ts[k]);
      WeaveStored(out + ts[k] + args[k], s, at, args, k + 1, ts);
    }
  }

  /** Behind the last text, unused array entries are empty: the spare arguments follow one another. */
  lemma {:induction false} WeaveEmpty(out: string, texts: seq<string>, args: seq<string>, c: nat)
    requires |texts| == |args| + 1 && c <= |args| && forall i | c < i < |texts| :: texts[i] == ""
    ensures Weave(out, texts, args, c) == Spare(out + texts[c], args, c)
    decreases |args| - c
  {
    if c < |args| {
      var next := out + texts[c] + args[c];
      WeaveEmpty(next, texts, args, c + 1);
      assert next + "" == next;
    }
  }
}
