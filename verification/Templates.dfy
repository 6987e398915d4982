/** The capture-group template of a version mapping: the loop of successive replacements, and exactly when
    it is one simultaneous substitution. */
module Templates {

  predicate IsDigit(c: char) { '0' <= c <= '9' }

  predicate IsHead(c: char) { '1' <= c <= '9' }

  function DigitValue(c: char): nat
    requires IsDigit(c)
  {
    (c - '0') as int
  }

  function Digit(d: nat): (c: char)
    requires d < 10
    ensures IsDigit(c) && DigitValue(c) == d
  {
    ('0' as int + d) as char
  }

  /** Decimal form of a number, as printed by %d. */
  function Decimal(n: nat): (s: string)
    ensures s != []
  {
    if n < 10 then [Digit(n)] else Decimal(n / 10) + [Digit(n % 10)]
  }

  function Placeholder(i: nat): (s: string)
    ensures |s| >= 2 && s[0] == '$'
  {
    ['$'] + Decimal(i)
  }

  /** strings.ReplaceAll for a non-empty pattern: left to right, never rescanning its own output. */
  function ReplaceAll(s: string, old_: string, new_: string): string
    requires old_ != []
  {
    if |s| < |old_| then s
    else if s[..|old_|] == old_ then new_ + ReplaceAll(s[|old_|..], old_, new_)
    else [s[0]] + ReplaceAll(s[1..], old_, new_)
  }

  /** The value of `result` after the loop has handled groups i .. |matches|-1. */
  function ReplaceFrom(result: string, matches: seq<string>, i: nat): string
    requires i <= |matches|
    decreases |matches| - i
  {
    if i == |matches| then result
    else ReplaceFrom(ReplaceAll(result, Placeholder(i), matches[i]), matches, i + 1)
  }

  /** A placeholder at the start of a template: its group, or 0 for none, and how long it is. */
  datatype Hit = Hit(group: nat, length: nat)

  /** The longest way to go on reading digits after the value acc so that it stays below hi. */
  function Longest(s: string, acc: nat, hi: nat): (h: Hit)
    requires acc < hi
    ensures acc <= h.group < hi && h.length <= |s| && (h.length == 0 ==> h.group == acc)
    ensures forall k :: 0 <= k < h.length ==> IsDigit(s[k])
    decreases |s|
  {
    if s != [] && IsDigit(s[0]) && acc * 10 + DigitValue(s[0]) < hi then
      var h := Longest(s[1..], acc * 10 + DigitValue(s[0]), hi);
      Hit(h.group, h.length + 1)
    else Hit(acc, 0)
  }

  /** A dollar at k with a digit from 1 to 9 behind it. */
  predicate Starts(t: string, k: int) { 0 <= k && k + 1 < |t| && t[k] == '$' && IsHead(t[k + 1]) }

  /** The placeholder of the largest number of digits that names one of the groups 1 .. hi-1. */
  function HitAt(template: string, hi: nat): (h: Hit)
    ensures h.group != 0 ==> h.group < hi && 2 <= h.length <= |template|
  {
    if Starts(template, 0) && DigitValue(template[1]) < hi then
      var h := Longest(template[2..], DigitValue(template[1]), hi);
      Hit(h.group, h.length + 2)
    else Hit(0, 0)
  }

  /** Below ten groups a placeholder is one digit long. */
  lemma SingleDigit(t: string, hi: nat)
    requires hi <= 10
    ensures HitAt(t, hi)
            == if Starts(t, 0) && DigitValue(t[1]) < hi then Hit(DigitValue(t[1]), 2) else Hit(0, 0)
  {
  }

  /** One simultaneous pass over the template: every placeholder below hi is replaced in place and
      replaced text is never looked at again. */
  function Substitute(template: string, matches: seq<string>, hi: nat): string
    requires hi <= |matches|
    decreases |template|
  {
    if template == [] then []
    else
      var h := HitAt(template, hi);
      if h.group != 0 then matches[h.group] + Substitute(template[h.length..], matches, hi)
      else [template[0]] + Substitute(template[1..], matches, hi)
  }

  ghost predicate DollarFreeGroups(matches: seq<string>) {
    forall i :: 1 <= i < |matches| ==> '$' !in matches[i]
  }

  // ---- turns of the loop -------------------------------------------------------------------------

  /** Every dollar of s has a character other than c behind it, so no placeholder "$c" begins in s. */
  ghost predicate Passes(s: string, c: char) {
    forall k :: 0 <= k < |s| && s[k] == '$' ==> k + 1 < |s| && s[k + 1] != c
  }

  lemma {:induction false} ReplaceAllSkips(a: string, b: string, old_: string, new_: string)
    requires |old_| >= 2 && old_[0] == '$' && Passes(a, old_[1])
    ensures ReplaceAll(a + b, old_, new_) == a + ReplaceAll(b, old_, new_)
  {
    if a == [] {
      assert a + b == b;
    } else {
      forall k | 0 <= k < |a[1..]| && a[1..][k] == '$' ensures k + 1 < |a[1..]| && a[1..][k + 1] != old_[1] {
        assert a[k + 1] == '$';
      }
      ReplaceAllSkips(a[1..], b, old_, new_);
      assert (a + b)[1..] == a[1..] + b && (a + b)[0] == a[0];
      NoHitAtStart(a, b, old_);
      assert ReplaceAll(a + b, old_, new_) == [a[0]] + ReplaceAll(a[1..] + b, old_, new_);
    }
  }

  lemma NoHitAtStart(a: string, b: string, old_: string)
    requires |old_| >= 2 && old_[0] == '$' && a != [] && Passes(a, old_[1])
    ensures |a + b| >= |old_| ==> (a + b)[..|old_|] != old_
  {
    if |a + b| >= |old_| {
      var front := (a + b)[..|old_|];
      assert front[0] == a[0] && (a[0] == '$' ==> front[1] == a[1]);
    }
  }

  lemma PlaceholderShape(i: nat)
    requires 1 <= i <= 9
    ensures Placeholder(i) == ['$', Digit(i)]
  {
  }

  /** Turn i meets no new placeholder: the captures put in by earlier turns contain none, and complete none
      with a dollar in front of them. */
  ghost predicate Calm(t: string, m: seq<string>, i: nat)
    requires i <= |m|
  {
    forall k :: Starts(t, k) && DigitValue(t[k + 1]) < i ==>
      CalmAt(t, m[DigitValue(t[k + 1])], k, i)
  }

  ghost predicate CalmAt(t: string, capture: string, k: int, i: nat) {
    && i <= 9 && 0 <= k < |t| && Passes(capture, Digit(i))
    && (k > 0 && t[k - 1] == '$' ==> capture != [] && capture[0] != Digit(i))
  }

  lemma CalmTail(t: string, m: seq<string>, i: nat, n: nat)
    requires i <= |m| && i <= 9 && Calm(t, m, i) && n <= |t|
    ensures Calm(t[n..], m, i)
  {
    var u := t[n..];
    forall k | Starts(u, k) && DigitValue(u[k + 1]) < i ensures CalmAt(u, m[DigitValue(u[k + 1])], k, i) {
      assert u[k] == t[n + k] && u[k + 1] == t[n + k + 1] && Starts(t, n + k);
      assert CalmAt(t, m[DigitValue(t[n + k + 1])], n + k, i);
    }
  }

  /** One turn of the loop widens the simultaneous substitution by one group. */
  lemma {:induction false} OneMoreGroup(t: string, m: seq<string>, i: nat)
    requires 1 <= i < |m| && i <= 9 && Calm(t, m, i)
    ensures ReplaceAll(Substitute(t, m, i), Placeholder(i), m[i]) == Substitute(t, m, i + 1)
    decreases |t|
  {
    PlaceholderShape(i);
    SingleDigit(t, i);
    SingleDigit(t, i + 1);
    if t == [] {
    } else if Starts(t, 0) && DigitValue(t[1]) <= i {
      CalmTail(t, m, i, 2);
      OneMoreGroup(t[2..], m, i);
      PlaceholderTurn(t, m, i);
    } else {
      CalmTail(t, m, i, 1);
      OneMoreGroup(t[1..], m, i);
      LiteralTurn(t, m, i);
    }
  }

  lemma PlaceholderTurn(t: string, m: seq<string>, i: nat)
    requires 1 <= i < |m| && i <= 9 && Calm(t, m, i) && Starts(t, 0) && DigitValue(t[1]) <= i
    requires ReplaceAll(Substitute(t[2..], m, i), Placeholder(i), m[i]) == Substitute(t[2..], m, i + 1)
    ensures ReplaceAll(Substitute(t, m, i), Placeholder(i), m[i]) == Substitute(t, m, i + 1)
  {
    PlaceholderShape(i);
    SingleDigit(t, i);
    SingleDigit(t, i + 1);
    var rest := Substitute(t[2..], m, i);
    if DigitValue(t[1]) < i {
      assert CalmAt(t, m[DigitValue(t[1])], 0, i);
      ReplaceAllSkips(m[DigitValue(t[1])], rest, Placeholder(i), m[i]);
    } else {
      NoHitTwice(t, m, i);
      assert t[..2] == Placeholder(i);
      ReplaceFirst(Placeholder(i), rest, m[i]);
    }
  }

  lemma LiteralTurn(t: string, m: seq<string>, i: nat)
    requires 1 <= i < |m| && i <= 9 && Calm(t, m, i) && t != [] && !(Starts(t, 0) && DigitValue(t[1]) <= i)
    requires ReplaceAll(Substitute(t[1..], m, i), Placeholder(i), m[i]) == Substitute(t[1..], m, i + 1)
    ensures ReplaceAll(Substitute(t, m, i), Placeholder(i), m[i]) == Substitute(t, m, i + 1)
  {
    PlaceholderShape(i);
    SingleDigit(t, i);
    SingleDigit(t, i + 1);
    NoHit(t, m, i);
    NoHit(t, m, i + 1);
    var rest, s := Substitute(t[1..], m, i), Substitute(t, m, i);
    assert s[0] == t[0] && s[1..] == rest;
    if t[0] == '$' {
      BehindDollar(t, m, i);
      assert |s| >= 2 ==> s[..2][1] == rest[0];
    }
  }

  /** What follows a literal dollar is not the digit i. */
  lemma BehindDollar(t: string, m: seq<string>, i: nat)
    requires 1 <= i <= |m| && i <= 9 && Calm(t, m, i)
    requires t != [] && t[0] == '$' && !(Starts(t, 0) && DigitValue(t[1]) <= i)
    ensures var rest := Substitute(t[1..], m, i); rest == [] || rest[0] != Digit(i)
  {
    var u := t[1..];
    SingleDigit(u, i);
    if Starts(u, 0) && DigitValue(u[1]) < i {
      assert Starts(t, 1) && u[1] == t[2];
      assert CalmAt(t, m[DigitValue(t[2])], 1, i);
    } else if u != [] {
      NoHit(u, m, i);
    }
  }

  /** A dollar that begins no placeholder, and the character behind it, stand for themselves. */
  lemma NoHitTwice(t: string, m: seq<string>, hi: nat)
    requires hi <= |m| && |t| >= 2 && HitAt(t, hi).group == 0 && t[1] != '$'
    ensures Substitute(t, m, hi) == t[..2] + Substitute(t[2..], m, hi)
  {
    NoHit(t, m, hi);
    NoHit(t[1..], m, hi);
    assert t[1..][1..] == t[2..];
    assert t[..2] == [t[0]] + [t[1]];
  }

  lemma NoHit(t: string, m: seq<string>, hi: nat)
    requires hi <= |m| && t != [] && (HitAt(t, hi).group == 0 || t[0] != '$')
    ensures Substitute(t, m, hi) == [t[0]] + Substitute(t[1..], m, hi)
  {
  }

  /** With no groups known yet a template stands for itself. */
  lemma {:induction false} SubstituteNone(t: string, m: seq<string>)
    requires |m| >= 1
    ensures Substitute(t, m, 1) == t
    decreases |t|
  {
    if t != [] {
      SubstituteNone(t[1..], m);
      assert t == [t[0]] + t[1..];
    }
  }

  lemma {:induction false} LoopFromTo(t: string, m: seq<string>, i: nat, hi: nat)
    requires 1 <= i <= hi <= |m| && hi <= 10 && forall j :: i <= j < hi ==> Calm(t, m, j)
    ensures ReplaceFrom(Substitute(t, m, i), m, i) == ReplaceFrom(Substitute(t, m, hi), m, hi)
    decreases hi - i
  {
    if i < hi {
      OneMoreGroup(t, m, i);
      LoopFromTo(t, m, i + 1, hi);
    }
  }

  lemma LoopTo(t: string, m: seq<string>, hi: nat)
    requires 1 <= hi <= |m| && hi <= 10 && forall j :: 1 <= j < hi ==> Calm(t, m, j)
    ensures ReplaceFrom(t, m, 1) == ReplaceFrom(Substitute(t, m, hi), m, hi)
  {
    SubstituteNone(t, m);
    LoopFromTo(t, m, 1, hi);
  }

  // ---- ten groups and more -----------------------------------------------------------------------

  /** No dollar has a digit from 1 to 9 behind it, so no turn finds anything. */
  ghost predicate Still(s: string) { forall k :: !Starts(s, k) }

  lemma {:induction false} DecimalHead(n: nat)
    requires n >= 1
    ensures IsHead(Decimal(n)[0])
  {
    if n >= 10 { DecimalHead(n / 10); }
  }

  lemma {:induction false} StillStays(s: string, p: string, x: string)
    requires Still(s) && |p| >= 2 && p[0] == '$' && IsHead(p[1])
    ensures ReplaceAll(s, p, x) == s
  {
    if |s| >= |p| {
      var u := s[1..];
      forall k ensures !Starts(u, k) { assert !Starts(s, k + 1); }
      StillStays(u, p, x);
      assert !Starts(s, 0) && s[..|p|][0] == s[0] && s[..|p|][1] == s[1];
      assert s == [s[0]] + u;
    }
  }

  lemma {:induction false} StillLoop(s: string, m: seq<string>, i: nat)
    requires Still(s) && 1 <= i <= |m|
    ensures ReplaceFrom(s, m, i) == s
    decreases |m| - i
  {
    if i < |m| {
      DecimalHead(i);
      StillStays(s, Placeholder(i), m[i]);
      StillLoop(s, m, i + 1);
    }
  }

  /** A capture behind a dollar begins with something other than a digit from 1 to 9. */
  ghost predicate Settled(t: string, m: seq<string>)
    requires |m| >= 10
  {
    DollarFreeGroups(m) && forall k :: Trap(t, k, 10) ==>
      m[DigitValue(t[k + 2])] != [] && !IsHead(m[DigitValue(t[k + 2])][0])
  }

  lemma StillConcat(a: string, b: string)
    requires Still(b) && '$' !in a
    ensures Still(a + b)
  {
    forall k ensures !Starts(a + b, k) {
      assert !Starts(b, k - |a|) && (0 <= k < |a| ==> (a + b)[k] == a[k]);
    }
  }

  lemma SettledTail(t: string, m: seq<string>, n: nat)
    requires |m| >= 10 && Settled(t, m) && n <= |t|
    ensures Settled(t[n..], m)
  {
    var u := t[n..];
    forall k | Trap(u, k, 10) ensures m[DigitValue(u[k + 2])] != [] && !IsHead(m[DigitValue(u[k + 2])][0]) {
      assert u[k] == t[n + k] && u[k + 1] == t[n + k + 1] && u[k + 2] == t[n + k + 2] && Trap(t, n + k, 10);
    }
  }

  lemma {:induction false} StillAfterNine(t: string, m: seq<string>)
    requires |m| >= 10 && Settled(t, m)
    ensures Still(Substitute(t, m, 10))
    decreases |t|
  {
    SingleDigit(t, 10);
    if t == [] {
    } else if Starts(t, 0) {
      SettledTail(t, m, 2);
      StillAfterNine(t[2..], m);
      StillConcat(m[DigitValue(t[1])], Substitute(t[2..], m, 10));
    } else {
      SettledTail(t, m, 1);
      StillAfterNine(t[1..], m);
      StillBehind(t, m);
    }
  }

  lemma StillBehind(t: string, m: seq<string>)
    requires |m| >= 10 && Settled(t, m) && t != [] && !Starts(t, 0) && Still(Substitute(t[1..], m, 10))
    ensures Still(Substitute(t, m, 10))
  {
    var u := t[1..];
    var rest, s := Substitute(u, m, 10), Substitute(t, m, 10);
    SingleDigit(t, 10);
    SingleDigit(u, 10);
    NoHit(t, m, 10);
    if t[0] == '$' && u != [] {
      if Starts(u, 0) {
        assert Trap(t, 0, 10) && u[1] == t[2];
      } else {
        NoHit(u, m, 10);
      }
    }
    assert rest == [] || t[0] != '$' || !IsHead(rest[0]);
    forall k ensures !Starts(s, k) {
      assert !Starts(rest, k - 1);
    }
  }

  lemma LoopAfterNine(t: string, m: seq<string>)
    requires |m| > 10 && Settled(t, m) && forall j :: 1 <= j < 10 ==> Calm(t, m, j)
    ensures ReplaceFrom(t, m, 1) == Substitute(t, m, 10)
  {
    LoopTo(t, m, 10);
    StillAfterNine(t, m);
    StillLoop(Substitute(t, m, 10), m, 10);
  }

  /** With ten groups or more and dollar-free captures, the loop only ever replaces one-digit placeholders,
      unless two adjacent dollars stand before one. */
  lemma LoopReadsOneDigit(t: string, m: seq<string>)
    requires |m| > 10 && DollarFreeGroups(m) && forall k :: !Trap(t, k, 10)
    ensures ReplaceFrom(t, m, 1) == Substitute(t, m, 10)
  {
    forall j | 1 <= j < 10 ensures Calm(t, m, j) {
      assert forall k :: Trap(t, k, j) ==> Trap(t, k, 10);
      CalmWithoutTraps(t, m, j);
    }
    LoopAfterNine(t, m);
  }

  // ---- when loop and substitution agree ----------------------------------------------------------

  /** Two dollars at k and then the digit of a group below n: the capture of that group can complete a
      placeholder of a later turn with the first dollar. */
  predicate Trap(t: string, k: int, n: nat) {
    0 <= k && k + 2 < |t| && t[k] == '$' && t[k + 1] == '$' && IsHead(t[k + 2]) && DigitValue(t[k + 2]) < n
  }

  /** A placeholder of two or more digits at k that names one of n groups: an earlier turn eats its front. */
  predicate Long(t: string, k: int, n: nat) {
    Starts(t, k) && k + 2 < |t| && IsDigit(t[k + 2]) && 10 * DigitValue(t[k + 1]) + DigitValue(t[k + 2]) <= n
  }

  /** What the author of a template can check. */
  ghost predicate Unambiguous(t: string, n: nat) {
    forall k :: !Trap(t, k, n) && !Long(t, k, n)
  }

  lemma CalmWithoutTraps(t: string, m: seq<string>, i: nat)
    requires i <= |m| && i <= 9 && DollarFreeGroups(m) && forall k :: !Trap(t, k, i)
    ensures Calm(t, m, i)
  {
    forall k | Starts(t, k) && DigitValue(t[k + 1]) < i ensures CalmAt(t, m[DigitValue(t[k + 1])], k, i) {
      assert k > 0 ==> !Trap(t, k - 1, i);
    }
  }

  /** Without long placeholders the groups from ten on are not used. */
  lemma {:induction false} ShortOnly(t: string, m: seq<string>, n: nat)
    requires |m| == n + 1 && n >= 9 && forall k :: !Long(t, k, n)
    ensures Substitute(t, m, 10) == Substitute(t, m, n + 1)
    decreases |t|
  {
    SingleDigit(t, 10);
    if t != [] {
      var l := if Starts(t, 0) then 2 else 1;
      forall k ensures !Long(t[l..], k, n) { assert !Long(t, l + k, n); }
      ShortOnly(t[l..], m, n);
      assert !Long(t, 0, n);
      assert Starts(t, 0) && |t| > 2 ==> t[2..][0] == t[2];
    }
  }

  /** The loop of successive ReplaceAll calls is one simultaneous substitution, for all captures without
      dollars and any number of groups, when the template is unambiguous. */
  lemma LoopIsSimultaneous(t: string, m: seq<string>)
    requires |m| >= 1 && DollarFreeGroups(m) && Unambiguous(t, |m| - 1)
    ensures ReplaceFrom(t, m, 1) == Substitute(t, m, |m|)
  {
    if |m| <= 10 {
      forall j | 1 <= j < |m| ensures Calm(t, m, j) {
        assert forall k :: Trap(t, k, j) ==> Trap(t, k, |m| - 1);
        CalmWithoutTraps(t, m, j);
      }
      LoopTo(t, m, |m|);
    } else {
      assert forall k :: Trap(t, k, 10) ==> Trap(t, k, |m| - 1);
      LoopReadsOneDigit(t, m);
      ShortOnly(t, m, |m| - 1);
    }
  }

  // ---- counting dollars --------------------------------------------------------------------------

  function Dollars(s: string): nat {
    if s == [] then 0 else (if s[0] == '$' then 1 else 0) + Dollars(s[1..])
  }

  lemma {:induction false} DollarsConcat(a: string, b: string)
    ensures Dollars(a + b) == Dollars(a) + Dollars(b)
  {
    if a == [] {
      assert a + b == b;
    } else {
      DollarsConcat(a[1..], b);
      assert (a + b)[1..] == a[1..] + b;
    }
  }

  lemma {:induction false} NoDollars(s: string)
    requires '$' !in s
    ensures Dollars(s) == 0
  {
    if s != [] { NoDollars(s[1..]); }
  }

  ghost predicate Occurs(p: string, s: string) { exists k :: OccursAt(p, s, k) }

  predicate OccursAt(p: string, s: string, k: int) { 0 <= k && k + |p| <= |s| && s[k..k + |p|] == p }

  /** Replacing a placeholder by text without dollars never adds a dollar, and removes one if it occurs. */
  lemma {:induction false} TurnRemoves(s: string, p: string, x: string)
    requires p != [] && p[0] == '$' && '$' !in x
    ensures Dollars(ReplaceAll(s, p, x)) <= Dollars(s)
    ensures Occurs(p, s) ==> Dollars(ReplaceAll(s, p, x)) < Dollars(s)
  {
    if |s| < |p| {
    } else if s[..|p|] == p {
      var rest := s[|p|..];
      TurnRemoves(rest, p, x);
      NoDollars(x);
      DollarsConcat(x, ReplaceAll(rest, p, x));
      DollarsConcat(p, rest);
      assert s == p + rest && s[0] == p[0];
    } else {
      TurnRemoves(s[1..], p, x);
      DollarsConcat([s[0]], ReplaceAll(s[1..], p, x));
      assert [s[0]][1..] == [];
      if Occurs(p, s) {
        var k :| OccursAt(p, s, k);
        assert k > 0 && OccursAt(p, s[1..], k - 1);
      }
    }
  }

  lemma {:induction false} LoopRemoves(s: string, m: seq<string>, i: nat)
    requires i <= |m| && forall j :: i <= j < |m| ==> '$' !in m[j]
    ensures Dollars(ReplaceFrom(s, m, i)) <= Dollars(s)
    decreases |m| - i
  {
    if i < |m| {
      TurnRemoves(s, Placeholder(i), m[i]);
      LoopRemoves(ReplaceAll(s, Placeholder(i), m[i]), m, i + 1);
    }
  }

  // ---- captures that tell them apart -------------------------------------------------------------

  /** The capture of group d is s, and every other one is "x". */
  function Marked(n: nat, d: nat, s: string): (m: seq<string>)
    ensures |m| == n + 1
  {
    seq(n + 1, j => if j == d then s else "x")
  }

  /** A placeholder of group d stands at k, behind a dollar unless `alone`. */
  predicate Marks(t: string, k: int, d: nat, alone: bool) {
    Starts(t, k) && DigitValue(t[k + 1]) == d && (alone || (k > 0 && t[k - 1] == '$'))
  }

  lemma CalmMarked(t: string, n: nat, d: nat, s: string, i: nat)
    requires i <= 9 && i <= n + 1 && (d < i ==> Passes(s, Digit(i)) && s != [] && s[0] != Digit(i))
    ensures Calm(t, Marked(n, d, s), i)
  {
  }

  /** The dollars the last of at most nine turns leaves, and those of the substitution. */
  ghost predicate Fewer(t: string, n: nat, d: nat, alone: bool)
    requires 1 <= d < n <= 9
  {
    var m := Marked(n, d, Bait(n, alone));
    var turned, whole := ReplaceAll(Substitute(t, m, n), Placeholder(n), "x"), Substitute(t, m, n + 1);
    && Dollars(turned) <= Dollars(whole)
    && ((exists k :: Marks(t, k, d, alone)) ==> Dollars(turned) < Dollars(whole))
  }

  /** A capture that is the last placeholder, or the digit of it. */
  function Bait(n: nat, alone: bool): string
    requires n <= 9
  {
    if alone then ['$', Digit(n)] else [Digit(n)]
  }

  lemma {:induction false} LastTurn(t: string, n: nat, d: nat, alone: bool)
    requires 1 <= d < n <= 9
    ensures Fewer(t, n, d, alone)
    decreases |t|
  {
    if t == [] {
    } else if Starts(t, 0) && DigitValue(t[1]) <= n {
      LastTurn(t[2..], n, d, alone);
      MarksTail(t, d, alone, 2);
      LastTurnPlaceholder(t, n, d, alone);
    } else {
      LastTurn(t[1..], n, d, alone);
      MarksTail(t, d, alone, 1);
      LastTurnLiteral(t, n, d, alone);
    }
  }

  /** Behind what the first n characters stand for, the same placeholders are marked. */
  lemma MarksTail(t: string, d: nat, alone: bool, n: nat)
    requires 1 <= n <= 2 && n <= |t| && (n == 2 ==> Starts(t, 0))
    ensures forall k :: Marks(t, k, d, alone) ==>
              k == 0 || (n == 1 && k == 1 && !alone && t[0] == '$') || Marks(t[n..], k - n, d, alone)
  {
    forall k | Marks(t, k, d, alone) && k >= n ensures Starts(t[n..], k - n) && t[n..][k - n + 1] == t[k + 1] {
    }
  }

  lemma LastTurnPlaceholder(t: string, n: nat, d: nat, alone: bool)
    requires 1 <= d < n <= 9 && Starts(t, 0) && DigitValue(t[1]) <= n && Fewer(t[2..], n, d, alone)
    requires forall k :: Marks(t, k, d, alone) ==> k == 0 || Marks(t[2..], k - 2, d, alone)
    ensures Fewer(t, n, d, alone)
  {
    if DigitValue(t[1]) == n || (DigitValue(t[1]) == d && alone) {
      LastTurnHits(t, n, d, alone);
    } else {
      LastTurnSkips(t, n, d, alone);
    }
  }

  lemma LastTurnHits(t: string, n: nat, d: nat, alone: bool)
    requires 1 <= d < n <= 9 && Starts(t, 0) && DigitValue(t[1]) <= n && Fewer(t[2..], n, d, alone)
    requires forall k :: Marks(t, k, d, alone) ==> k == 0 || Marks(t[2..], k - 2, d, alone)
    requires DigitValue(t[1]) == n || (DigitValue(t[1]) == d && alone)
    ensures Fewer(t, n, d, alone)
  {
    var m, g, p := Marked(n, d, Bait(n, alone)), DigitValue(t[1]), Placeholder(n);
    PlaceholderShape(n);
    SingleDigit(t, n);
    SingleDigit(t, n + 1);
    DollarsConcat(m[g], Substitute(t[2..], m, n + 1));
    PlaceholderFirst(t, m, n);
    DollarsConcat("x", ReplaceAll(Substitute(t[2..], m, n), p, "x"));
    assert Dollars("x") == 0;
    if g != n { assert m[g] == p && Dollars(p) >= 1; }
  }

  lemma LastTurnSkips(t: string, n: nat, d: nat, alone: bool)
    requires 1 <= d < n <= 9 && Starts(t, 0) && DigitValue(t[1]) < n && Fewer(t[2..], n, d, alone)
    requires forall k :: Marks(t, k, d, alone) ==> k == 0 || Marks(t[2..], k - 2, d, alone)
    requires !(DigitValue(t[1]) == d && alone)
    ensures Fewer(t, n, d, alone)
  {
    var m, g, p := Marked(n, d, Bait(n, alone)), DigitValue(t[1]), Placeholder(n);
    PlaceholderShape(n);
    SingleDigit(t, n);
    SingleDigit(t, n + 1);
    var rest := Substitute(t[2..], m, n);
    DollarsConcat(m[g], Substitute(t[2..], m, n + 1));
    ReplaceAllSkips(m[g], rest, p, "x");
    DollarsConcat(m[g], ReplaceAll(rest, p, "x"));
  }

  /** The turn replaces what the placeholder at the start stands for, when that is its own placeholder. */
  lemma PlaceholderFirst(t: string, m: seq<string>, n: nat)
    requires 1 <= n < |m| && n <= 9 && Starts(t, 0) && DigitValue(t[1]) <= n
    requires DigitValue(t[1]) < n ==> m[DigitValue(t[1])] == Placeholder(n)
    ensures ReplaceAll(Substitute(t, m, n), Placeholder(n), "x")
            == "x" + ReplaceAll(Substitute(t[2..], m, n), Placeholder(n), "x")
  {
    PlaceholderShape(n);
    SingleDigit(t, n);
    var p, rest := Placeholder(n), Substitute(t[2..], m, n);
    if DigitValue(t[1]) == n {
      NoHitTwice(t, m, n);
      assert t[..2] == p;
    }
    ReplaceFirst(p, rest, "x");
  }

  lemma ReplaceFirst(p: string, rest: string, x: string)
    requires p != []
    ensures ReplaceAll(p + rest, p, x) == x + ReplaceAll(rest, p, x)
  {
    assert (p + rest)[..|p|] == p && (p + rest)[|p|..] == rest;
  }

  lemma LastTurnLiteral(t: string, n: nat, d: nat, alone: bool)
    requires 1 <= d < n <= 9 && t != [] && !(Starts(t, 0) && DigitValue(t[1]) <= n) && Fewer(t[1..], n, d, alone)
    requires forall k :: Marks(t, k, d, alone) ==>
               k == 0 || (k == 1 && !alone && t[0] == '$') || Marks(t[1..], k - 1, d, alone)
    ensures Fewer(t, n, d, alone)
  {
    var m, p := Marked(n, d, Bait(n, alone)), Placeholder(n);
    PlaceholderShape(n);
    SingleDigit(t, n);
    SingleDigit(t, n + 1);
    NoHit(t, m, n);
    NoHit(t, m, n + 1);
    var s, rest, rest' := Substitute(t, m, n), Substitute(t[1..], m, n), Substitute(t[1..], m, n + 1);
    DollarsConcat([t[0]], rest');
    assert s[0] == t[0] && s[1..] == rest && Dollars([t[0]]) == if t[0] == '$' then 1 else 0;
    if !alone && t[0] == '$' && Marks(t, 1, d, alone) { MarkedBehind(t, n, d, alone); }
    if t[0] == '$' && rest != [] && rest[0] == Digit(n) {
      CompletedFirst(s, rest, n);
    } else {
      assert |s| >= 2 ==> s[..2][0] == t[0] && s[..2][1] == rest[0];
      DollarsConcat([t[0]], ReplaceAll(rest, p, "x"));
    }
  }

  /** A dollar in front completes a placeholder, and is gone. */
  lemma CompletedFirst(s: string, rest: string, n: nat)
    requires 1 <= n <= 9 && s == ['$'] + rest && rest != [] && rest[0] == Digit(n)
    ensures Dollars(ReplaceAll(s, Placeholder(n), "x")) == Dollars(ReplaceAll(rest, Placeholder(n), "x"))
  {
    PlaceholderShape(n);
    var p, tail := Placeholder(n), rest[1..];
    assert s == p + tail && rest == [Digit(n)] + tail;
    ReplaceFirst(p, tail, "x");
    ReplaceAllSkips([Digit(n)], tail, p, "x");
    DollarsConcat([Digit(n)], ReplaceAll(tail, p, "x"));
    DollarsConcat("x", ReplaceAll(tail, p, "x"));
    NoDollars("x");
    NoDollars([Digit(n)]);
  }

  /** The marked capture right behind a dollar. */
  lemma MarkedBehind(t: string, n: nat, d: nat, alone: bool)
    requires 1 <= d < n <= 9 && t != [] && t[0] == '$' && !alone && Marks(t, 1, d, alone)
    ensures var rest := Substitute(t[1..], Marked(n, d, Bait(n, alone)), n); rest != [] && rest[0] == Digit(n)
  {
    SingleDigit(t[1..], n);
  }

  lemma FewDisagree(t: string, n: nat, k: int, d: nat, alone: bool) returns (m: seq<string>)
    requires 1 <= d < n <= 9 && Marks(t, k, d, alone)
    ensures |m| == n + 1 && (!alone ==> DollarFreeGroups(m)) && ReplaceFrom(t, m, 1) != Substitute(t, m, n + 1)
  {
    m := Marked(n, d, Bait(n, alone));
    forall j | 1 <= j < n ensures Calm(t, m, j) { CalmMarked(t, n, d, Bait(n, alone), j); }
    LoopTo(t, m, n);
    LastTurn(t, n, d, alone);
    assert m[n] == "x" && Digit(n) != '$';
    assert ReplaceFrom(Substitute(t, m, n), m, n) == ReplaceAll(Substitute(t, m, n), Placeholder(n), "x");
  }

  // ---- ten groups and more, the other way --------------------------------------------------------

  lemma OccursRight(p: string, a: string, b: string)
    requires Occurs(p, b)
    ensures Occurs(p, a + b)
  {
    var k :| OccursAt(p, b, k);
    assert (a + b)[|a| + k..|a| + k + |p|] == b[k..k + |p|];
    assert OccursAt(p, a + b, |a| + k);
  }

  lemma OccursFirst(p: string, b: string)
    ensures Occurs(p, p + b)
  {
    assert OccursAt(p, p + b, 0);
  }

  /** A marked capture stands in the substitution, behind a dollar unless `alone`. */
  lemma {:induction false} MarkOccurs(t: string, m: seq<string>, k: int, d: nat, alone: bool)
    requires |m| >= 10 && 1 <= d <= 9 && Marks(t, k, d, alone)
    ensures Occurs((if alone then [] else ['$']) + m[d], Substitute(t, m, 10))
    decreases |t|
  {
    var p := (if alone then [] else ['$']) + m[d];
    SingleDigit(t, 10);
    if k == 0 {
      assert p == m[d];
      OccursFirst(p, Substitute(t[2..], m, 10));
    } else if k == 1 && !alone {
      SingleDigit(t[1..], 10);
      NoHit(t, m, 10);
      var rest := Substitute(t[1..][2..], m, 10);
      assert Substitute(t, m, 10) == ['$'] + (m[d] + rest) == p + rest;
      OccursFirst(p, rest);
    } else {
      var n := if Starts(t, 0) then 2 else 1;
      MarksTail(t, d, alone, n);
      MarkOccurs(t[n..], m, k - n, d, alone);
      OccursRight(p, if n == 2 then m[DigitValue(t[1])] else [t[0]], Substitute(t[n..], m, 10));
    }
  }

  lemma DecimalTen()
    ensures Decimal(10) == "10" && Placeholder(10) == "$10"
  {
    assert Decimal(10) == Decimal(1) + [Digit(0)];
  }

  lemma ManyDisagree(t: string, n: nat, k: int, d: nat, alone: bool) returns (m: seq<string>)
    requires n >= 10 && 1 <= d <= 9 && Marks(t, k, d, alone) && forall i :: !Long(t, i, n)
    ensures |m| == n + 1 && (!alone ==> DollarFreeGroups(m)) && ReplaceFrom(t, m, 1) != Substitute(t, m, n + 1)
  {
    var bait := if alone then "$10" else "10";
    m := Marked(n, d, bait);
    forall j | 1 <= j < 10 ensures Calm(t, m, j) { CalmMarked(t, n, d, bait, j); }
    LoopTo(t, m, 10);
    DecimalTen();
    var s := Substitute(t, m, 10);
    MarkOccurs(t, m, k, d, alone);
    assert (if alone then [] else ['$']) + m[d] == Placeholder(10);
    TurnRemoves(s, Placeholder(10), m[10]);
    LoopRemoves(ReplaceAll(s, Placeholder(10), m[10]), m, 11);
    ShortOnly(t, m, n);
  }

  /** Text without dollars stands for itself. */
  lemma {:induction false} LiteralPrefix(a: string, b: string, m: seq<string>, hi: nat)
    requires hi <= |m| && '$' !in a
    ensures Substitute(a + b, m, hi) == a + Substitute(b, m, hi)
  {
    if a == [] {
      assert a + b == b;
    } else {
      LiteralPrefix(a[1..], b, m, hi);
      assert (a + b)[1..] == a[1..] + b && (a + b)[0] == a[0];
      NoHit(a + b, m, hi);
    }
  }

  /** When every capture is "x", a long placeholder stands for less than its first digit and the rest. */
  ghost predicate Shrinks(t: string, n: nat)
    requires n >= 10
  {
    var m := Marked(n, 0, "x");
    && |Substitute(t, m, n + 1)| <= |Substitute(t, m, 10)|
    && ((exists k :: Long(t, k, n)) ==> |Substitute(t, m, n + 1)| < |Substitute(t, m, 10)|)
  }

  lemma {:induction false} LongShrinks(t: string, n: nat)
    requires n >= 10
    ensures Shrinks(t, n)
    decreases |t|
  {
    SingleDigit(t, 10);
    if t == [] {
    } else if Starts(t, 0) {
      var h := HitAt(t, n + 1);
      LongShrinks(t[h.length..], n);
      LongShrinksPlaceholder(t, n);
    } else {
      LongShrinks(t[1..], n);
      LongTail(t, n, 1);
    }
  }

  lemma LongTail(t: string, n: nat, l: nat)
    requires 1 <= l <= |t| && forall k :: 0 < k < l ==> t[k] != '$'
    ensures forall k :: Long(t, k, n) ==> k == 0 || Long(t[l..], k - l, n)
  {
  }

  lemma LongShrinksPlaceholder(t: string, n: nat)
    requires n >= 10 && Starts(t, 0) && Shrinks(t[HitAt(t, n + 1).length..], n)
    ensures Shrinks(t, n)
  {
    var m, h := Marked(n, 0, "x"), HitAt(t, n + 1);
    var l := h.length;
    SingleDigit(t, 10);
    assert forall k :: 2 <= k < l ==> t[k] == t[2..][k - 2];
    LongTail(t, n, l);
    var digits := t[2..l];
    assert t[2..] == digits + t[l..];
    LiteralPrefix(digits, t[l..], m, 10);
    assert |Substitute(t, m, n + 1)| == 1 + |Substitute(t[l..], m, n + 1)|;
    assert |Substitute(t, m, 10)| == 1 + (l - 2) + |Substitute(t[l..], m, 10)|;
    assert Long(t, 0, n) ==> t[2..][0] == t[2] && l > 2;
  }

  lemma LongDisagree(t: string, n: nat, k: int) returns (m: seq<string>)
    requires n >= 10 && Long(t, k, n)
    ensures |m| == n + 1 && DollarFreeGroups(m) && ReplaceFrom(t, m, 1) != Substitute(t, m, n + 1)
  {
    m := Marked(n, 0, "x");
    forall j | 1 <= j < 10 ensures Calm(t, m, j) { CalmMarked(t, n, 0, "x", j); }
    LoopAfterNine(t, m);
    LongShrinks(t, n);
  }

  // ---- the exact conditions ----------------------------------------------------------------------

  ghost predicate Agrees(t: string, n: nat) {
    forall m: seq<string> :: |m| == n + 1 && DollarFreeGroups(m) ==> ReplaceFrom(t, m, 1) == Substitute(t, m, n + 1)
  }

  lemma Disagree(t: string, n: nat) returns (m: seq<string>)
    requires !Unambiguous(t, n)
    ensures |m| == n + 1 && DollarFreeGroups(m) && ReplaceFrom(t, m, 1) != Substitute(t, m, n + 1)
  {
    if k :| Long(t, k, n) {
      m := LongDisagree(t, n, k);
    } else {
      var k :| Trap(t, k, n);
      var d := DigitValue(t[k + 2]);
      assert Marks(t, k + 1, d, false);
      if n <= 9 { m := FewDisagree(t, n, k + 1, d, false); } else { m := ManyDisagree(t, n, k + 1, d, false); }
    }
  }

  /** For every template and any number of groups: the loop is one simultaneous substitution, whatever the
      captures are as long as they hold no dollar, if and only if the template is unambiguous. */
  lemma AgreesIff(t: string, n: nat)
    ensures Agrees(t, n) <==> Unambiguous(t, n)
  {
    if Unambiguous(t, n) {
      forall m: seq<string> | |m| == n + 1 && DollarFreeGroups(m)
        ensures ReplaceFrom(t, m, 1) == Substitute(t, m, n + 1)
      {
        LoopIsSimultaneous(t, m);
      }
    } else {
      var m := Disagree(t, n);
    }
  }

  ghost predicate AlwaysAgrees(t: string, n: nat) {
    forall m: seq<string> :: |m| == n + 1 ==> ReplaceFrom(t, m, 1) == Substitute(t, m, n + 1)
  }

  /** No placeholder but that of the last group, and with ten groups or more none at all. */
  ghost predicate OnlyLast(t: string, n: nat) {
    forall k :: Starts(t, k) ==> DigitValue(t[k + 1]) >= n
  }

  lemma {:induction false} StillSubstitute(t: string, m: seq<string>, hi: nat)
    requires Still(t) && hi <= |m|
    ensures Substitute(t, m, hi) == t
    decreases |t|
  {
    if t != [] {
      forall k ensures !Starts(t[1..], k) { assert !Starts(t, k + 1); }
      StillSubstitute(t[1..], m, hi);
      assert !Starts(t, 0) && t == [t[0]] + t[1..];
    }
  }

  lemma OnlyLastAgrees(t: string, n: nat, m: seq<string>)
    requires OnlyLast(t, n) && |m| == n + 1
    ensures ReplaceFrom(t, m, 1) == Substitute(t, m, n + 1)
  {
    if n <= 9 {
      LoopTo(t, m, n + 1);
    } else {
      StillLoop(t, m, 1);
      StillSubstitute(t, m, n + 1);
    }
  }

  lemma DollarDisagree(t: string, n: nat, k: int) returns (m: seq<string>)
    requires Starts(t, k) && DigitValue(t[k + 1]) < n
    ensures |m| == n + 1 && ReplaceFrom(t, m, 1) != Substitute(t, m, n + 1)
  {
    var d := DigitValue(t[k + 1]);
    if !Unambiguous(t, n) {
      m := Disagree(t, n);
    } else if n <= 9 {
      m := FewDisagree(t, n, k, d, true);
    } else {
      m := ManyDisagree(t, n, k, d, true);
    }
  }

  /** The same without any condition on the captures: they agree if and only if the template uses no group
      before the last. */
  lemma AlwaysAgreesIff(t: string, n: nat)
    ensures AlwaysAgrees(t, n) <==> OnlyLast(t, n)
  {
    if OnlyLast(t, n) {
      forall m: seq<string> | |m| == n + 1 ensures ReplaceFrom(t, m, 1) == Substitute(t, m, n + 1) {
        OnlyLastAgrees(t, n, m);
      }
    } else {
      var k :| Starts(t, k) && DigitValue(t[k + 1]) < n;
      var m := DollarDisagree(t, n, k);
    }
  }

  /** For instance: two dollars before a group that is not the last, a long placeholder, and captures that are
      placeholders themselves. */
  lemma DollarsMatter()
    ensures !Agrees("$$1", 2) && Agrees("$$2", 2) && !Agrees("$10", 10) && !AlwaysAgrees("$1", 2)
  {
    assert !Agrees("$$1", 2) by {
      assert Trap("$$1", 0, 2);
      AgreesIff("$$1", 2);
    }
    assert Agrees("$$2", 2) by { AgreesIff("$$2", 2); }
    assert !Agrees("$10", 10) by {
      assert Long("$10", 0, 10);
      AgreesIff("$10", 10);
    }
    assert !AlwaysAgrees("$1", 2) by {
      assert Starts("$1", 0) && DigitValue("$1"[1]) == 1;
      AlwaysAgreesIff("$1", 2);
    }
  }

  // ---- the code ----------------------------------------------------------------------------------

  /** The loop of NormalizeVersion, group by group. */
  method ApplyTemplate(template: string, matches: seq<string>) returns (result: string)
    requires |matches| >= 1
    ensures result == ReplaceFrom(template, matches, 1)
    ensures DollarFreeGroups(matches) && Unambiguous(template, |matches| - 1)
            ==> result == Substitute(template, matches, |matches|)
  {
    result := template;
    var i := 1;
    while i < |matches|
      invariant 1 <= i <= |matches|
      invariant ReplaceFrom(template, matches, 1) == ReplaceFrom(result, matches, i)
    {
      result := ReplaceAll(result, Placeholder(i), matches[i]);
      i := i + 1;
    }
    if DollarFreeGroups(matches) && Unambiguous(template, |matches| - 1) {
      LoopIsSimultaneous(template, matches);
    }
  }
}
