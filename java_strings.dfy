/** The few `java.lang.String` and `Integer` operations the core relies on,
    over `string` (a sequence of UTF-16 code units in Java, of `char` here). */
module JavaStrings {

  function DigitChar(d: int): char
    requires 0 <= d <= 9
  {
    (48 + d) as char
  }

  /** Decimal rendering of a non-negative number, most significant digit first. */
  function NatToString(n: nat): (s: string)
    ensures 1 <= |s|
    ensures n < 10 ==> s == [DigitChar(n)]
    ensures n >= 10 ==> |s| >= 2
  {
    if n < 10 then [DigitChar(n)] else NatToString(n / 10) + [DigitChar(n % 10)]
  }

  /** `Integer.toString`, as used when an `Integer` is appended to a `String`. */
  function IntToString(n: int): (s: string)
    ensures 0 <= n <= 9 <==> |s| == 1
    ensures 0 <= n <= 9 ==> s == [DigitChar(n)]
  {
    if n < 0 then "-" + NatToString(-n) else NatToString(n)
  }

  function LowerChar(c: char): char {
    if 'A' <= c <= 'Z' then (c as int + 32) as char else c
  }

  /** `String.toLowerCase`, on the ASCII letters. */
  function ToLower(s: string): (r: string)
    ensures |r| == |s|
    ensures forall i :: 0 <= i < |r| ==> !('A' <= r[i] <= 'Z')
    ensures forall i :: 0 <= i < |r| && !('A' <= s[i] <= 'Z') ==> r[i] == s[i]
    ensures forall i :: 0 <= i < |s| && 'A' <= s[i] <= 'Z' ==> r[i] as int == s[i] as int + 32
  {
    if s == [] then [] else [LowerChar(s[0])] + ToLower(s[1..])
  }

  /** `t` occurs in `s` starting at index `i`. */
  predicate OccursAt(t: string, s: string, i: int) {
    0 <= i && i + |t| <= |s| && s[i..i + |t|] == t
  }

  /** `String.contains`. */
  predicate Contains(s: string, t: string)
    ensures Contains(s, t) ==> |t| <= |s|
    ensures |t| == 0 ==> Contains(s, t)
  {
    assert |t| == 0 ==> OccursAt(t, s, 0);
    exists i | 0 <= i <= |s| - |t| :: OccursAt(t, s, i)
  }

  /** `String.replace(CharSequence, CharSequence)`: every occurrence of
      `target`, found scanning left to right without overlap, becomes `repl`. */
  function ReplaceAll(s: string, target: string, repl: string): string
    requires |target| > 0
    decreases |s|
  {
    if |s| < |target| then s
    else if s[..|target|] == target then repl + ReplaceAll(s[|target|..], target, repl)
    else [s[0]] + ReplaceAll(s[1..], target, repl)
  }

  /** Nothing changes when there is nothing to replace. */
  lemma {:induction false} ReplaceAllAbsent(s: string, target: string, repl: string)
    requires |target| > 0
    requires !Contains(s, target)
    ensures ReplaceAll(s, target, repl) == s
  {
    if |s| >= |target| {
      assert !OccursAt(target, s, 0);
      forall i | 0 <= i <= |s[1..]| - |target|
        ensures !OccursAt(target, s[1..], i)
      {
        assert !OccursAt(target, s, i + 1);
        assert s[1..][i..i + |target|] == s[i + 1..i + 1 + |target|];
      }
      ReplaceAllAbsent(s[1..], target, repl);
    }
  }

  /** As long as the result shows only characters of `target`, and the
      replacement has none of them, the result still agrees with the input. */
  lemma {:induction false} UnreplacedPrefix(s: string, target: string, repl: string, j: nat)
    requires |target| > 0 && |repl| > 0
    requires forall c :: c in repl ==> c !in target
    requires j <= |ReplaceAll(s, target, repl)|
    ensures (forall k :: 0 <= k < j ==> ReplaceAll(s, target, repl)[k] in target) ==>
              j <= |s| && ReplaceAll(s, target, repl)[..j] == s[..j]
  {
    var r := ReplaceAll(s, target, repl);
    if |s| < |target| {
    } else if s[..|target|] == target {
      assert r[0] == repl[0] && repl[0] in repl;
    } else if j > 0 && forall k :: 0 <= k < j ==> r[k] in target {
      var rest := ReplaceAll(s[1..], target, repl);
      assert r == [s[0]] + rest;
      forall k | 0 <= k < j - 1 ensures rest[k] in target {
        assert rest[k] == r[k + 1];
      }
      UnreplacedPrefix(s[1..], target, repl, j - 1);
      assert r[..j] == [s[0]] + rest[..j - 1];
      assert s[..j] == [s[0]] + s[1..][..j - 1];
    }
  }

  /** A replacement text free of target characters cannot start an occurrence. */
  lemma ReplacedHeadHasNoTarget(repl: string, rest: string, target: string)
    requires |target| > 0
    requires forall c :: c in repl ==> c !in target
    requires !Contains(rest, target)
    ensures !Contains(repl + rest, target)
  {
    var r := repl + rest;
    var n := |target|;
    forall i | 0 <= i <= |r| - n ensures !OccursAt(target, r, i) {
      if i < |repl| {
        assert r[i] == repl[i] && repl[i] in repl;
        assert target[0] in target;
        assert r[i..i + n][0] == r[i];
      } else {
        assert r[i..i + n] == rest[i - |repl|..i - |repl| + n];
        assert !OccursAt(target, rest, i - |repl|);
      }
    }
  }

  /** Right after a kept character, no occurrence starts at the front. */
  lemma KeptHeadNoOccurrenceAtFront(s: string, target: string, repl: string)
    requires |target| > 0 && |repl| > 0
    requires forall c :: c in repl ==> c !in target
    requires |s| >= |target| && s[..|target|] != target
    ensures !OccursAt(target, [s[0]] + ReplaceAll(s[1..], target, repl), 0)
  {
    var rest := ReplaceAll(s[1..], target, repl);
    var r := [s[0]] + rest;
    var n := |target|;
    if n <= |r| {
      if forall k :: 0 <= k < n - 1 ==> rest[k] in target {
        UnreplacedPrefix(s[1..], target, repl, n - 1);
        assert r[..n] == [s[0]] + rest[..n - 1];
        assert s[..n] == [s[0]] + s[1..][..n - 1];
      } else {
        var k :| 0 <= k < n - 1 && rest[k] !in target;
        assert r[..n][k + 1] == rest[k];
      }
    }
  }

  /** Prefixing one character creates no occurrence past the front. */
  lemma ConsNoOccurrenceAfterFront(x: char, rest: string, target: string)
    requires !Contains(rest, target)
    ensures forall i :: 1 <= i ==> !OccursAt(target, [x] + rest, i)
  {
    var r := [x] + rest;
    var n := |target|;
    forall i | 1 <= i <= |r| - n ensures !OccursAt(target, r, i) {
      assert r[i..i + n] == rest[i - 1..i - 1 + n];
      assert !OccursAt(target, rest, i - 1);
    }
  }

  /** A character kept because no occurrence started at it does not start one
      in the result either. */
  lemma KeptHeadHasNoTarget(s: string, target: string, repl: string)
    requires |target| > 0 && |repl| > 0
    requires forall c :: c in repl ==> c !in target
    requires |s| >= |target| && s[..|target|] != target
    requires !Contains(ReplaceAll(s[1..], target, repl), target)
    ensures !Contains([s[0]] + ReplaceAll(s[1..], target, repl), target)
  {
    KeptHeadNoOccurrenceAtFront(s, target, repl);
    ConsNoOccurrenceAfterFront(s[0], ReplaceAll(s[1..], target, repl), target);
  }

  /** When the replacement shares no character with the target, no occurrence
      of the target survives the replacement. */
  lemma {:induction false} ReplaceAllRemovesTarget(s: string, target: string, repl: string)
    requires |target| > 0 && |repl| > 0
    requires forall c :: c in repl ==> c !in target
    ensures !Contains(ReplaceAll(s, target, repl), target)
  {
    var n := |target|;
    if |s| < n {
    } else if s[..n] == target {
      ReplaceAllRemovesTarget(s[n..], target, repl);
      ReplacedHeadHasNoTarget(repl, ReplaceAll(s[n..], target, repl), target);
    } else {
      ReplaceAllRemovesTarget(s[1..], target, repl);
      KeptHeadHasNoTarget(s, target, repl);
    }
  }

  /** The first occurrence of the target is replaced by the whole replacement
      at that very place: the text before it is kept, the rest replaced in turn. */
  lemma {:induction false} ReplaceAllFirstOccurrence(a: string, target: string, b: string, repl: string)
    requires |target| > 0
    requires forall i :: 0 <= i < |a| ==> !OccursAt(target, a + target + b, i)
    ensures ReplaceAll(a + target + b, target, repl) == a + repl + ReplaceAll(b, target, repl)
  {
    var s := a + target + b;
    if a == [] {
      assert s[..|target|] == target && s[|target|..] == b;
    } else {
      var t := a[1..] + target + b;
      assert s[1..] == t;
      assert !OccursAt(target, s, 0);
      assert ReplaceAll(s, target, repl) == [a[0]] + ReplaceAll(t, target, repl);
      forall i | 0 <= i < |a[1..]| ensures !OccursAt(target, t, i) {
        assert !OccursAt(target, s, i + 1);
        assert t[i..i + |target|] == s[i + 1..i + 1 + |target|];
      }
      ReplaceAllFirstOccurrence(a[1..], target, b, repl);
      assert a == [a[0]] + a[1..];
    }
  }
}
