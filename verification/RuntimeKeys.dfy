/** The key a dispatched task is registered under in the runtime, and in container names. */
module RuntimeKeys {
  function Digit(d: nat): (c: char)
    requires d < 10
    ensures '0' <= c <= '9'
  {
    '0' + d as char
  }

  /** `%d` of a number that is not negative. */
  function Decimal(n: nat): (s: string)
    ensures s != [] && forall k :: 0 <= k < |s| ==> '0' <= s[k] <= '9'
  {
    if n < 10 then [Digit(n)] else Decimal(n / 10) + [Digit(n % 10)]
  }

  lemma {:induction false} DecimalInjective(a: nat, b: nat)
    requires Decimal(a) == Decimal(b)
    ensures a == b
    decreases a
  {
    var s, t := Decimal(a), Decimal(b);
    assert s[|s| - 1] == Digit(a % 10) && t[|t| - 1] == Digit(b % 10);
    if a >= 10 && b >= 10 {
      assert s[..|s| - 1] == Decimal(a / 10) && t[..|t| - 1] == Decimal(b / 10);
      DecimalInjective(a / 10, b / 10);
    } else {
      assert a >= 10 ==> |s| >= 2;
      assert b >= 10 ==> |t| >= 2;
    }
  }

  predicate KeyChar(c: char) {
    'a' <= c <= 'z' || '0' <= c <= '9' || c == '-'
  }

  /** `lower` is the case mapping; it keeps what is in lower case already. */
  predicate KeepsKeyChars(lower: char -> char) {
    forall c :: KeyChar(c) ==> lower(c) == c
  }

  function Fold(s: string, lower: char -> char): (t: string)
    ensures |t| == |s| && forall k :: 0 <= k < |s| ==> t[k] == if KeyChar(lower(s[k])) then lower(s[k]) else '-'
  {
    seq(|s|, k requires 0 <= k < |s| => if KeyChar(lower(s[k])) then lower(s[k]) else '-')
  }

  lemma FoldConcat(a: string, b: string, lower: char -> char)
    ensures Fold(a + b, lower) == Fold(a, lower) + Fold(b, lower)
  {
  }

  function TrimLeft(s: string): string {
    if s != [] && s[0] == '-' then TrimLeft(s[1..]) else s
  }

  function TrimRight(s: string): string {
    if s != [] && s[|s| - 1] == '-' then TrimRight(s[..|s| - 1]) else s
  }

  /** What comes before the step name. */
  function Head(runtimeID: string, runID: string): string {
    runtimeID + "-" + runID + "-"
  }

  function Number(attempt: int): string {
    Decimal(if attempt < 1 then 1 else attempt)
  }

  function Raw(runtimeID: string, runID: string, step: string, attempt: int): string {
    Head(runtimeID, runID) + step + "-a" + Number(attempt)
  }

  function Sanitized(runtimeID: string, runID: string, step: string, attempt: int, lower: char -> char): string {
    TrimRight(TrimLeft(Fold(Raw(runtimeID, runID, step, attempt), lower)))
  }

  /** `hash` gives the eight characters of the digest. */
  function RuntimeKey(runtimeID: string, runID: string, step: string, attempt: int, lower: char -> char, hash: string -> string): string {
    var key := Sanitized(runtimeID, runID, step, attempt, lower);
    if |key| <= 63 then key else TrimRight(key[..54]) + "-" + hash(key)
  }

  lemma {:induction false} TrimLeftConcat(a: string, b: string, k: nat)
    requires k < |a| && a[k] != '-'
    ensures TrimLeft(a + b) == TrimLeft(a) + b
    decreases |a|
  {
    if a[0] == '-' {
      assert (a + b)[1..] == a[1..] + b;
      TrimLeftConcat(a[1..], b, k - 1);
    }
  }

  /** The runtime and run IDs leave something to tell them by. */
  predicate Named(runtimeID: string, runID: string, lower: char -> char) {
    exists k :: 0 <= k < |Fold(Head(runtimeID, runID), lower)| && Fold(Head(runtimeID, runID), lower)[k] != '-'
  }

  lemma FoldKeeps(s: string, lower: char -> char)
    requires KeepsKeyChars(lower) && forall k :: 0 <= k < |s| ==> KeyChar(s[k])
    ensures Fold(s, lower) == s
  {
  }

  lemma Regroup(a: string, b: string, c: string, d: string)
    ensures a + b + c + d == a + (b + c + d)
  {
    assert a + b + c + d == a + b + (c + d);
    assert b + c + d == b + (c + d);
  }

  lemma RawFolds(runtimeID: string, runID: string, step: string, attempt: int, lower: char -> char)
    requires KeepsKeyChars(lower)
    ensures Fold(Raw(runtimeID, runID, step, attempt), lower)
         == Fold(Head(runtimeID, runID), lower) + (Fold(step, lower) + "-a" + Number(attempt))
  {
    var head, digits := Head(runtimeID, runID), Number(attempt);
    FoldKeeps("-a", lower);
    FoldKeeps(digits, lower);
    hide Fold, Head, Number, KeepsKeyChars;
    FoldConcat(head, step, lower);
    FoldConcat(head + step, "-a", lower);
    FoldConcat(head + step + "-a", digits, lower);
    Regroup(Fold(head, lower), Fold(step, lower), "-a", digits);
  }

  lemma SanitizedIs(runtimeID: string, runID: string, step: string, attempt: int, lower: char -> char)
    requires KeepsKeyChars(lower) && Named(runtimeID, runID, lower)
    ensures Sanitized(runtimeID, runID, step, attempt, lower)
         == TrimLeft(Fold(Head(runtimeID, runID), lower)) + (Fold(step, lower) + "-a" + Number(attempt))
  {
    hide Fold, KeepsKeyChars;
    var head, rest := Fold(Head(runtimeID, runID), lower), Fold(step, lower) + "-a" + Number(attempt);
    RawFolds(runtimeID, runID, step, attempt, lower);
    var k :| 0 <= k < |head| && head[k] != '-';
    TrimLeftConcat(head, rest, k);
    var key := TrimLeft(head) + rest;
    assert key[|key| - 1] == Number(attempt)[|Number(attempt)| - 1];
  }

  /** The number at the end can be told from what precedes it. */
  lemma NumberAtEnd(x: string, y: string, s: string, t: string)
    requires x + "-a" + s == y + "-a" + t
    requires (forall k :: 0 <= k < |s| ==> '0' <= s[k] <= '9') && (forall k :: 0 <= k < |t| ==> '0' <= t[k] <= '9')
    ensures x == y && s == t
  {
    var u, v := x + "-a" + s, y + "-a" + t;
    assert u[|x| + 1] == 'a' && v[|y| + 1] == 'a';
    assert |s| == |t|;
    assert s == u[|x| + 2..] && t == v[|y| + 2..];
    assert x == u[..|x|] && y == v[..|y|];
  }

  /**
   Two dispatches of one run have the same key exactly if they are of the same attempt and of steps
   whose names fold to the same, as long as neither key is so long that it is cut.
   */
  lemma SameKeyIff(runtimeID: string, runID: string, n: string, a: int, m: string, b: int, lower: char -> char, hash: string -> string)
    requires KeepsKeyChars(lower) && Named(runtimeID, runID, lower) && a >= 1 && b >= 1
    requires |Sanitized(runtimeID, runID, n, a, lower)| <= 63 && |Sanitized(runtimeID, runID, m, b, lower)| <= 63
    ensures RuntimeKey(runtimeID, runID, n, a, lower, hash) == RuntimeKey(runtimeID, runID, m, b, lower, hash)
       <==> a == b && Fold(n, lower) == Fold(m, lower)
  {
    SanitizedIs(runtimeID, runID, n, a, lower);
    SanitizedIs(runtimeID, runID, m, b, lower);
    var p, x, y := TrimLeft(Fold(Head(runtimeID, runID), lower)), Fold(n, lower), Fold(m, lower);
    var u, v := x + "-a" + Decimal(a), y + "-a" + Decimal(b);
    if p + u == p + v {
      assert u == (p + u)[|p|..] && v == (p + v)[|p|..];
      NumberAtEnd(x, y, Decimal(a), Decimal(b));
      DecimalInjective(a, b);
    }
  }

  /** A dispatch without an attempt number gets the key of the first attempt. */
  lemma NoAttemptIsFirst(runtimeID: string, runID: string, n: string, attempt: int, lower: char -> char, hash: string -> string)
    requires attempt < 1
    ensures RuntimeKey(runtimeID, runID, n, attempt, lower, hash) == RuntimeKey(runtimeID, runID, n, 1, lower, hash)
  {
  }

  /**
   Steps whose names fold to the same have the same keys, attempt by attempt.  Validation tells such
   names apart, so one pipeline can hold both.
   */
  lemma FoldedNamesShareKeys(runtimeID: string, runID: string, n: string, m: string, attempt: int, lower: char -> char, hash: string -> string)
    requires Fold(n, lower) == Fold(m, lower)
    ensures RuntimeKey(runtimeID, runID, n, attempt, lower, hash) == RuntimeKey(runtimeID, runID, m, attempt, lower, hash)
  {
    hide Fold, Head, Number;
    var head := Head(runtimeID, runID);
    FoldConcat(head, n, lower);
    FoldConcat(head, m, lower);
    FoldConcat(head + n, "-a", lower);
    FoldConcat(head + m, "-a", lower);
    FoldConcat(head + n + "-a", Number(attempt), lower);
    FoldConcat(head + m + "-a", Number(attempt), lower);
  }

  /** For example these two. */
  lemma TwoStepsOneKey(lower: char -> char, hash: string -> string, attempt: int)
    requires KeepsKeyChars(lower) && lower('_') == '_'
    ensures "train_a" != "train-a"
    ensures RuntimeKey("w", "r", "train_a", attempt, lower, hash) == RuntimeKey("w", "r", "train-a", attempt, lower, hash)
  {
    var n, m := "train_a", "train-a";
    assert forall k :: 0 <= k < 7 && k != 5 ==> n[k] == m[k] && KeyChar(n[k]);
    assert Fold(n, lower) == Fold(m, lower);
    FoldedNamesShareKeys("w", "r", n, m, attempt, lower, hash);
  }
}
