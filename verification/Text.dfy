/** The string functions of the Go library that the source uses, on sequences of characters. */
module Text {
  import opened Options

  /** Index of the first occurrence of a character, or the length. */
  function IndexOf(s: string, c: char): (i: nat)
    ensures i <= |s|
    ensures c !in s[..i]
    ensures i < |s| ==> s[i] == c
  {
    if s == "" then 0
    else if s[0] == c then 0
    else
      var i := 1 + IndexOf(s[1..], c);
      assert s[..i] == [s[0]] + s[1..][..i - 1];
      i
  }

  /** strings.Split on a one-character separator. */
  function Split(s: string, c: char): (parts: seq<string>)
    ensures parts != []
    ensures forall p :: p in parts ==> c !in p
    decreases |s|
  {
    var i := IndexOf(s, c);
    if i == |s| then
      assert s[..i] == s;
      [s]
    else [s[..i]] + Split(s[i + 1..], c)
  }

  /** strings.Join with a one-character separator. */
  function Join(parts: seq<string>, c: char): string {
    if parts == [] then ""
    else if |parts| == 1 then parts[0]
    else parts[0] + [c] + Join(parts[1..], c)
  }

  lemma JoinMore(head: string, rest: seq<string>, c: char)
    requires rest != []
    ensures Join([head] + rest, c) == head + [c] + Join(rest, c)
  {
    assert ([head] + rest)[1..] == rest;
  }

  lemma {:induction false} JoinSplit(s: string, c: char)
    ensures Join(Split(s, c), c) == s
    decreases |s|
  {
    var i := IndexOf(s, c);
    if i < |s| {
      JoinSplit(s[i + 1..], c);
      assert Split(s, c)[1..] == Split(s[i + 1..], c);
      assert s == s[..i] + [c] + s[i + 1..];
    } else {
      assert s[..i] == s;
    }
  }

  /** The first occurrence is the only position with no earlier one. */
  lemma IndexIs(s: string, c: char, n: nat)
    requires n <= |s| && c !in s[..n]
    requires n < |s| ==> s[n] == c
    ensures IndexOf(s, c) == n
  {
  }

  /** Splitting undoes joining when no part holds the separator. */
  lemma {:induction false} SplitJoin(parts: seq<string>, c: char)
    requires parts != [] && forall p :: p in parts ==> c !in p
    ensures Split(Join(parts, c), c) == parts
  {
    var head := parts[0];
    if |parts| == 1 {
      assert head[..|head|] == head;
      IndexIs(head, c, |head|);
    } else {
      SplitJoin(parts[1..], c);
      SplitFirst(head, c, Join(parts[1..], c));
    }
  }

  /** The part before the first separator is the first part. */
  lemma SplitFirst(head: string, c: char, rest: string)
    requires c !in head
    ensures Split(head + [c] + rest, c) == [head] + Split(rest, c)
  {
    var s := head + [c] + rest;
    assert s[..|head|] == head && s[|head| + 1..] == rest;
    IndexIs(s, c, |head|);
  }

  /** A separator in the middle splits the text into the parts of both sides. */
  lemma {:induction false} SplitMiddle(a: string, c: char, b: string)
    ensures Split(a + [c] + b, c) == Split(a, c) + Split(b, c)
    decreases |a|
  {
    var i := IndexOf(a, c);
    if i == |a| {
      assert a[..i] == a;
      SplitFirst(a, c, b);
    } else {
      var rest := a[i + 1..];
      assert a == a[..i] + [c] + rest;
      assert a + [c] + b == a[..i] + [c] + (rest + [c] + b);
      SplitMiddle(rest, c, b);
      SplitFirst(a[..i], c, rest + [c] + b);
    }
  }

  predicate HasPrefix(s: string, p: string) {
    |p| <= |s| && s[..|p|] == p
  }

  predicate HasSuffix(s: string, p: string) {
    |p| <= |s| && s[|s| - |p|..] == p
  }

  function TrimPrefix(s: string, p: string): string {
    if HasPrefix(s, p) then s[|p|..] else s
  }

  /** strings.TrimRight with a one-character cutset. */
  function TrimRight(s: string, c: char): (t: string)
    ensures t <= s
    ensures t != "" ==> t[|t| - 1] != c
    ensures forall i :: |t| <= i < |s| ==> s[i] == c
  {
    if s != "" && s[|s| - 1] == c then TrimRight(s[..|s| - 1], c) else s
  }

  /** Only one prefix can be what TrimRight leaves. */
  lemma TrimRightIs(s: string, c: char, t: string)
    requires t <= s && (t != "" ==> t[|t| - 1] != c) && (forall i :: |t| <= i < |s| ==> s[i] == c)
    ensures TrimRight(s, c) == t
  {
    var u := TrimRight(s, c);
    assert t != "" ==> t[|t| - 1] == s[|t| - 1];
    assert u != "" ==> u[|u| - 1] == s[|u| - 1];
  }

  /** m occurs in s at position i. */
  predicate At(s: string, i: nat, m: string) {
    i + |m| <= |s| && s[i..i + |m|] == m
  }

  lemma AtTail(s: string, i: nat, m: string)
    requires s != "" && 0 < i
    ensures At(s, i, m) == At(s[1..], i - 1, m)
  {
    if i + |m| <= |s| { assert s[i..i + |m|] == s[1..][i - 1..i - 1 + |m|]; }
  }

  /** strings.Index, or None for -1: the first place where m occurs. */
  function Find(s: string, m: string): (r: Option<nat>)
    ensures r.Some? ==> At(s, r.value, m) && forall i: nat :: i < r.value ==> !At(s, i, m)
    ensures r.None? ==> forall i: nat :: !At(s, i, m)
  {
    if At(s, 0, m) then Some(0)
    else if s == "" then None
    else
      assert forall i: nat {:trigger At(s, i, m)} :: 0 < i ==> At(s, i, m) == At(s[1..], i - 1, m) by {
        forall i: nat | 0 < i ensures At(s, i, m) == At(s[1..], i - 1, m) { AtTail(s, i, m); }
      }
      match Find(s[1..], m)
      case None => None
      case Some(i) =>
        assert At(s, i + 1, m);
        Some(i + 1)
  }

  predicate Contains(s: string, m: string) {
    Find(s, m).Some?
  }

  // ---- numbers ----

  predicate Digits(s: string) {
    s != "" && forall i :: 0 <= i < |s| ==> '0' <= s[i] <= '9'
  }

  function DigitsValue(s: string): nat
    requires forall i :: 0 <= i < |s| ==> '0' <= s[i] <= '9'
  {
    if s == "" then 0 else 10 * DigitsValue(s[..|s| - 1]) + (s[|s| - 1] as int - '0' as int)
  }

  const MAX_INT := 0x7FFF_FFFF_FFFF_FFFF

  /** strconv.Atoi on a 64-bit platform: optional sign, decimal digits, range check. */
  function Atoi(s: string): Option<int> {
    var negative := HasPrefix(s, "-");
    var body := if negative || HasPrefix(s, "+") then s[1..] else s;
    if !Digits(body) then None
    else
      var value: int := DigitsValue(body);
      var n := if negative then -value else value;
      if -MAX_INT - 1 <= n <= MAX_INT then Some(n) else None
  }

  function NatText(n: nat): string {
    if n < 10 then ['0' + n as char] else NatText(n / 10) + ['0' + (n % 10) as char]
  }

  /** strconv.Itoa. */
  function Itoa(n: int): string {
    if n < 0 then "-" + NatText(-n) else NatText(n)
  }

  lemma {:induction false} NatTextValue(n: nat)
    ensures Digits(NatText(n)) && DigitsValue(NatText(n)) == n
  {
    if n < 10 {
      var s := NatText(n);
      assert s[..|s| - 1] == "";
    } else {
      NatTextValue(n / 10);
      var s := NatText(n);
      assert s[..|s| - 1] == NatText(n / 10);
    }
  }

  lemma AtoiItoa(n: int)
    requires -MAX_INT - 1 <= n <= MAX_INT
    ensures Atoi(Itoa(n)) == Some(n)
  {
    NatTextValue(if n < 0 then -n else n);
    if n < 0 {
      assert Itoa(n)[1..] == NatText(-n) && Itoa(n)[..1] == "-";
    } else {
      assert '0' <= Itoa(n)[0] <= '9';
      assert !HasPrefix(Itoa(n), "-") && !HasPrefix(Itoa(n), "+");
    }
  }
}
