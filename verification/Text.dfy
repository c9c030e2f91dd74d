/** Options and the string operations the control plane relies on: decimal text,
    splitting at the first separator, and the strip/lower normalisation of answers. */
module Text {

  datatype Option<+T> = None | Some(value: T) {
    function GetOr(default: T): T {
      if Some? then value else default
    }
  }

  // ---------------------------------------------------------------- decimal text

  function Digit(d: nat): (c: char)
    requires d < 10
    ensures '0' <= c <= '9' && c as int - '0' as int == d
  {
    ('0' as int + d) as char
  }

  function NatText(n: nat): (s: string)
    ensures |s| > 0 && '0' <= s[0] <= '9'
  {
    if n < 10 then [Digit(n)] else NatText(n / 10) + [Digit(n % 10)]
  }

  function ParseNat(s: string): Option<nat> {
    if s == "" then None
    else
      var c := s[|s| - 1];
      if !('0' <= c <= '9') then None
      else if |s| == 1 then Some(c as int - '0' as int)
      else
        match ParseNat(s[..|s| - 1])
        case None => None
        case Some(n) => Some(10 * n + (c as int - '0' as int))
  }

  lemma {:induction false} ParseNatText(n: nat)
    ensures ParseNat(NatText(n)) == Some(n)
  {
    if n >= 10 {
      ParseNatText(n / 10);
      var s := NatText(n);
      assert s[..|s| - 1] == NatText(n / 10);
    }
  }

  function IntText(i: int): (s: string)
    ensures |s| > 0
  {
    if i < 0 then "-" + NatText(-i) else NatText(i)
  }

  function ParseInt(s: string): Option<int> {
    if |s| > 0 && s[0] == '-' then
      var n := ParseNat(s[1..]);
      if n.None? then None else Some(0 - n.value)
    else
      var n := ParseNat(s);
      if n.None? then None else Some(n.value)
  }

  /** Decimal text loses nothing. */
  lemma ParseIntText(i: int)
    ensures ParseInt(IntText(i)) == Some(i)
  {
    if i < 0 {
      ParseNatText(-i);
      assert IntText(i)[1..] == NatText(-i);
    } else {
      ParseNatText(i);
    }
  }

  // ---------------------------------------------------------------- splitting

  /** The part of s before its first c, or all of s. */
  function Before(s: string, c: char): string {
    if s == "" || s[0] == c then "" else [s[0]] + Before(s[1..], c)
  }

  lemma {:induction false} BeforeJoin(a: string, c: char, b: string)
    ensures c !in Before(a, c)
    ensures Before(a + [c] + b, c) == Before(a, c)
    ensures Before(a, c) == a <==> c !in a
  {
    var joined := a + [c] + b;
    if a == "" || a[0] == c {
      assert joined[0] == c;
    } else {
      assert joined[1..] == a[1..] + [c] + b;
      BeforeJoin(a[1..], c, b);
      assert a == [a[0]] + a[1..];
    }
  }

  /** Joining at a separator is injective on heads that avoid it. */
  lemma JoinInjective(a: string, b: string, a': string, b': string, c: char)
    requires c !in a && c !in a'
    requires a + [c] + b == a' + [c] + b'
    ensures a == a' && b == b'
  {
    BeforeJoin(a, c, b);
    BeforeJoin(a', c, b');
    assert b == (a + [c] + b)[|a| + 1..];
    assert b' == (a' + [c] + b')[|a'| + 1..];
  }

  // ---------------------------------------------------------------- normalising

  /** What `str.strip` removes: the ASCII blanks and separators, and the Unicode spaces. */
  predicate IsSpace(c: char) {
    var u := c as int;
    || 9 <= u <= 13 || 28 <= u <= 32 || u == 0x85 || u == 0xA0 || u == 0x1680
    || 0x2000 <= u <= 0x200A || u == 0x2028 || u == 0x2029 || u == 0x202F || u == 0x205F || u == 0x3000
  }

  function StripLeft(s: string): string {
    if s != "" && IsSpace(s[0]) then StripLeft(s[1..]) else s
  }

  function StripRight(s: string): string {
    if s != "" && IsSpace(s[|s| - 1]) then StripRight(s[..|s| - 1]) else s
  }

  function LowerChar(c: char): char {
    if 'A' <= c <= 'Z' then (c as int + 32) as char else c
  }

  function Lower(s: string): (r: string)
    ensures |r| == |s|
    ensures forall i :: 0 <= i < |s| ==> r[i] == LowerChar(s[i])
  {
    seq(|s|, i requires 0 <= i < |s| => LowerChar(s[i]))
  }

  /** The normal form an answer is compared in. */
  function Normal(s: string): string {
    Lower(StripRight(StripLeft(s)))
  }

  predicate AllSpace(s: string) {
    forall i :: 0 <= i < |s| ==> IsSpace(s[i])
  }

  predicate Trimmed(s: string) {
    s == "" || (!IsSpace(s[0]) && !IsSpace(s[|s| - 1]))
  }

  lemma {:induction false} StripLeftOf(pad: string, m: string)
    requires AllSpace(pad) && (m == "" || !IsSpace(m[0]))
    ensures StripLeft(pad + m) == m
  {
    if pad == "" {
      assert pad + m == m;
    } else {
      assert (pad + m)[1..] == pad[1..] + m;
      StripLeftOf(pad[1..], m);
    }
  }

  lemma {:induction false} StripRightOf(m: string, pad: string)
    requires AllSpace(pad) && (m == "" || !IsSpace(m[|m| - 1]))
    ensures StripRight(m + pad) == m
  {
    if pad == "" {
      assert m + pad == m;
    } else {
      assert (m + pad)[..|m + pad| - 1] == m + pad[..|pad| - 1];
      StripRightOf(m, pad[..|pad| - 1]);
    }
  }

  lemma {:induction false} StripLeftSplits(s: string) returns (pad: string)
    ensures AllSpace(pad) && s == pad + StripLeft(s)
    ensures StripLeft(s) == "" || !IsSpace(StripLeft(s)[0])
  {
    if s != "" && IsSpace(s[0]) {
      var rest := StripLeftSplits(s[1..]);
      pad := [s[0]] + rest;
      assert s == [s[0]] + s[1..];
      assert pad + StripLeft(s) == [s[0]] + (rest + StripLeft(s[1..]));
    } else {
      pad := "";
    }
  }

  lemma {:induction false} StripRightSplits(s: string) returns (pad: string)
    ensures AllSpace(pad) && s == StripRight(s) + pad
    ensures StripRight(s) == "" || !IsSpace(StripRight(s)[|StripRight(s)| - 1])
  {
    if s != "" && IsSpace(s[|s| - 1]) {
      var init, last := s[..|s| - 1], s[|s| - 1];
      var rest := StripRightSplits(init);
      pad := rest + [last];
      assert s == init + [last];
      assert StripRight(s) + pad == (StripRight(init) + rest) + [last];
    } else {
      pad := "";
    }
  }

  /** A padded, trimmed core normalises to its lower case: an answer may carry blanks
      around it and any letter case, and nothing else. */
  lemma NormalOf(left: string, core: string, right: string)
    requires AllSpace(left) && AllSpace(right) && Trimmed(core)
    ensures Normal(left + core + right) == Lower(core)
  {
    if core == "" {
      assert left + core + right == (left + right) + core;
      StripLeftOf(left + right, core);
    } else {
      assert left + core + right == left + (core + right);
      StripLeftOf(left, core + right);
      StripRightOf(core, right);
    }
  }

  /** Every answer is a trimmed core between blanks, and its normal form is that core's. */
  lemma NormalSplits(s: string) returns (left: string, core: string, right: string)
    ensures AllSpace(left) && AllSpace(right) && Trimmed(core)
    ensures s == left + core + right && Normal(s) == Lower(core)
  {
    left := StripLeftSplits(s);
    var rest := StripLeft(s);
    right := StripRightSplits(rest);
    core := StripRight(rest);
  }
  /** The string is the core with blanks around it. */
  ghost predicate Pads(s: string, core: string) {
    exists left, right :: AllSpace(left) && AllSpace(right) && s == left + core + right
  }

  lemma LowerKeepsTrim(core: string)
    ensures Trimmed(core) <==> Trimmed(Lower(core))
  {
  }

  /** Exactly the strings that normalise to a trimmed word: its letters in any case, with
      blanks around them and nothing else. */
  lemma NormalExactly(s: string, word: string)
    requires Trimmed(word)
    ensures Normal(s) == word <==> exists core :: Pads(s, core) && Lower(core) == word
  {
    if Normal(s) == word {
      var left, core, right := NormalSplits(s);
      assert Pads(s, core);
    }
    if core :| Pads(s, core) && Lower(core) == word {
      var left, right :| AllSpace(left) && AllSpace(right) && s == left + core + right;
      LowerKeepsTrim(core);
      NormalOf(left, core, right);
    }
  }

  // ---------------------------------------------------------------- maps

  function Look<K, V>(m: map<K, V>, k: K): Option<V> {
    if k in m then Some(m[k]) else None
  }
}
