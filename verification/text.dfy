/** String operations the Python code takes from the language: decimal rendering of
    integers, ASCII lower-casing, substring tests, `str.join` and `str.split` on a
    one-character separator, and the character class of the regular-expression `\s`.
 */
module Text {

  predicate IsDigit(c: char) {
    '0' <= c <= '9'
  }

  predicate AllDigits(s: string) {
    forall k :: 0 <= k < |s| ==> IsDigit(s[k])
  }

  predicate NoDigits(s: string) {
    forall k :: 0 <= k < |s| ==> !IsDigit(s[k])
  }

  /** The value of a run of decimal digits, most significant first; leading zeros are allowed. */
  function DecimalValue(s: string): nat
    requires AllDigits(s)
  {
    if |s| == 0 then 0
    else 10 * DecimalValue(s[..|s| - 1]) + (s[|s| - 1] as int - '0' as int)
  }

  function DigitChar(d: nat): (c: char)
    requires d < 10
    ensures IsDigit(c) && c as int - '0' as int == d
  {
    ('0' as int + d) as char
  }

  /** `str(n)` for a non-negative integer: canonical decimal, no leading zeros. */
  function NatToString(n: nat): (r: string)
    ensures 1 <= |r| && AllDigits(r)
    ensures DecimalValue(r) == n
    ensures r[0] == '0' ==> r == "0"
  {
    if n < 10 then [DigitChar(n)]
    else
      var r := NatToString(n / 10) + [DigitChar(n % 10)];
      assert r[..|r| - 1] == NatToString(n / 10);
      r
  }

  /** `str(i)` for any Python integer. */
  function IntToString(i: int): string {
    if i < 0 then "-" + NatToString(-i) else NatToString(i)
  }

  /** ASCII lower-casing of one character. */
  function LowerChar(c: char): char {
    if 'A' <= c <= 'Z' then (c as int + 32) as char else c
  }

  /** `s.lower()`, restricted to ASCII letters. */
  function ToLower(s: string): (r: string)
    ensures |r| == |s|
    ensures forall k :: 0 <= k < |s| ==> r[k] == LowerChar(s[k])
  {
    if |s| == 0 then "" else [LowerChar(s[0])] + ToLower(s[1..])
  }

  predicate StartsWith(s: string, prefix: string) {
    |prefix| <= |s| && s[..|prefix|] == prefix
  }

  predicate EndsWith(s: string, suffix: string) {
    |suffix| <= |s| && s[|s| - |suffix|..] == suffix
  }

  /** `sub` appears in `s` starting at index `i`. */
  predicate OccursAt(s: string, sub: string, i: int) {
    0 <= i && i + |sub| <= |s| && s[i..i + |sub|] == sub
  }

  /** Python's `sub in s`. */
  predicate Contains(s: string, sub: string) {
    exists i | 0 <= i <= |s| - |sub| :: OccursAt(s, sub, i)
  }

  /** A substring unchanged by lower-casing that occurs in `s` also occurs in the
      lower-cased `s`. */
  lemma ContainsLowered(s: string, sub: string)
    requires forall k :: 0 <= k < |sub| ==> LowerChar(sub[k]) == sub[k]
    requires Contains(s, sub)
    ensures Contains(ToLower(s), sub)
  {
    var i :| 0 <= i <= |s| - |sub| && OccursAt(s, sub, i);
    var t := ToLower(s);
    forall k | 0 <= k < |sub|
      ensures t[i..i + |sub|][k] == sub[k]
    {
      OccurrenceCharAt(s, sub, i, k);
    }
    assert OccursAt(t, sub, i);
  }

  /** The character at offset `k` of an occurrence is the `k`-th character of `sub`. */
  lemma OccurrenceCharAt(s: string, sub: string, i: int, k: int)
    requires OccursAt(s, sub, i) && 0 <= k < |sub|
    ensures s[i + k] == sub[k]
  {
    assert s[i..i + |sub|][k] == s[i + k];
  }

  /** A string that lacks some character of `sub` does not contain `sub`. */
  lemma MissingCharExcludes(s: string, sub: string, k: nat)
    requires k < |sub|
    requires sub[k] !in s
    ensures !Contains(s, sub)
  {
    forall i | 0 <= i <= |s| - |sub|
      ensures !OccursAt(s, sub, i)
    {
      assert s[i..i + |sub|][k] == s[i + k];
      assert s[i + k] in s;
    }
  }

  /** An occurrence cannot straddle a character that `sub` does not contain, so it
      lies wholly on one side of it. */
  lemma ForeignCharSeparates(a: string, x: char, b: string, sub: string)
    requires x !in sub
    ensures Contains(a + [x] + b, sub) ==> Contains(a, sub) || Contains(b, sub)
  {
    var s := a + [x] + b;
    if Contains(s, sub) {
      var i :| 0 <= i <= |s| - |sub| && OccursAt(s, sub, i);
      if i + |sub| <= |a| {
        assert s[i..i + |sub|] == a[i..i + |sub|];
        assert OccursAt(a, sub, i);
      } else if i > |a| {
        var j := i - |a| - 1;
        assert s[i..i + |sub|] == b[j..j + |sub|];
        assert OccursAt(b, sub, j);
      } else {
        OccurrenceCharAt(s, sub, i, |a| - i);
        assert false;
      }
    }
  }

  /** A substring occurrence survives extending the string on either side. */
  lemma ContainsInContext(a: string, sub: string, b: string)
    ensures Contains(sub, sub)
    ensures Contains(a + sub + b, sub)
  {
    assert OccursAt(sub, sub, 0);
    assert (a + sub + b)[|a|..|a| + |sub|] == sub;
    assert OccursAt(a + sub + b, sub, |a|);
  }

  /** `sep.join(parts)`. */
  function Join(sep: string, parts: seq<string>): string {
    if |parts| == 0 then ""
    else if |parts| == 1 then parts[0]
    else parts[0] + sep + Join(sep, parts[1..])
  }

  /** Index of the first occurrence of `c`, or `|s|` when there is none. */
  function IndexOf(s: string, c: char): (i: nat)
    ensures i <= |s|
    ensures i < |s| ==> s[i] == c
    ensures forall k :: 0 <= k < i ==> s[k] != c
  {
    if |s| == 0 then 0
    else if s[0] == c then 0
    else 1 + IndexOf(s[1..], c)
  }

  /** `s.split(c)` for a one-character separator. */
  function Split(s: string, c: char): (parts: seq<string>)
    ensures |parts| >= 1
    decreases |s|
  {
    var i := IndexOf(s, c);
    if i == |s| then [s] else [s[..i]] + Split(s[i + 1..], c)
  }

  /** No piece of a split holds the separator, and there is more than one piece
      exactly when the string holds it. */
  lemma {:induction false} SplitPieces(s: string, c: char)
    ensures forall k :: 0 <= k < |Split(s, c)| ==> c !in Split(s, c)[k]
    ensures |Split(s, c)| == 1 <==> c !in s
    decreases |s|
  {
    var i := IndexOf(s, c);
    if i < |s| {
      var rest := s[i + 1..];
      SplitPieces(rest, c);
      assert c !in s[..i];
      assert Split(s, c) == [s[..i]] + Split(rest, c);
    } else {
      assert c !in s;
    }
  }

  /** The first separator of `a + [c] + b` is the one after `a` when `a` has none. */
  lemma IndexOfAfterPrefix(a: string, c: char, b: string)
    requires c !in a
    ensures IndexOf(a + [c] + b, c) == |a|
  {
    var s := a + [c] + b;
    var i := IndexOf(s, c);
    assert s[|a|] == c;
  }

  /** Splitting at a first separator peels off the piece before it. */
  lemma SplitCons(a: string, c: char, b: string)
    requires c !in a
    ensures Split(a + [c] + b, c) == [a] + Split(b, c)
  {
    var s := a + [c] + b;
    IndexOfAfterPrefix(a, c, b);
    assert s[..|a|] == a;
    assert s[|a| + 1..] == b;
  }

  /** Joining a non-empty tail after one more piece puts one separator between them. */
  lemma JoinCons(sep: string, p: string, tail: seq<string>)
    requires |tail| >= 1
    ensures Join(sep, [p] + tail) == p + sep + Join(sep, tail)
  {
    assert ([p] + tail)[1..] == tail;
  }

  /** Joining two non-empty lists puts one separator between their joins. */
  lemma {:induction false} JoinAppend(sep: string, a: seq<string>, b: seq<string>)
    requires |a| >= 1 && |b| >= 1
    ensures Join(sep, a + b) == Join(sep, a) + sep + Join(sep, b)
    decreases |a|
  {
    if |a| == 1 {
      JoinCons(sep, a[0], b);
      assert a + b == [a[0]] + b;
    } else {
      JoinAppend(sep, a[1..], b);
      assert a + b == [a[0]] + (a[1..] + b);
      JoinCons(sep, a[0], a[1..] + b);
      JoinCons(sep, a[0], a[1..]);
      assert a == [a[0]] + a[1..];
    }
  }

  /** Joining the pieces of a split gives back the string. */
  lemma {:induction false} JoinSplit(s: string, c: char)
    ensures Join([c], Split(s, c)) == s
    decreases |s|
  {
    var i := IndexOf(s, c);
    if i < |s| {
      var head := s[..i];
      var rest := s[i + 1..];
      assert c !in head;
      assert s == head + [c] + rest;
      SplitCons(head, c, rest);
      JoinSplit(rest, c);
      JoinCons([c], head, Split(rest, c));
    }
  }

  /** Splitting a join gives back the pieces when no piece holds the separator. */
  lemma {:induction false} SplitJoin(parts: seq<string>, c: char)
    requires |parts| >= 1
    requires forall k :: 0 <= k < |parts| ==> c !in parts[k]
    ensures Split(Join([c], parts), c) == parts
    decreases |parts|
  {
    if |parts| > 1 {
      var tail := parts[1..];
      JoinCons([c], parts[0], tail);
      assert parts == [parts[0]] + tail;
      SplitCons(parts[0], c, Join([c], tail));
      SplitJoin(tail, c);
    } else {
      assert Join([c], parts) == parts[0];
    }
  }

  /** A character in the class the regular expression `\s` matches on `str` patterns
      (the characters for which Python's `str.isspace()` holds). */
  predicate IsSpace(c: char) {
    var n := c as int;
    || n == 0x20
    || 0x09 <= n <= 0x0d
    || 0x1c <= n <= 0x1f
    || n == 0x85
    || n == 0xa0
    || n == 0x1680
    || 0x2000 <= n <= 0x200a
    || n == 0x2028
    || n == 0x2029
    || n == 0x202f
    || n == 0x205f
    || n == 0x3000
  }
}
