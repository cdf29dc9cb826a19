/** The string operations the curation step and the prompt builders rely on:
    Python's str.strip(), str.lower(), slicing s[:n], sep.join(parts) and
    str(n) for a natural n. Split on one character is not used by the program;
    it is the inverse of Join that shows the article listings can be decoded. */
module Text {

  /** Python's str.isspace() on ASCII: tab, line feed, vertical tab, form feed,
      carriage return, the four separators 0x1C-0x1F and the space. */
  predicate IsSpace(c: char) {
    9 <= c as int <= 13 || 28 <= c as int <= 32
  }

  predicate AllSpace(s: string) {
    forall k :: 0 <= k < |s| ==> IsSpace(s[k])
  }

  /** The length of the longest all-whitespace prefix of s. */
  function LeadingSpaces(s: string): (n: nat)
    ensures n <= |s|
    ensures AllSpace(s[..n])
    ensures n < |s| ==> !IsSpace(s[n])
  {
    if s == [] || !IsSpace(s[0]) then 0
    else
      var m := LeadingSpaces(s[1..]);
      assert s[..1 + m] == [s[0]] + s[1..][..m];
      1 + m
  }

  /** The length of the longest all-whitespace suffix of s. */
  function TrailingSpaces(s: string): (n: nat)
    ensures n <= |s|
    ensures AllSpace(s[|s| - n..])
    ensures n < |s| ==> !IsSpace(s[|s| - 1 - n])
  {
    if s == [] || !IsSpace(s[|s| - 1]) then 0
    else
      var init := s[..|s| - 1];
      var m := TrailingSpaces(init);
      assert s[|s| - (1 + m)..] == init[|init| - m..] + [s[|s| - 1]];
      1 + m
  }

  /** Python's str.strip() without an argument: whitespace removed from both ends. */
  function Strip(s: string): (r: string)
    ensures |r| <= |s|
    ensures r == "" || (!IsSpace(r[0]) && !IsSpace(r[|r| - 1]))
  {
    var rest := s[LeadingSpaces(s)..];
    rest[..|rest| - TrailingSpaces(rest)]
  }

  lemma ThreeSlices(s: string, i: nat, j: nat)
    requires i <= j <= |s|
    ensures s == s[..i] + s[i..j] + s[j..]
  {
  }

  lemma SliceOfSuffix(s: string, n: nat, k: nat)
    requires n + k <= |s|
    ensures s[n..][..k] == s[n..n + k]
    ensures s[n..][k..] == s[n + k..]
  {
  }

  /** Strip keeps one contiguous slice of s and drops only whitespace around it. */
  lemma StripSlice(s: string) returns (i: nat, j: nat)
    ensures i <= j <= |s|
    ensures Strip(s) == s[i..j]
    ensures AllSpace(s[..i]) && AllSpace(s[j..])
  {
    var n := LeadingSpaces(s);
    var rest := s[n..];
    var m := TrailingSpaces(rest);
    i, j := n, |s| - m;
    SliceOfSuffix(s, n, |rest| - m);
  }

  /** Strip only ever removes whitespace, and only at the two ends. */
  lemma StripDecompose(s: string) returns (p: string, q: string)
    ensures AllSpace(p) && AllSpace(q)
    ensures s == p + Strip(s) + q
  {
    var i, j := StripSlice(s);
    ThreeSlices(s, i, j);
    p, q := s[..i], s[j..];
  }

  /** Strip is determined by its result: any whitespace padding around a text
      whose two ends are not whitespace is exactly what Strip removes. */
  lemma StripPadded(p: string, t: string, q: string)
    requires AllSpace(p) && AllSpace(q)
    requires t == "" || (!IsSpace(t[0]) && !IsSpace(t[|t| - 1]))
    ensures Strip(p + t + q) == t
  {
    var s := p + t + q;
    var n := LeadingSpaces(s);
    if t == "" {
      assert s == p + q;
      assert AllSpace(s);
      assert n == |s|;
    } else {
      assert s[|p|] == t[0];
      assert forall k :: 0 <= k < n ==> IsSpace(s[k]) by {
        assert forall k :: 0 <= k < n ==> s[..n][k] == s[k];
      }
      assert forall k :: 0 <= k < |p| ==> IsSpace(s[k]);
      assert n == |p|;
      var rest := s[n..];
      assert rest == t + q;
      var m := TrailingSpaces(rest);
      var last := |rest| - 1 - |q|;
      assert rest[last] == t[|t| - 1];
      assert forall k :: |rest| - m <= k < |rest| ==> IsSpace(rest[k]) by {
        assert forall k :: |rest| - m <= k < |rest| ==> rest[|rest| - m..][k - (|rest| - m)] == rest[k];
      }
      assert forall k :: |t| <= k < |rest| ==> IsSpace(rest[k]) by {
        assert forall k :: |t| <= k < |rest| ==> rest[k] == q[k - |t|];
      }
      assert m == |q|;
      assert rest[..|rest| - m] == t;
    }
  }

  lemma StripIdempotent(s: string)
    ensures Strip(Strip(s)) == Strip(s)
  {
    StripPadded("", Strip(s), "");
    assert "" + Strip(s) + "" == Strip(s);
  }

  /** Python's str.lower() on ASCII letters; every other character is kept. */
  function LowerChar(c: char): char {
    if 'A' <= c <= 'Z' then (c as int + 32) as char else c
  }

  /** Keeps the length and every character except an upper-case ASCII letter,
      which becomes its lower-case letter; so no upper-case ASCII letter is
      left, and whitespace stays whitespace and everything else stays not. */
  function Lower(s: string): (r: string)
    ensures |r| == |s|
    ensures forall k :: 0 <= k < |s| ==> r[k] == s[k] || ('A' <= s[k] <= 'Z' && r[k] as int == s[k] as int + 32)
    ensures forall k :: 0 <= k < |r| ==> !('A' <= r[k] <= 'Z')
    ensures forall k :: 0 <= k < |r| ==> (IsSpace(r[k]) <==> IsSpace(s[k]))
  {
    seq(|s|, k requires 0 <= k < |s| => LowerChar(s[k]))
  }

  lemma LowerConcat(s: string, t: string)
    ensures Lower(s + t) == Lower(s) + Lower(t)
  {
    assert forall k :: 0 <= k < |s + t| ==> Lower(s + t)[k] == (Lower(s) + Lower(t))[k];
  }

  /** Lowering twice is lowering once. */
  lemma LowerIdempotent(s: string)
    ensures Lower(Lower(s)) == Lower(s)
  {
  }

  /** Lowering never turns whitespace into non-whitespace or back, so it commutes with Strip. */
  lemma StripLowerCommute(s: string)
    ensures Strip(Lower(s)) == Lower(Strip(s))
  {
    var p, q := StripDecompose(s);
    var m := Strip(s);
    LowerConcat(p + m, q);
    LowerConcat(p, m);
    assert Lower(s) == Lower(p) + Lower(m) + Lower(q);
    assert forall k :: 0 <= k < |p| ==> IsSpace(Lower(p)[k]);
    assert forall k :: 0 <= k < |q| ==> IsSpace(Lower(q)[k]);
    StripPadded(Lower(p), Lower(m), Lower(q));
  }

  /** Python's slice s[:n] for a non-negative n: the first n characters, or all of s when it is shorter. */
  function Take(s: string, n: nat): (r: string)
    ensures |r| == (if |s| <= n then |s| else n)
    ensures r == s[..|r|]
  {
    if |s| <= n then s else s[..n]
  }

  /** The sum of the lengths of the parts. */
  function TotalLength(parts: seq<string>): nat {
    if parts == [] then 0 else |parts[0]| + TotalLength(parts[1..])
  }

  /** Python's sep.join(parts): every part, in order, with one sep between
      neighbours; the first part starts the result. */
  function Join(sep: string, parts: seq<string>): (r: string)
    ensures |parts| == 0 ==> r == ""
    ensures |parts| > 0 ==> |r| == TotalLength(parts) + (|parts| - 1) * |sep|
    ensures |parts| > 0 ==> |parts[0]| <= |r| && r[..|parts[0]|] == parts[0]
  {
    if |parts| == 0 then ""
    else if |parts| == 1 then parts[0]
    else parts[0] + sep + Join(sep, parts[1..])
  }

  /** The index of the first c in s, or |s| when s has none. */
  function IndexOf(s: string, c: char): (i: nat)
    ensures i <= |s|
    ensures c !in s[..i]
    ensures i < |s| ==> s[i] == c
  {
    if s == [] then 0
    else if s[0] == c then 0
    else
      var j := IndexOf(s[1..], c);
      assert s[..1 + j] == [s[0]] + s[1..][..j];
      1 + j
  }

  /** Python's s.split(c) for a one-character separator c. */
  function Split(s: string, c: char): (parts: seq<string>)
    ensures |parts| >= 1
    decreases |s|
  {
    var i := IndexOf(s, c);
    if i == |s| then [s] else [s[..i]] + Split(s[i + 1..], c)
  }

  /** Splitting on the separator undoes joining with it, when no part contains it. */
  lemma {:induction false} SplitJoin(parts: seq<string>, c: char)
    requires |parts| >= 1
    requires forall k :: 0 <= k < |parts| ==> c !in parts[k]
    ensures Split(Join([c], parts), c) == parts
  {
    if |parts| == 1 {
      assert Join([c], parts) == parts[0];
      var i := IndexOf(parts[0], c);
      assert forall k :: 0 <= k < |parts[0]| ==> parts[0][k] != c;
      assert i == |parts[0]|;
    } else {
      var head, tail := parts[0], Join([c], parts[1..]);
      var s := head + [c] + tail;
      assert Join([c], parts) == s;
      var i := IndexOf(s, c);
      assert s[|head|] == c;
      assert forall k :: 0 <= k < |head| ==> s[k] != c by {
        assert forall k :: 0 <= k < |head| ==> s[k] == head[k];
      }
      assert forall k :: 0 <= k < i ==> s[k] != c by {
        assert forall k :: 0 <= k < i ==> s[..i][k] == s[k];
      }
      assert i == |head|;
      assert s[..i] == head;
      assert s[i + 1..] == tail;
      SplitJoin(parts[1..], c);
      assert parts == [head] + parts[1..];
    }
  }

  predicate IsDigit(c: char) {
    '0' <= c <= '9'
  }

  predicate AllDigits(s: string) {
    forall k :: 0 <= k < |s| ==> IsDigit(s[k])
  }

  function DigitChar(d: nat): char
    requires d < 10
  {
    ('0' as int + d) as char
  }

  /** Python's str(n) for a natural number: its decimal digits, without leading zeros. */
  function NatToString(n: nat): (s: string)
    ensures |s| > 0 && AllDigits(s)
    ensures s[0] == '0' ==> n == 0
    decreases n
  {
    if n < 10 then [DigitChar(n)]
    else NatToString(n / 10) + [DigitChar(n % 10)]
  }

  /** The number a string of decimal digits denotes. */
  function DigitsValue(s: string): nat
    requires AllDigits(s)
  {
    if s == [] then 0
    else DigitsValue(s[..|s| - 1]) * 10 + (s[|s| - 1] as int - '0' as int)
  }

  /** Reading back the decimal digits of n gives n. */
  lemma {:induction false} DigitsRoundTrip(n: nat)
    ensures DigitsValue(NatToString(n)) == n
    decreases n
  {
    if n >= 10 {
      var s := NatToString(n / 10);
      DigitsRoundTrip(n / 10);
      assert (s + [DigitChar(n % 10)])[..|s|] == s;
    }
  }

  /** Distinct numbers print differently. */
  lemma NatToStringInjective(m: nat, n: nat)
    requires NatToString(m) == NatToString(n)
    ensures m == n
  {
    DigitsRoundTrip(m);
    DigitsRoundTrip(n);
  }
}
