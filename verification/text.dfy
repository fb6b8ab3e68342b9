/** String helpers with the exact semantics of the JavaScript and Python operations the program uses. */
module Text {

  /** JavaScript truthiness of a string: only the empty string is falsy. */
  predicate Truthy(s: string) {
    s != ""
  }

  /** `xs.filter(Boolean)` over strings: the non-empty entries, in their original order. */
  function KeepTruthy(xs: seq<string>): (r: seq<string>)
    ensures |r| <= |xs|
    ensures forall i :: 0 <= i < |r| ==> Truthy(r[i])
    ensures forall x :: x in r ==> x in xs
    ensures forall x :: x in xs && Truthy(x) ==> x in r
  {
    if |xs| == 0 then []
    else if Truthy(xs[0]) then [xs[0]] + KeepTruthy(xs[1..])
    else KeepTruthy(xs[1..])
  }

  /** Filtering distributes over concatenation, which is what "in their original order" means. */
  lemma {:induction false} KeepTruthyAppend(a: seq<string>, b: seq<string>)
    ensures KeepTruthy(a + b) == KeepTruthy(a) + KeepTruthy(b)
    decreases |a|
  {
    if |a| == 0 {
      assert a + b == b;
    } else {
      assert (a + b)[1..] == a[1..] + b;
      KeepTruthyAppend(a[1..], b);
    }
  }

  /** Filtering one candidate keeps it exactly when it is non-empty. */
  lemma KeepTruthySingle(x: string)
    ensures KeepTruthy([x]) == if x == "" then [] else [x]
  {
    assert [x][1..] == [];
  }

  /** Nothing survives the filter exactly when every entry is empty. */
  lemma {:induction false} KeepTruthyEmpty(xs: seq<string>)
    ensures KeepTruthy(xs) == [] <==> forall i :: 0 <= i < |xs| ==> xs[i] == ""
    decreases |xs|
  {
    if |xs| > 0 {
      KeepTruthyEmpty(xs[1..]);
      if !Truthy(xs[0]) {
        forall i | 0 <= i < |xs| && (forall j :: 0 <= j < |xs[1..]| ==> xs[1..][j] == "")
          ensures xs[i] == ""
        {
          if i > 0 { assert xs[i] == xs[1..][i - 1]; }
        }
      }
    }
  }

  /** `parts.join(sep)`: the parts with `sep` between consecutive ones; `[].join(sep)` is the empty string. */
  function Join(sep: string, parts: seq<string>): (r: string)
    ensures |parts| == 0 ==> r == ""
    ensures |parts| == 1 ==> r == parts[0]
    ensures |parts| > 0 ==> |parts[0]| <= |r| && r[..|parts[0]|] == parts[0]
  {
    if |parts| == 0 then ""
    else if |parts| == 1 then parts[0]
    else parts[0] + sep + Join(sep, parts[1..])
  }

  /** Joining two non-empty lists puts exactly one separator between the two joined halves. */
  lemma {:induction false} JoinAppend(sep: string, a: seq<string>, b: seq<string>)
    requires |a| > 0 && |b| > 0
    ensures Join(sep, a + b) == Join(sep, a) + sep + Join(sep, b)
    decreases |a|
  {
    if |a| == 1 {
      assert (a + b)[1..] == b;
    } else {
      assert (a + b)[1..] == a[1..] + b;
      JoinAppend(sep, a[1..], b);
    }
  }

  /** The index of the first occurrence of `c` in `s`. */
  function IndexOf(s: string, c: char): (i: nat)
    requires c in s
    ensures i < |s| && s[i] == c
    ensures forall k :: 0 <= k < i ==> s[k] != c
  {
    if s[0] == c then 0 else 1 + IndexOf(s[1..], c)
  }

  /** Python `s.split(c)` for a one-character separator: the maximal `c`-free pieces between occurrences of `c`. */
  function Split(s: string, c: char): (r: seq<string>)
    ensures |r| >= 1
    ensures forall i :: 0 <= i < |r| ==> c !in r[i]
    decreases |s|
  {
    if c !in s then [s]
    else
      var i := IndexOf(s, c);
      [s[..i]] + Split(s[i + 1..], c)
  }

  /** Splitting loses nothing: joining the pieces back with the separator gives the original string. */
  lemma {:induction false} JoinSplit(s: string, c: char)
    ensures Join([c], Split(s, c)) == s
    decreases |s|
  {
    if c in s {
      var i := IndexOf(s, c);
      var rest := Split(s[i + 1..], c);
      JoinSplit(s[i + 1..], c);
      assert Split(s, c) == [s[..i]] + rest;
      assert Split(s, c)[1..] == rest;
      assert s == s[..i] + [c] + s[i + 1..];
    }
  }

  /** Splitting a `c`-free piece followed by `c` peels that piece off. */
  lemma SplitAtSeparator(a: string, c: char, rest: string)
    requires c !in a
    ensures Split(a + [c] + rest, c) == [a] + Split(rest, c)
  {
    var s := a + [c] + rest;
    assert s[|a|] == c;
    var i := IndexOf(s, c);
    assert i == |a| by {
      assert forall k :: 0 <= k < |a| ==> s[k] == a[k];
    }
    assert s[..i] == a;
    assert s[i + 1..] == rest;
  }

  /** Joining `c`-free parts with `c` and splitting on `c` gives the parts back. */
  lemma {:induction false} SplitJoin(parts: seq<string>, c: char)
    requires |parts| >= 1
    requires forall i :: 0 <= i < |parts| ==> c !in parts[i]
    ensures Split(Join([c], parts), c) == parts
    decreases |parts|
  {
    if |parts| > 1 {
      var tail := Join([c], parts[1..]);
      assert Join([c], parts) == parts[0] + [c] + tail;
      SplitAtSeparator(parts[0], c, tail);
      SplitJoin(parts[1..], c);
      assert parts == [parts[0]] + parts[1..];
    }
  }

  /** The first piece of a split is the longest `c`-free prefix of the string. */
  lemma FirstPieceIsPrefix(s: string, c: char)
    ensures var p := Split(s, c)[0]; |p| <= |s| && p == s[..|p|] && c !in p
    ensures var p := Split(s, c)[0]; |p| == |s| || s[|p|] == c
  {
  }

  /** Python `str.isspace` for one character: the whitespace set that `str.strip()` removes. */
  predicate IsSpace(ch: char) {
    var n := ch as int;
    (0x09 <= n <= 0x0D) || (0x1C <= n <= 0x20) || n == 0x85 || n == 0xA0 || n == 0x1680
    || (0x2000 <= n <= 0x200A) || n == 0x2028 || n == 0x2029 || n == 0x202F || n == 0x205F || n == 0x3000
  }

  /** `r` is `s` with a whitespace-only prefix of length `i` and a whitespace-only suffix cut away,
      and `r` neither starts nor ends with whitespace. */
  ghost predicate StrippedAt(s: string, r: string, i: int) {
    && 0 <= i <= i + |r| <= |s|
    && r == s[i..i + |r|]
    && (forall k :: 0 <= k < i ==> IsSpace(s[k]))
    && (forall k :: i + |r| <= k < |s| ==> IsSpace(s[k]))
    && (r == "" || (!IsSpace(r[0]) && !IsSpace(r[|r| - 1])))
  }

  /** `t` occurs in `s` starting at index `i`. */
  ghost predicate OccursAt(s: string, t: string, i: int) {
    0 <= i <= i + |t| <= |s| && s[i..i + |t|] == t
  }

  /** Python `s.lstrip()`. */
  function StripStart(s: string): (r: string)
    ensures |r| <= |s| && r == s[|s| - |r|..]
    ensures forall k :: 0 <= k < |s| - |r| ==> IsSpace(s[k])
    ensures r == "" || !IsSpace(r[0])
  {
    if |s| > 0 && IsSpace(s[0]) then StripStart(s[1..]) else s
  }

  /** Python `s.rstrip()`. */
  function StripEnd(s: string): (r: string)
    ensures |r| <= |s| && r == s[..|r|]
    ensures forall k :: |r| <= k < |s| ==> IsSpace(s[k])
    ensures r == "" || !IsSpace(r[|r| - 1])
  {
    if |s| > 0 && IsSpace(s[|s| - 1]) then StripEnd(s[..|s| - 1]) else s
  }

  /** Python `s.strip()`: surrounding whitespace removed from both ends. */
  function Strip(s: string): (r: string)
    ensures exists i :: StrippedAt(s, r, i)
  {
    var t := StripStart(s);
    var r := StripEnd(t);
    StripStartEnd(s, t, r);
    r
  }

  /** The two one-sided strips compose into a two-sided one. */
  lemma StripStartEnd(s: string, t: string, r: string)
    requires |t| <= |s| && t == s[|s| - |t|..]
    requires forall k :: 0 <= k < |s| - |t| ==> IsSpace(s[k])
    requires t == "" || !IsSpace(t[0])
    requires |r| <= |t| && r == t[..|r|]
    requires forall k :: |r| <= k < |t| ==> IsSpace(t[k])
    requires r == "" || !IsSpace(r[|r| - 1])
    ensures StrippedAt(s, r, |s| - |t|)
  {
    var i := |s| - |t|;
    assert r == s[i..i + |r|];
    forall k | i + |r| <= k < |s|
      ensures IsSpace(s[k])
    {
      assert s[k] == t[k - i];
    }
    if r != "" {
      assert r[0] == t[0];
    }
  }

  /** A strip result is empty exactly when the whole string is whitespace. */
  lemma StrippedEmptyIff(s: string, r: string, i: int)
    requires StrippedAt(s, r, i)
    ensures r == "" <==> forall k :: 0 <= k < |s| ==> IsSpace(s[k])
  {
    if r != "" {
      assert s[i] == r[0];
    }
  }

  lemma StrippedAtUnique(s: string, r1: string, i1: int, r2: string, i2: int)
    requires StrippedAt(s, r1, i1) && StrippedAt(s, r2, i2)
    ensures r1 == r2
  {
    StrippedEmptyIff(s, r1, i1);
    StrippedEmptyIff(s, r2, i2);
    if r1 != "" {
      // both results start at the first non-space character of `s` ...
      assert i1 == i2 by {
        assert s[i1] == r1[0] && s[i2] == r2[0];
      }
      // ... and end at its last one
      assert |r1| == |r2| by {
        assert s[i1 + |r1| - 1] == r1[|r1| - 1];
        assert s[i2 + |r2| - 1] == r2[|r2| - 1];
      }
    }
  }

  predicate IsDigit(c: char) {
    '0' as int <= c as int <= '9' as int
  }

  function DigitChar(d: nat): (c: char)
    requires d < 10
    ensures IsDigit(c)
  {
    ('0' as int + d) as char
  }

  /** JavaScript's rendering of a non-negative integer in a template literal: its decimal digits. */
  function DecimalString(n: nat): (r: string)
    ensures |r| >= 1
    ensures forall i :: 0 <= i < |r| ==> IsDigit(r[i])
    ensures r[0] == '0' <==> n == 0
  {
    if n < 10 then [DigitChar(n)] else DecimalString(n / 10) + [DigitChar(n % 10)]
  }

  /** The number a string of decimal digits denotes. */
  function DecimalValue(s: string): nat
    requires forall i :: 0 <= i < |s| ==> IsDigit(s[i])
  {
    if s == "" then 0
    else
      var last := s[|s| - 1];
      assert IsDigit(last);
      DecimalValue(s[..|s| - 1]) * 10 + (last as int - '0' as int)
  }

  /** Reading the rendered digits back gives the number: the rendering loses nothing. */
  lemma {:induction false} DecimalRoundTrip(n: nat)
    ensures DecimalValue(DecimalString(n)) == n
  {
    if n >= 10 {
      var r := DecimalString(n);
      assert r[..|r| - 1] == DecimalString(n / 10);
      DecimalRoundTrip(n / 10);
    }
  }

}
