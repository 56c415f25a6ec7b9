/**
 * The Python `str` operations that the helpers of the monitor rely on, over
 * `seq<char>`: substring search (`pat in s`), `s.split(sep)`, the
 * `''.join(e for e in s if e.isalnum())` filter (ASCII letters and digits
 * only) and `str(n)` of an integer.
 */
module PyStrings {
  import opened Wrappers

  // ---------------------------------------------------------------------
  // Substring search
  // ---------------------------------------------------------------------

  /** `pat` occurs in `s` starting at index `i`. */
  predicate OccursAt(s: string, i: nat, pat: string) {
    i + |pat| <= |s| && s[i..i + |pat|] == pat
  }

  /** An occurrence in a suffix of `s` is an occurrence in `s`, shifted by where the suffix starts. */
  lemma OccursInSuffix(s: string, d: nat, j: nat, pat: string)
    requires d <= |s| && OccursAt(s[d..], j, pat)
    ensures OccursAt(s, d + j, pat)
  {
    assert s[d..][j..j + |pat|] == s[d + j..d + j + |pat|];
  }

  /** The index of the first occurrence of `pat` in `s` at or after `from`, if there is one. */
  function FindFrom(s: string, pat: string, from: nat): (r: Option<nat>)
    requires pat != []
    ensures r.Some? ==> from <= r.value && OccursAt(s, r.value, pat)
    ensures r.Some? ==> forall j: nat :: from <= j < r.value ==> !OccursAt(s, j, pat)
    ensures r.None? ==> forall j: nat :: from <= j ==> !OccursAt(s, j, pat)
    decreases |s| - from
  {
    if |s| < from + |pat| then None
    else if OccursAt(s, from, pat) then Some(from)
    else FindFrom(s, pat, from + 1)
  }

  /** The index of the first occurrence of `pat` in `s`, or None where `s.find(pat)` is -1. */
  function FindFirst(s: string, pat: string): (r: Option<nat>)
    requires pat != []
    ensures r.Some? ==> OccursAt(s, r.value, pat)
    ensures r.Some? ==> forall j: nat :: j < r.value ==> !OccursAt(s, j, pat)
    ensures r.None? ==> forall j: nat :: !OccursAt(s, j, pat)
  {
    FindFrom(s, pat, 0)
  }

  /** Python's `pat in s`, for a non-empty `pat`. */
  predicate Contains(s: string, pat: string)
    requires pat != []
  {
    FindFirst(s, pat).Some?
  }

  /** An occurrence with none before it is the one FindFirst reports. */
  lemma FindFirstIs(s: string, pat: string, i: nat)
    requires pat != []
    requires OccursAt(s, i, pat)
    requires forall j: nat :: j < i ==> !OccursAt(s, j, pat)
    ensures FindFirst(s, pat) == Some(i)
  {
  }

  /** A pattern with a character that `s` lacks does not occur in `s`. */
  lemma AbsentChar(s: string, pat: string, k: nat)
    requires k < |pat| && pat[k] !in s
    ensures FindFirst(s, pat) == None
  {
    forall j: nat | OccursAt(s, j, pat)
      ensures false
    {
    }
  }

  /** A one-character pattern occurs exactly where that character stands. */
  lemma FindChar(s: string, c: char)
    ensures FindFirst(s, [c]).None? <==> c !in s
    ensures FindFirst(s, [c]).Some? ==>
      var m := FindFirst(s, [c]).value; m < |s| && s[m] == c && c !in s[..m]
  {
    forall j: nat | j < |s|
      ensures OccursAt(s, j, [c]) <==> s[j] == c
    {
      assert s[j..j + 1] == [s[j]];
    }
    if c in s {
      var j :| 0 <= j < |s| && s[j] == c;
      assert OccursAt(s, j, [c]);
    }
    match FindFirst(s, [c])
    case None =>
    case Some(m) =>
      forall j | 0 <= j < m
        ensures s[..m][j] != c
      {
        assert !OccursAt(s, j, [c]);
      }
  }

  /**
   * In `a + sep + b`, no occurrence of `sep` starts inside `a` when some
   * character `sep[k]` is missing from `a` and from `sep[..k]`.
   */
  lemma KeyCharBlocksEarlyMatch(a: string, sep: string, b: string, k: nat)
    requires k < |sep| && sep[k] !in a
    requires forall m :: 0 <= m < k ==> sep[m] != sep[k]
    ensures forall j: nat :: j < |a| ==> !OccursAt(a + sep + b, j, sep)
  {
    var s := a + sep + b;
    forall j: nat | j < |a| && OccursAt(s, j, sep)
      ensures false
    {
    }
  }

  // ---------------------------------------------------------------------
  // str.split
  // ---------------------------------------------------------------------

  /** Python's `s.split(sep)` for a non-empty separator. */
  function Split(s: string, sep: string): (parts: seq<string>)
    requires sep != []
    ensures |parts| >= 1
    decreases |s|
  {
    match FindFirst(s, sep)
    case None => [s]
    case Some(i) => [s[..i]] + Split(s[i + |sep|..], sep)
  }

  /** Python's `sep.join(parts)`. */
  function Join(parts: seq<string>, sep: string): string
    requires |parts| >= 1
  {
    if |parts| == 1 then parts[0] else parts[0] + sep + Join(parts[1..], sep)
  }

  lemma JoinCons(x: string, tail: seq<string>, sep: string)
    requires |tail| >= 1
    ensures Join([x] + tail, sep) == x + sep + Join(tail, sep)
  {
    assert ([x] + tail)[1..] == tail;
  }

  lemma Reassemble(s: string, i: nat, sep: string)
    requires OccursAt(s, i, sep)
    ensures s == s[..i] + sep + s[i + |sep|..]
  {
    assert s == s[..i] + s[i..i + |sep|] + s[i + |sep|..];
  }

  /** Splitting loses nothing: joining the pieces with the separator gives back `s`. */
  lemma {:induction false} SplitJoin(s: string, sep: string)
    requires sep != []
    ensures Join(Split(s, sep), sep) == s
    decreases |s|
  {
    var f := FindFirst(s, sep);
    if f.Some? {
      var i := f.value;
      var head, rest := s[..i], s[i + |sep|..];
      SplitJoin(rest, sep);
      JoinCons(head, Split(rest, sep), sep);
      Reassemble(s, i, sep);
    }
  }

  /** No piece of a split contains the separator; more than one piece exactly when it occurs. */
  lemma {:induction false} SplitPiecesFree(s: string, sep: string)
    requires sep != []
    ensures forall k :: 0 <= k < |Split(s, sep)| ==> !Contains(Split(s, sep)[k], sep)
    ensures |Split(s, sep)| >= 2 <==> Contains(s, sep)
    decreases |s|
  {
    match FindFirst(s, sep)
    case None =>
    case Some(i) =>
      var rest := s[i + |sep|..];
      SplitPiecesFree(rest, sep);
      forall j: nat
        ensures !OccursAt(s[..i], j, sep)
      {
        if j + |sep| <= i {
          assert s[..i][j..j + |sep|] == s[j..j + |sep|];
          assert !OccursAt(s, j, sep);
        }
      }
  }

  /** The first piece of `s.split(sep)` is the text before the first occurrence of `sep`. */
  lemma SplitHead(s: string, sep: string)
    requires sep != []
    ensures FindFirst(s, sep).None? ==> Split(s, sep) == [s]
    ensures FindFirst(s, sep).Some? ==> Split(s, sep)[0] == s[..FindFirst(s, sep).value]
  {
  }

  /** The second piece of a split is the first piece of what follows the first occurrence. */
  lemma SplitSecond(s: string, sep: string)
    requires sep != [] && Contains(s, sep)
    ensures |Split(s, sep)| >= 2
    ensures Split(s, sep)[1] == Split(s[FindFirst(s, sep).value + |sep|..], sep)[0]
  {
  }

  /**
   * The second piece of a split stands right after the first occurrence of
   * `sep`, and is followed by the end of `s` or by another occurrence.
   */
  lemma SecondPieceFollows(s: string, sep: string)
    requires sep != [] && Contains(s, sep)
    ensures |Split(s, sep)| >= 2
    ensures var start := FindFirst(s, sep).value + |sep|;
      var p := Split(s, sep)[1];
      && start + |p| <= |s| && s[start..start + |p|] == p
      && (start + |p| == |s| || OccursAt(s, start + |p|, sep))
  {
    var start := FindFirst(s, sep).value + |sep|;
    SplitSecond(s, sep);
    SplitHeadPrefix(s[start..], sep);
    PrefixOfSuffix(s, start, Split(s[start..], sep)[0], sep);
  }

  /** A prefix of `s[start..]` followed there by the end or by `sep` is a stretch of `s` followed the same way. */
  lemma PrefixOfSuffix(s: string, start: nat, p: string, sep: string)
    requires start <= |s|
    requires |p| <= |s[start..]| && s[start..][..|p|] == p
    requires |p| == |s[start..]| || OccursAt(s[start..], |p|, sep)
    ensures start + |p| <= |s| && s[start..start + |p|] == p
    ensures start + |p| == |s| || OccursAt(s, start + |p|, sep)
  {
    assert s[start..start + |p|] == s[start..][..|p|];
    if |p| < |s[start..]| {
      OccursInSuffix(s, start, |p|, sep);
    }
  }

  /** The first piece of a split is a prefix of `s` that ends at the end of `s` or where `sep` occurs. */
  lemma SplitHeadPrefix(s: string, sep: string)
    requires sep != []
    ensures var h := Split(s, sep)[0];
      |h| <= |s| && s[..|h|] == h && (|h| == |s| || OccursAt(s, |h|, sep))
  {
    SplitHead(s, sep);
  }

  /** Splitting at an occurrence that has none before it peels off the text before it. */
  lemma SplitFirst(a: string, sep: string, b: string)
    requires sep != []
    requires forall j: nat :: j < |a| ==> !OccursAt(a + sep + b, j, sep)
    ensures Split(a + sep + b, sep) == [a] + Split(b, sep)
  {
    var s := a + sep + b;
    assert s[|a|..|a| + |sep|] == sep;
    FindFirstIs(s, sep, |a|);
    assert s[..|a|] == a;
    assert s[|a| + |sep|..] == b;
  }

  /**
   * Pieces that lack a one-character separator are recovered by splitting
   * their join: quoting with that character cannot be broken out of.
   */
  lemma {:induction false} SplitJoinedByChar(pieces: seq<string>, c: char)
    requires |pieces| >= 1
    requires forall k :: 0 <= k < |pieces| ==> c !in pieces[k]
    ensures Split(Join(pieces, [c]), [c]) == pieces
    decreases |pieces|
  {
    if |pieces| == 1 {
      AbsentChar(pieces[0], [c], 0);
    } else {
      var rest := Join(pieces[1..], [c]);
      KeyCharBlocksEarlyMatch(pieces[0], [c], rest, 0);
      SplitFirst(pieces[0], [c], rest);
      SplitJoinedByChar(pieces[1..], c);
      assert pieces == [pieces[0]] + pieces[1..];
    }
  }

  // ---------------------------------------------------------------------
  // The alphanumeric filter
  // ---------------------------------------------------------------------

  /** `c.isalnum()`, restricted to ASCII. */
  predicate IsAlnum(c: char) {
    ('a' <= c <= 'z') || ('A' <= c <= 'Z') || ('0' <= c <= '9')
  }

  predicate AllAlnum(s: string) {
    forall i :: 0 <= i < |s| ==> IsAlnum(s[i])
  }

  /** `''.join(e for e in s if e.isalnum())`. */
  function KeepAlnum(s: string): string {
    if s == [] then []
    else (if IsAlnum(s[0]) then [s[0]] else []) + KeepAlnum(s[1..])
  }

  /**
   * The filter keeps exactly the alphanumeric characters: the result is
   * alphanumeric, holds each alphanumeric character as often as `s` does and
   * no other character.
   */
  lemma {:induction false} KeepAlnumContents(s: string)
    ensures AllAlnum(KeepAlnum(s))
    ensures forall c :: multiset(KeepAlnum(s))[c] == if IsAlnum(c) then multiset(s)[c] else 0
  {
    if s != [] {
      KeepAlnumContents(s[1..]);
      assert s == [s[0]] + s[1..];
      assert multiset(s) == multiset{s[0]} + multiset(s[1..]);
      var head := if IsAlnum(s[0]) then [s[0]] else [];
      assert multiset(KeepAlnum(s)) == multiset(head) + multiset(KeepAlnum(s[1..]));
    }
  }

  /** The filter preserves order: it distributes over concatenation. */
  lemma {:induction false} KeepAlnumAppend(a: string, b: string)
    ensures KeepAlnum(a + b) == KeepAlnum(a) + KeepAlnum(b)
  {
    if a != [] {
      var head := if IsAlnum(a[0]) then [a[0]] else [];
      assert (a + b)[0] == a[0];
      assert (a + b)[1..] == a[1..] + b;
      KeepAlnumAppend(a[1..], b);
      calc {
        KeepAlnum(a + b);
        head + KeepAlnum(a[1..] + b);
        head + (KeepAlnum(a[1..]) + KeepAlnum(b));
        (head + KeepAlnum(a[1..])) + KeepAlnum(b);
        KeepAlnum(a) + KeepAlnum(b);
      }
    } else {
      assert a + b == b;
    }
  }

  /** A string that is already alphanumeric passes the filter unchanged. */
  lemma {:induction false} KeepAlnumOfAlnum(s: string)
    requires AllAlnum(s)
    ensures KeepAlnum(s) == s
  {
    if s != [] {
      KeepAlnumOfAlnum(s[1..]);
    }
  }

  /** Filtering twice is filtering once. */
  lemma KeepAlnumIdempotent(s: string)
    ensures KeepAlnum(KeepAlnum(s)) == KeepAlnum(s)
  {
    KeepAlnumContents(s);
    KeepAlnumOfAlnum(KeepAlnum(s));
  }

  // ---------------------------------------------------------------------
  // str() of an integer
  // ---------------------------------------------------------------------

  predicate IsDigit(c: char) {
    '0' <= c <= '9'
  }

  function DigitChar(d: nat): (c: char)
    requires d < 10
  {
    (('0' as int) + d) as char
  }

  /** The decimal digits of `n`, without leading zeros. */
  function NatToDecimal(n: nat): string
    decreases n
  {
    if n < 10 then [DigitChar(n)] else NatToDecimal(n / 10) + [DigitChar(n % 10)]
  }

  /** Python's `str(n)` for an `int`. */
  function IntToDecimal(n: int): string {
    if n < 0 then "-" + NatToDecimal(-n) else NatToDecimal(n)
  }

  function DigitValue(c: char): (d: nat)
    requires IsDigit(c)
    ensures d < 10
  {
    assert '0' as int <= c as int <= '9' as int;
    (c as int) - ('0' as int)
  }

  /** The number a string of decimal digits denotes. */
  function DecimalValue(s: string): nat
    requires forall i :: 0 <= i < |s| ==> IsDigit(s[i])
  {
    if s == [] then 0
    else DecimalValue(s[..|s| - 1]) * 10 + DigitValue(s[|s| - 1])
  }

  /** `str(n)` of a natural number is non-empty, all digits, and reads back as `n`. */
  lemma {:induction false} NatToDecimalRoundTrip(n: nat)
    ensures NatToDecimal(n) != []
    ensures forall i :: 0 <= i < |NatToDecimal(n)| ==> IsDigit(NatToDecimal(n)[i])
    ensures DecimalValue(NatToDecimal(n)) == n
    decreases n
  {
    if n >= 10 {
      NatToDecimalRoundTrip(n / 10);
      var s := NatToDecimal(n);
      assert s[..|s| - 1] == NatToDecimal(n / 10);
    }
  }
}
