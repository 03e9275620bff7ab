/**
 * The string built-ins the front end (JavaScript) and the back end (Python)
 * rely on: prefix tests, joining a list with a separator, ASCII case mapping
 * and whitespace stripping. Characters outside ASCII are left as they are by
 * the case mappings and are never whitespace here.
 */
module Strings {

  /** `s` begins with `p` (JavaScript's startsWith, Python's startswith). */
  predicate StartsWith(s: string, p: string)
  {
    |p| <= |s| && s[..|p|] == p
  }

  /** The separator both programs put between colour names. */
  const ListSeparator: string := ", "

  /** The total length of the strings in `xs`. */
  function TotalLength(xs: seq<string>): nat
    decreases |xs|
  {
    if |xs| == 0 then 0 else |xs[0]| + TotalLength(xs[1..])
  }

  /** The elements of `xs` with `sep` between neighbours (Array.join,
      str.join): it begins with the first element, ends with the last, and
      holds every element once plus one separator per neighbouring pair. */
  function Join(xs: seq<string>, sep: string): (r: string)
    ensures |xs| > 0 ==> StartsWith(r, xs[0])
    ensures |xs| > 0 ==> |xs[|xs| - 1]| <= |r| && r[|r| - |xs[|xs| - 1]|..] == xs[|xs| - 1]
    ensures |xs| > 0 ==> |r| == TotalLength(xs) + (|xs| - 1) * |sep|
    ensures |xs| == 0 ==> r == ""
    decreases |xs|
  {
    if |xs| == 0 then ""
    else if |xs| == 1 then xs[0]
    else
      var rest := Join(xs[1..], sep);
      var r := xs[0] + sep + rest;
      assert r[..|xs[0]|] == xs[0];
      assert xs[1..][|xs| - 2] == xs[|xs| - 1];
      assert r[|r| - |xs[|xs| - 1]|..] == rest[|rest| - |xs[|xs| - 1]|..];
      assert (|xs| - 1) * |sep| == |sep| + (|xs| - 2) * |sep|;
      r
  }

  /** Cuts `s` at every occurrence of ", "; the inverse of Join(_, ", "). */
  function Unjoin(s: string): (r: seq<string>)
    ensures |r| >= 1
    decreases |s|
  {
    if |s| < 2 then [s]
    else if s[..2] == ListSeparator then [""] + Unjoin(s[2..])
    else
      var rest := Unjoin(s[1..]);
      [[s[0]] + rest[0]] + rest[1..]
  }

  /** No element contains a comma (true of every CSS3 colour name). */
  predicate CommaFree(xs: seq<string>)
  {
    forall i :: 0 <= i < |xs| ==> ',' !in xs[i]
  }

  lemma {:induction false} UnjoinSingle(x: string)
    requires ',' !in x
    ensures Unjoin(x) == [x]
    decreases |x|
  {
    if |x| >= 2 {
      assert x[0] != ',';
      UnjoinSingle(x[1..]);
      assert [x[0]] + x[1..] == x;
    }
  }

  lemma {:induction false} UnjoinCons(x: string, t: string)
    requires ',' !in x
    ensures Unjoin(x + ListSeparator + t) == [x] + Unjoin(t)
    decreases |x|
  {
    var s := x + ListSeparator + t;
    if |x| == 0 {
      assert s[..2] == ListSeparator;
      assert s[2..] == t;
    } else {
      assert s[0] == x[0] != ',';
      assert s[1..] == x[1..] + ListSeparator + t;
      UnjoinCons(x[1..], t);
      assert [x[0]] + x[1..] == x;
    }
  }

  /** Joining comma-free names with ", " loses nothing: Unjoin recovers them. */
  lemma {:induction false} UnjoinJoin(xs: seq<string>)
    requires |xs| > 0 && CommaFree(xs)
    ensures Unjoin(Join(xs, ListSeparator)) == xs
    decreases |xs|
  {
    if |xs| == 1 {
      UnjoinSingle(xs[0]);
    } else {
      assert CommaFree(xs[1..]) by {
        forall i | 0 <= i < |xs| - 1 ensures ',' !in xs[1..][i] {
          assert xs[1..][i] == xs[i + 1];
        }
      }
      UnjoinJoin(xs[1..]);
      UnjoinCons(xs[0], Join(xs[1..], ListSeparator));
      assert [xs[0]] + xs[1..] == xs;
    }
  }

  /** Python's str.isspace on ASCII: tab, line feed, vertical tab, form feed,
      carriage return, the four information separators and the space. */
  predicate IsSpace(c: char)
  {
    c == ' ' || ('\t' <= c <= '\r') || ('\U{1C}' <= c <= '\U{1F}')
  }

  /** `s` without its leading whitespace. */
  function TrimStart(s: string): (r: string)
    ensures |r| <= |s| && r == s[|s| - |r|..]
    ensures forall i :: 0 <= i < |s| - |r| ==> IsSpace(s[i])
    ensures r == [] || !IsSpace(r[0])
    decreases |s|
  {
    if |s| > 0 && IsSpace(s[0]) then TrimStart(s[1..]) else s
  }

  /** `s` without its trailing whitespace. */
  function TrimEnd(s: string): (r: string)
    ensures |r| <= |s| && r == s[..|r|]
    ensures forall i :: |r| <= i < |s| ==> IsSpace(s[i])
    ensures r == [] || !IsSpace(r[|r| - 1])
    decreases |s|
  {
    if |s| > 0 && IsSpace(s[|s| - 1]) then TrimEnd(s[..|s| - 1]) else s
  }

  /** Python's str.strip() with no argument: the longest slice of `s` that
      neither begins nor ends with whitespace, and only whitespace around it. */
  function Strip(s: string): (r: string)
    ensures |r| <= |TrimStart(s)| <= |s|
    ensures var k := |s| - |TrimStart(s)|;
      && r == s[k..k + |r|]
      && (forall i :: 0 <= i < k ==> IsSpace(s[i]))
      && (forall i :: k + |r| <= i < |s| ==> IsSpace(s[i]))
    ensures r == [] || (!IsSpace(r[0]) && !IsSpace(r[|r| - 1]))
  {
    var t := TrimStart(s);
    var r := TrimEnd(t);
    assert r == [] || r[0] == t[0];
    r
  }

  /** A string of whitespace strips to nothing. */
  lemma StripAllSpace(s: string)
    requires forall i :: 0 <= i < |s| ==> IsSpace(s[i])
    ensures Strip(s) == ""
  {
    assert TrimStart(s) == "";
  }

  /** A whitespace character in front of a string makes no difference to Strip. */
  lemma StripSkipsSpace(c: char, t: string)
    requires IsSpace(c)
    ensures Strip([c] + t) == Strip(t)
  {
  }

  /** Stripping twice is stripping once. */
  lemma StripIdempotent(s: string)
    ensures Strip(Strip(s)) == Strip(s)
  {
    var r := Strip(s);
    assert TrimStart(r) == r;
    assert TrimEnd(r) == r;
  }

  function LowerChar(c: char): (d: char)
    ensures !('A' <= d <= 'Z')
    ensures 'A' <= c <= 'Z' ==> d as int == c as int + 32
    ensures d != c ==> 'A' <= c <= 'Z'
  {
    if 'A' <= c <= 'Z' then (c as int + 32) as char else c
  }

  function UpperChar(c: char): (d: char)
    ensures !('a' <= d <= 'z')
    ensures 'a' <= c <= 'z' ==> d as int == c as int - 32
    ensures d != c ==> 'a' <= c <= 'z'
    ensures IsSpace(d) == IsSpace(c)
  {
    if 'a' <= c <= 'z' then (c as int - 32) as char else c
  }

  /** str.lower() restricted to ASCII: same length, no upper-case letter
      left, and only upper-case letters changed. */
  function Lower(s: string): (r: string)
    ensures |r| == |s|
    ensures forall i :: 0 <= i < |r| ==> !('A' <= r[i] <= 'Z')
    ensures forall i :: 0 <= i < |s| ==> r[i] == s[i] || ('A' <= s[i] <= 'Z' && r[i] as int == s[i] as int + 32)
    ensures forall i :: 0 <= i < |s| ==> r[i] == LowerChar(s[i])
  {
    seq(|s|, i requires 0 <= i < |s| => LowerChar(s[i]))
  }
}
