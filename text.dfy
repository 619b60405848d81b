/** The string primitives the core relies on: JavaScript's String.prototype.trim and
    String.prototype.split(","), and the inverse of the split. */
module Text {

  /** The characters String.prototype.trim removes: the ECMAScript WhiteSpace and
      LineTerminator code points. */
  const Whitespace: set<char> := {
    ' ', '\t', '\n', '\r', '\U{000B}', '\U{000C}', '\U{00A0}', '\U{FEFF}', '\U{1680}',
    '\U{2000}', '\U{2001}', '\U{2002}', '\U{2003}', '\U{2004}', '\U{2005}', '\U{2006}',
    '\U{2007}', '\U{2008}', '\U{2009}', '\U{200A}',
    '\U{2028}', '\U{2029}', '\U{202F}', '\U{205F}', '\U{3000}'
  }

  predicate IsWhitespace(c: char) {
    c in Whitespace
  }

  predicate AllWhitespace(s: string) {
    forall i :: 0 <= i < |s| ==> IsWhitespace(s[i])
  }

  /** Neither end of `s` is whitespace. */
  predicate IsTrimmed(s: string) {
    s != [] ==> !IsWhitespace(s[0]) && !IsWhitespace(s[|s| - 1])
  }

  /** Drops the leading whitespace. */
  function TrimStart(s: string): string {
    if s != [] && IsWhitespace(s[0]) then TrimStart(s[1..]) else s
  }

  /** Drops the trailing whitespace. */
  function TrimEnd(s: string): string {
    if s != [] && IsWhitespace(s[|s| - 1]) then TrimEnd(s[..|s| - 1]) else s
  }

  /** TrimStart keeps a suffix, drops only whitespace, and stops at the first other character. */
  lemma {:induction false} TrimStartDrops(s: string)
    ensures |TrimStart(s)| <= |s| && TrimStart(s) == s[|s| - |TrimStart(s)|..]
    ensures AllWhitespace(s[..|s| - |TrimStart(s)|])
    ensures TrimStart(s) != [] ==> !IsWhitespace(TrimStart(s)[0])
  {
    if s != [] && IsWhitespace(s[0]) {
      var r := TrimStart(s[1..]);
      TrimStartDrops(s[1..]);
      assert s[1..][|s| - 1 - |r|..] == s[|s| - |r|..];
      assert forall i :: 1 <= i < |s| - |r| ==> s[1..][..|s| - 1 - |r|][i - 1] == s[i];
    }
  }

  /** TrimEnd keeps a prefix, drops only whitespace, and stops at the last other character. */
  lemma {:induction false} TrimEndDrops(s: string)
    ensures |TrimEnd(s)| <= |s| && TrimEnd(s) == s[..|TrimEnd(s)|]
    ensures AllWhitespace(s[|TrimEnd(s)|..])
    ensures TrimEnd(s) != [] ==> !IsWhitespace(TrimEnd(s)[|TrimEnd(s)| - 1])
  {
    if s != [] && IsWhitespace(s[|s| - 1]) {
      var r := TrimEnd(s[..|s| - 1]);
      TrimEndDrops(s[..|s| - 1]);
      assert s[..|s| - 1][..|r|] == s[..|r|];
      assert forall i :: |r| <= i < |s| - 1 ==> s[..|s| - 1][|r|..][i - |r|] == s[i];
    }
  }

  /** String.prototype.trim: `s` without its leading and trailing whitespace. */
  function Trim(s: string): (r: string)
    ensures IsTrimmed(r)
    ensures r == "" <==> AllWhitespace(s)
  {
    var t := TrimStart(s);
    var r := TrimEnd(t);
    TrimStartDrops(s);
    TrimEndDrops(t);
    assert r != [] ==> r[0] == t[0] == s[|s| - |t|];
    assert r == "" ==> AllWhitespace(s) by {
      if r == "" {
        assert t[0..] == t;
        assert t == [];
        assert s[..|s|] == s;
      }
    }
    r
  }

  /** Trim keeps no character that was not in `s`. */
  lemma TrimKeepsChars(s: string, c: char)
    requires c !in s
    ensures c !in Trim(s)
  {
    var t := TrimStart(s);
    var r := TrimEnd(t);
    TrimStartDrops(s);
    TrimEndDrops(t);
    assert forall i :: 0 <= i < |t| ==> t[i] == s[|s| - |t| + i];
    assert forall i :: 0 <= i < |r| ==> r[i] == t[i];
  }

  lemma TrimOfTrimmed(s: string)
    requires IsTrimmed(s)
    ensures Trim(s) == s
  {
  }

  /** Trimming twice is trimming once. */
  lemma TrimIdempotent(s: string)
    ensures Trim(Trim(s)) == Trim(s)
  {
    TrimOfTrimmed(Trim(s));
  }

  /** TrimStart removes exactly the whitespace before the first other character. */
  lemma {:induction false} TrimStartExact(s: string, i: nat)
    requires i <= |s| && AllWhitespace(s[..i])
    requires i < |s| ==> !IsWhitespace(s[i])
    ensures TrimStart(s) == s[i..]
  {
    if i > 0 {
      assert s[..i][0] == s[0];
      assert TrimStart(s) == TrimStart(s[1..]);
      assert s[1..][..i - 1] == s[..i][1..];
      TrimStartExact(s[1..], i - 1);
      assert s[1..][i - 1..] == s[i..];
    }
  }

  /** TrimEnd removes exactly the whitespace after the last other character. */
  lemma {:induction false} TrimEndExact(s: string, j: nat)
    requires j <= |s| && AllWhitespace(s[j..])
    requires j > 0 ==> !IsWhitespace(s[j - 1])
    ensures TrimEnd(s) == s[..j]
  {
    if j < |s| {
      assert s[j..][|s| - 1 - j] == s[|s| - 1];
      assert TrimEnd(s) == TrimEnd(s[..|s| - 1]);
      var t := s[..|s| - 1];
      assert forall k :: 0 <= k < |t| - j ==> t[j..][k] == s[j..][k];
      TrimEndExact(t, j);
      assert t[..j] == s[..j];
    }
  }

  /** Trim is the slice between the leading and the trailing whitespace. */
  lemma TrimExact(s: string, i: nat, j: nat)
    requires i < j <= |s|
    requires AllWhitespace(s[..i]) && AllWhitespace(s[j..])
    requires !IsWhitespace(s[i]) && !IsWhitespace(s[j - 1])
    ensures Trim(s) == s[i..j]
  {
    TrimStartExact(s, i);
    var t := s[i..];
    assert t[j - i..] == s[j..] && t[j - i - 1] == s[j - 1];
    TrimEndExact(t, j - i);
    assert t[..j - i] == s[i..j];
  }

  function Count(s: string, c: char): (n: nat)
    ensures n <= |s|
  {
    if s == [] then 0 else (if s[0] == c then 1 else 0) + Count(s[1..], c)
  }

  /** String.prototype.split(","): the maximal comma-free runs of `s`, in order;
      the empty string splits into one empty segment. */
  function Split(s: string): (parts: seq<string>)
    ensures |parts| == Count(s, ',') + 1
    ensures forall p :: p in parts ==> ',' !in p
  {
    if s == [] then [""]
    else
      var rest := Split(s[1..]);
      if s[0] == ',' then [""] + rest else [[s[0]] + rest[0]] + rest[1..]
  }

  /** Array.prototype.join(","), the inverse of Split. */
  function Join(parts: seq<string>): string
    requires |parts| >= 1
  {
    if |parts| == 1 then parts[0] else parts[0] + "," + Join(parts[1..])
  }

  /** Joining the segments of a split gives back the string. */
  lemma {:induction false} JoinSplit(s: string)
    ensures Join(Split(s)) == s
  {
    if s != [] {
      var rest := Split(s[1..]);
      JoinSplit(s[1..]);
      if s[0] == ',' {
        assert Split(s)[1..] == rest;
        assert s == [','] + s[1..];
      } else {
        assert s == [s[0]] + s[1..];
        if |rest| > 1 {
          assert Split(s)[1..] == rest[1..];
          assert Join(rest) == rest[0] + "," + Join(rest[1..]);
        }
      }
    }
  }

  /** Splitting a string that starts with a comma-free `p`: `p` prefixes the first segment. */
  lemma {:induction false} SplitAfterPrefix(p: string, t: string)
    requires ',' !in p
    ensures Split(p + t) == [p + Split(t)[0]] + Split(t)[1..]
  {
    if p != [] {
      assert (p + t)[1..] == p[1..] + t;
      assert (p + t)[0] == p[0];
      SplitAfterPrefix(p[1..], t);
      assert [p[0]] + (p[1..] + Split(t)[0]) == p + Split(t)[0];
    } else {
      assert p + t == t;
      assert Split(t) == [Split(t)[0]] + Split(t)[1..];
      assert p + Split(t)[0] == Split(t)[0];
    }
  }

  /** Splitting the join of comma-free segments gives back the segments. */
  lemma {:induction false} SplitJoin(parts: seq<string>)
    requires |parts| >= 1
    requires forall p :: p in parts ==> ',' !in p
    ensures Split(Join(parts)) == parts
  {
    if |parts| == 1 {
      SplitAfterPrefix(parts[0], "");
      assert parts[0] + "" == parts[0];
    } else {
      var tail := Join(parts[1..]);
      SplitJoin(parts[1..]);
      assert parts[0] + "," + tail == parts[0] + ("," + tail);
      SplitAfterPrefix(parts[0], "," + tail);
      assert ("," + tail)[1..] == tail;
      assert Split("," + tail) == [""] + parts[1..];
      assert parts[0] + "" == parts[0];
    }
  }
}
