/**
 * The two Python string builtins that `send_message` relies on:
 * `str.split('\n\n')` and `str.strip()` with no argument.
 * Strings are sequences of Unicode scalar values, so `|s|` is Python's `len(s)`.
 */
module PythonStr {

  /** True when `p` contains `'\n\n'` nowhere. */
  predicate NoBreak(p: string) {
    forall k :: 0 <= k < |p| - 1 ==> !(p[k] == '\n' && p[k + 1] == '\n')
  }

  /** `sep.join(ps)` for `sep == '\n\n'`. */
  function Join(ps: seq<string>): string
    requires |ps| >= 1
  {
    if |ps| == 1 then ps[0] else ps[0] + "\n\n" + Join(ps[1..])
  }

  /**
   * `s.split('\n\n')`: the pieces between the leftmost non-overlapping occurrences
   * of the separator. There is at least one piece; the first piece is a prefix of
   * `s` and, when there are more, the separator follows it in `s`.
   * SplitJoin and SplitPieces state the rest.
   */
  function Split(s: string): (r: seq<string>)
    ensures |r| >= 1
    ensures |r[0]| <= |s| && r[0] == s[..|r[0]|]
    ensures |r| > 1 ==> |r[0]| + 2 <= |s| && s[|r[0]|] == '\n' && s[|r[0]| + 1] == '\n'
    decreases |s|
  {
    if |s| < 2 then
      [s]
    else if s[0] == '\n' && s[1] == '\n' then
      [""] + Split(s[2..])
    else
      var rest := Split(s[1..]);
      assert [s[0]] + rest[0] == s[..|rest[0]| + 1] by {
        assert s[..|rest[0]| + 1] == [s[0]] + s[1..][..|rest[0]|];
      }
      [[s[0]] + rest[0]] + rest[1..]
  }

  /** Joining the pieces of `s.split('\n\n')` with `'\n\n'` gives back `s`. */
  lemma {:induction false} SplitJoin(s: string)
    ensures Join(Split(s)) == s
    decreases |s|
  {
    if |s| < 2 {
    } else if s[0] == '\n' && s[1] == '\n' {
      var rest := Split(s[2..]);
      SplitJoin(s[2..]);
      assert ([""] + rest)[1..] == rest;
      assert s == "\n\n" + s[2..];
    } else {
      var rest := Split(s[1..]);
      SplitJoin(s[1..]);
      if |rest| == 1 {
        assert Split(s) == [[s[0]] + rest[0]];
      } else {
        JoinPrepend(s[0], rest);
      }
      assert [s[0]] + s[1..] == s;
    }
  }

  /** Prepending a character to the first of several pieces prepends it to the joined string. */
  lemma JoinPrepend(c: char, ps: seq<string>)
    requires |ps| >= 2
    ensures Join([[c] + ps[0]] + ps[1..]) == [c] + Join(ps)
  {
    var head := [c] + ps[0];
    var qs := [head] + ps[1..];
    var tail := Join(ps[1..]);
    assert qs[1..] == ps[1..];
    assert Join(qs) == head + "\n\n" + tail;
  }

  /**
   * No piece of `s.split('\n\n')` contains the separator, and no piece but the
   * last ends in `'\n'` (or an earlier occurrence would have been split first);
   * with SplitJoin this determines the pieces uniquely.
   */
  lemma {:induction false} SplitPieces(s: string)
    ensures forall k :: 0 <= k < |Split(s)| ==> NoBreak(Split(s)[k])
    ensures forall k :: 0 <= k < |Split(s)| - 1 ==> Split(s)[k] == [] || Split(s)[k][|Split(s)[k]| - 1] != '\n'
    decreases |s|
  {
    if |s| < 2 {
    } else if s[0] == '\n' && s[1] == '\n' {
      var rest := Split(s[2..]);
      SplitPieces(s[2..]);
      assert Split(s) == [""] + rest;
    } else {
      var rest := Split(s[1..]);
      SplitPieces(s[1..]);
      var head := [s[0]] + rest[0];
      var r := [head] + rest[1..];
      assert Split(s) == r;
      assert NoBreak(head) by {
        if |rest[0]| > 0 {
          assert rest[0][0] == s[1];
        }
        forall k | 0 <= k < |head| - 1 ensures !(head[k] == '\n' && head[k + 1] == '\n') {
          if k > 0 {
            assert head[k] == rest[0][k - 1] && head[k + 1] == rest[0][k];
          }
        }
      }
      if |r| > 1 && |rest[0]| == 0 {
        assert s[1] == '\n' && s[2] == '\n';
      }
      forall k | 1 <= k < |r| ensures r[k] == rest[k] { }
    }
  }

  /** The characters for which Python's `str.isspace()` holds, which `str.strip()` removes. */
  const SpaceChars: set<char> := {
    '\t', '\n', '\U{0B}', '\U{0C}', '\r', '\U{1C}', '\U{1D}', '\U{1E}',
    '\U{1F}', ' ', '\U{85}', '\U{A0}', '\U{1680}', '\U{2000}', '\U{2001}', '\U{2002}',
    '\U{2003}', '\U{2004}', '\U{2005}', '\U{2006}', '\U{2007}', '\U{2008}', '\U{2009}', '\U{200A}',
    '\U{2028}', '\U{2029}', '\U{202F}', '\U{205F}', '\U{3000}'
  }

  predicate IsSpace(c: char) {
    c in SpaceChars
  }

  /** True when `s` is empty or only whitespace (Python: `not s.strip()`). */
  predicate Blank(s: string) {
    s == [] || (IsSpace(s[0]) && Blank(s[1..]))
  }

  /** Blank, stated character by character. */
  lemma {:induction false} BlankAll(s: string)
    ensures Blank(s) <==> forall k :: 0 <= k < |s| ==> IsSpace(s[k])
    decreases |s|
  {
    if s != [] {
      BlankAll(s[1..]);
      assert forall k :: 1 <= k < |s| ==> s[k] == s[1..][k - 1];
    }
  }

  /** A blank string followed by more whitespace is blank. */
  lemma BlankAppend(s: string, t: string)
    requires Blank(s) && Blank(t)
    ensures Blank(s + t)
  {
    BlankAll(s);
    BlankAll(t);
    BlankAll(s + t);
  }

  /** `s.lstrip()`: `s` without its leading whitespace. */
  function StripLeading(s: string): string
    decreases |s|
  {
    if s != [] && IsSpace(s[0]) then StripLeading(s[1..]) else s
  }

  /** `s.rstrip()`: `s` without its trailing whitespace. */
  function StripTrailing(s: string): string
    decreases |s|
  {
    if s != [] && IsSpace(s[|s| - 1]) then StripTrailing(s[..|s| - 1]) else s
  }

  /** `s.strip()`: `s` without its leading and trailing whitespace. */
  function Strip(s: string): string {
    StripTrailing(StripLeading(s))
  }

  /** `lstrip` keeps the longest suffix that does not start with whitespace. */
  lemma {:induction false} StripLeadingCuts(s: string)
    ensures var r := StripLeading(s);
      |r| <= |s| && r == s[|s| - |r|..] && Blank(s[..|s| - |r|]) && (r != [] ==> !IsSpace(r[0]))
    decreases |s|
  {
    var r := StripLeading(s);
    if s != [] && IsSpace(s[0]) {
      assert r == StripLeading(s[1..]);
      StripLeadingCuts(s[1..]);
      var cut := s[..|s| - |r|];
      assert cut[0] == s[0] && cut[1..] == s[1..][..|s| - 1 - |r|];
    } else {
      assert r == s;
      assert s[..0] == [];
    }
  }

  /** `rstrip` keeps the longest prefix that does not end with whitespace. */
  lemma {:induction false} StripTrailingCuts(s: string)
    ensures var r := StripTrailing(s);
      |r| <= |s| && r == s[..|r|] && Blank(s[|r|..]) && (r != [] ==> !IsSpace(r[|r| - 1]))
    decreases |s|
  {
    var r := StripTrailing(s);
    if s != [] && IsSpace(s[|s| - 1]) {
      assert r == StripTrailing(s[..|s| - 1]);
      StripTrailingCuts(s[..|s| - 1]);
      assert s[|r|..] == s[..|s| - 1][|r|..] + [s[|s| - 1]];
      assert Blank([s[|s| - 1]]);
      BlankAppend(s[..|s| - 1][|r|..], [s[|s| - 1]]);
    } else {
      assert r == s;
      assert s[|s|..] == [];
    }
  }

  /** `strip` keeps a middle part of `s`, cutting a blank prefix and a blank suffix. */
  lemma StripCuts(s: string)
    ensures var r := Strip(s);
      && |r| <= |s|
      && exists i :: 0 <= i <= |s| - |r| && r == s[i..i + |r|] && Blank(s[..i]) && Blank(s[i + |r|..])
  {
    var l := StripLeading(s);
    var r := StripTrailing(l);
    StripLeadingCuts(s);
    StripTrailingCuts(l);
    var i := |s| - |l|;
    assert r == s[i..i + |r|];
    assert s[i + |r|..] == l[|r|..];
  }

  /**
   * What `strip` keeps neither starts nor ends with whitespace, and it is empty
   * exactly when `s` is blank.
   */
  lemma StripEmptyIffBlank(s: string)
    ensures var r := Strip(s);
      && (r == [] <==> Blank(s))
      && (r != [] ==> !IsSpace(r[0]) && !IsSpace(r[|r| - 1]))
  {
    var l := StripLeading(s);
    var r := StripTrailing(l);
    StripLeadingCuts(s);
    StripTrailingCuts(l);
    if l == [] {
      assert s[..|s|] == s;
    } else {
      assert r != [] by {
        assert l[..0] == [];
      }
      BlankAll(s);
      assert s[|s| - |l|] == l[0];
    }
  }
}
