/** The JavaScript string operations the gates and the search rely on:
    `startsWith`, `includes` and `split` on a one-character separator. */
module Strings {

  /** `s.startsWith(prefix)`. */
  predicate StartsWith(s: string, prefix: string)
  {
    |prefix| <= |s| && s[..|prefix|] == prefix
  }

  /** `s.includes(t)`: `t` occurs in `s` at some position. */
  predicate Includes(s: string, t: string)
    decreases |s|
  {
    StartsWith(s, t) || (s != [] && Includes(s[1..], t))
  }

  /** `Includes` holds exactly when `t` occurs at some offset of `s`. */
  lemma IncludesAt(s: string, t: string)
    ensures Includes(s, t) <==> exists i :: 0 <= i <= |s| - |t| && s[i..][..|t|] == t
  {
    if Includes(s, t) {
      var i := OffsetOf(s, t);
    }
    if exists i :: 0 <= i <= |s| - |t| && s[i..][..|t|] == t {
      var i :| 0 <= i <= |s| - |t| && s[i..][..|t|] == t;
      IncludesFrom(s, t, i);
    }
  }

  /** An occurrence `Includes` finds, as an offset. */
  lemma {:induction false} OffsetOf(s: string, t: string) returns (i: nat)
    requires Includes(s, t)
    ensures i <= |s| - |t| && s[i..][..|t|] == t
    decreases |s|
  {
    if StartsWith(s, t) {
      i := 0;
      assert s[0..] == s;
    } else {
      var j := OffsetOf(s[1..], t);
      i := j + 1;
      assert s[1..][j..] == s[i..];
    }
  }

  /** An occurrence at an offset is found by `Includes`. */
  lemma {:induction false} IncludesFrom(s: string, t: string, i: nat)
    requires i <= |s| - |t| && s[i..][..|t|] == t
    ensures Includes(s, t)
    decreases i
  {
    if i == 0 {
      assert s[0..] == s;
    } else {
      assert s[1..][i - 1..] == s[i..];
      IncludesFrom(s[1..], t, i - 1);
    }
  }

  /** `s.split(sep)` for a one-character separator: the maximal pieces
      between separators, at least one, none containing the separator. */
  function Split(s: string, sep: char): (pieces: seq<string>)
    ensures |pieces| >= 1
    ensures forall i :: 0 <= i < |pieces| ==> sep !in pieces[i]
    ensures sep in s <==> |pieces| >= 2
    decreases |s|
  {
    if s == [] then [""]
    else
      var rest := Split(s[1..], sep);
      if s[0] == sep then [""] + rest
      else [[s[0]] + rest[0]] + rest[1..]
  }

  /** `pieces.join(sep)`. */
  function Join(pieces: seq<string>, sep: char): string
    requires |pieces| >= 1
    decreases |pieces|
  {
    if |pieces| == 1 then pieces[0]
    else pieces[0] + [sep] + Join(pieces[1..], sep)
  }

  /** Joining after growing the first piece by one character grows the
      joined string by that character. */
  lemma JoinGrowFirst(c: char, pieces: seq<string>, sep: char)
    requires |pieces| >= 1
    ensures Join([[c] + pieces[0]] + pieces[1..], sep) == [c] + Join(pieces, sep)
  {
    var grown := [[c] + pieces[0]] + pieces[1..];
    if |pieces| > 1 {
      assert grown[1..] == pieces[1..];
    }
  }

  /** Splitting loses nothing: joining the pieces gives back the string. */
  lemma {:induction false} JoinSplit(s: string, sep: char)
    ensures Join(Split(s, sep), sep) == s
    decreases |s|
  {
    if s != [] {
      var rest := Split(s[1..], sep);
      JoinSplit(s[1..], sep);
      assert s == [s[0]] + s[1..];
      if s[0] == sep {
        var pieces := [""] + rest;
        assert pieces[1..] == rest;
      } else {
        JoinGrowFirst(s[0], rest, sep);
      }
    }
  }

  /** A string without the separator is a single piece. */
  lemma {:induction false} SplitWithoutSeparator(t: string, sep: char)
    requires sep !in t
    ensures Split(t, sep) == [t]
    decreases |t|
  {
    if t != [] {
      SplitWithoutSeparator(t[1..], sep);
      assert [t[0]] + t[1..] == t;
    }
  }

  /** Everything before the first separator is the first piece; the rest
      splits on its own. */
  lemma {:induction false} SplitAtFirstSeparator(p: string, sep: char, t: string)
    requires sep !in p
    ensures Split(p + [sep] + t, sep) == [p] + Split(t, sep)
    decreases |p|
  {
    var s := p + [sep] + t;
    if p == [] {
      assert s[1..] == t;
    } else {
      assert s[1..] == p[1..] + [sep] + t;
      SplitAtFirstSeparator(p[1..], sep, t);
      assert [p[0]] + p[1..] == p;
    }
  }
}
