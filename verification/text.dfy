/** The .NET string and path primitives the request classifier is built on:
    `String.Split(char)`, `String.Join(string, IEnumerable<string>)` and
    `PathString.StartsWithSegments`, which compares ordinally ignoring case. */
module Text {

  /** `s.Split(sep)`: the pieces between separators, in order. There is always
      at least one piece, and empty pieces are kept. */
  function Split(s: string, sep: char): (r: seq<string>)
    ensures |r| >= 1
    decreases |s|
  {
    if s == [] then [""]
    else
      var rest := Split(s[1..], sep);
      if s[0] == sep then [""] + rest
      else [[s[0]] + rest[0]] + rest[1..]
  }

  /** `string.Join(sep, parts)`: the parts with `sep` between neighbours. */
  function Join(parts: seq<string>, sep: string): string
  {
    if |parts| == 0 then ""
    else if |parts| == 1 then parts[0]
    else parts[0] + sep + Join(parts[1..], sep)
  }

  /** No piece produced by `Split` contains the separator. */
  lemma {:induction false} SplitPiecesFree(s: string, sep: char)
    ensures forall i :: 0 <= i < |Split(s, sep)| ==> sep !in Split(s, sep)[i]
    decreases |s|
  {
    if s != [] {
      SplitPiecesFree(s[1..], sep);
      var rest := Split(s[1..], sep);
      if s[0] != sep {
        assert sep !in rest[0];
        assert Split(s, sep) == [[s[0]] + rest[0]] + rest[1..];
        forall i | 0 <= i < |Split(s, sep)| ensures sep !in Split(s, sep)[i] {
          if i > 0 { assert Split(s, sep)[i] == rest[i]; }
        }
      }
    }
  }

  /** Joining the pieces of a split with the separator gives the string back. */
  lemma {:induction false} JoinSplit(s: string, sep: char)
    ensures Join(Split(s, sep), [sep]) == s
    decreases |s|
  {
    if s != [] {
      JoinSplit(s[1..], sep);
      var rest := Split(s[1..], sep);
      if s[0] == sep {
        assert Split(s, sep) == [""] + rest;
        assert ([""] + rest)[1..] == rest;
        assert s == [sep] + s[1..];
      } else {
        var r := Split(s, sep);
        assert r == [[s[0]] + rest[0]] + rest[1..];
        if |rest| == 1 {
          assert Join(rest, [sep]) == rest[0];
        } else {
          assert r[1..] == rest[1..];
          assert Join(rest, [sep]) == rest[0] + [sep] + Join(rest[1..], [sep]);
        }
        assert s == [s[0]] + s[1..];
      }
    }
  }

  /** A string without the separator splits into itself alone. */
  lemma {:induction false} SplitNoSeparator(t: string, sep: char)
    requires sep !in t
    ensures Split(t, sep) == [t]
    decreases |t|
  {
    if t != [] {
      SplitNoSeparator(t[1..], sep);
      assert t == [t[0]] + t[1..];
    }
  }

  /** A separator-free piece followed by a separator splits off as the first piece. */
  lemma {:induction false} SplitCons(t: string, sep: char, u: string)
    requires sep !in t
    ensures Split(t + [sep] + u, sep) == [t] + Split(u, sep)
    decreases |t|
  {
    if t == [] {
      assert t + [sep] + u == [sep] + u;
      assert ([sep] + u)[1..] == u;
    } else {
      var s := t + [sep] + u;
      assert s[0] == t[0] && s[1..] == t[1..] + [sep] + u;
      SplitCons(t[1..], sep, u);
      assert t == [t[0]] + t[1..];
    }
  }

  /** The first piece of `t + u` is `t` when `t` has no separator and `u` is
      empty or starts with one. */
  lemma {:induction false} SplitHead(t: string, sep: char, u: string)
    requires sep !in t
    requires u == [] || u[0] == sep
    ensures Split(t + u, sep)[0] == t
  {
    if u == [] {
      assert t + u == t;
      SplitNoSeparator(t, sep);
    } else {
      assert t + u == t + [sep] + u[1..];
      SplitCons(t, sep, u[1..]);
    }
  }

  /** The first piece of a split is the prefix of the string up to the first
      separator (or the whole string when it has none). */
  lemma {:induction false} SplitHeadIsPrefix(s: string, sep: char)
    ensures var h := Split(s, sep)[0];
      && |h| <= |s| && s[..|h|] == h && sep !in h
      && (|h| == |s| || s[|h|] == sep)
    decreases |s|
  {
    if s != [] {
      SplitHeadIsPrefix(s[1..], sep);
      var rest := Split(s[1..], sep);
      if s[0] != sep {
        var h := Split(s, sep)[0];
        assert h == [s[0]] + rest[0];
        assert s[1..][..|rest[0]|] == rest[0];
        assert s[..|h|] == [s[0]] + s[1..][..|rest[0]|];
      }
    }
  }

  /** Splitting a join of separator-free pieces gives the pieces back. */
  lemma {:induction false} SplitJoin(parts: seq<string>, sep: char)
    requires |parts| >= 1
    requires forall i :: 0 <= i < |parts| ==> sep !in parts[i]
    ensures Split(Join(parts, [sep]), sep) == parts
    decreases |parts|
  {
    if |parts| == 1 {
      SplitNoSeparator(parts[0], sep);
    } else {
      SplitJoin(parts[1..], sep);
      SplitCons(parts[0], sep, Join(parts[1..], [sep]));
      assert parts == [parts[0]] + parts[1..];
    }
  }

  /** ASCII upper-casing, the only case folding this model performs. */
  function ToUpperAscii(c: char): char
  {
    if 'a' <= c <= 'z' then (c as int - 32) as char else c
  }

  /** Ordinal comparison ignoring (ASCII) case. */
  predicate EqualsIgnoreCase(a: string, b: string)
  {
    |a| == |b| && forall i :: 0 <= i < |a| ==> ToUpperAscii(a[i]) == ToUpperAscii(b[i])
  }

  /** `PathString.StartsWithSegments(segment)`: the path starts with `segment`
      (ignoring case) and the match ends at the end of the path or at a '/'. */
  predicate StartsWithSegments(path: string, segment: string)
  {
    && |segment| <= |path|
    && EqualsIgnoreCase(path[..|segment|], segment)
    && (|path| == |segment| || path[|segment|] == '/')
  }

  /** The `remaining` out-value of `StartsWithSegments`: what follows the
      matched segment, or the empty path when there is no match. */
  function RemainingSegments(path: string, segment: string): (rest: string)
    ensures StartsWithSegments(path, segment) ==> path == path[..|segment|] + rest
    ensures !StartsWithSegments(path, segment) ==> rest == ""
    ensures rest == [] || rest[0] == '/'
  {
    if StartsWithSegments(path, segment) then path[|segment|..] else ""
  }
}
