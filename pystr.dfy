/** The slice of Python's `str` and `list` semantics the scripts rely on:
    the `in` operator on strings, `str.split(sep)` with an explicit
    separator (which keeps empty fields), `str.strip()` with no argument,
    `startswith`/`endswith`, list indexing (negative indices count from the
    end) and the slice `[:-1]`. Strings are sequences of code points. */
module PyStr {
  import opened Wrappers

  // ---------------------------------------------------------------------
  // `sub in s`
  // ---------------------------------------------------------------------

  /** Python's `sub in s`: `sub` occurs somewhere in `s` (the empty string
      occurs everywhere). Only the answer is modelled, not CPython's search
      algorithm. */
  predicate Contains(s: string, sub: string)
    decreases |s|
  {
    |sub| <= |s| && (s[..|sub|] == sub || Contains(s[1..], sub))
  }

  /** `sub` occurs in `s` starting at position `i`. */
  predicate OccursAt(s: string, sub: string, i: nat)
  {
    i + |sub| <= |s| && s[i..i + |sub|] == sub
  }

  /** An occurrence at position `i` makes `sub in s` true. */
  lemma {:induction false} ContainsAt(s: string, sub: string, i: nat)
    requires OccursAt(s, sub, i)
    ensures Contains(s, sub)
    decreases i
  {
    if i > 0 {
      assert s[1..][i - 1..i - 1 + |sub|] == s[i..i + |sub|];
      ContainsAt(s[1..], sub, i - 1);
    } else {
      assert s[..|sub|] == s[i..i + |sub|];
    }
  }

  /** `sub in s` holds exactly when some window of `s` equals `sub`. */
  lemma {:induction false} ContainsIff(s: string, sub: string)
    ensures Contains(s, sub) <==> exists i: nat :: OccursAt(s, sub, i)
    decreases |s|
  {
    if exists i: nat :: OccursAt(s, sub, i) {
      var i: nat :| OccursAt(s, sub, i);
      ContainsAt(s, sub, i);
    }
    if Contains(s, sub) {
      if s[..|sub|] == sub {
        assert OccursAt(s, sub, 0);
      } else {
        ContainsIff(s[1..], sub);
        var i: nat :| OccursAt(s[1..], sub, i);
        assert s[i + 1..i + 1 + |sub|] == s[1..][i..i + |sub|];
        assert OccursAt(s, sub, i + 1);
      }
    }
  }

  /** Every character of an occurring `sub` is a character of `s`; used to
      refute `sub in s` by exhibiting a character of `sub` that `s` lacks. */
  lemma ContainsNeedsChar(s: string, sub: string, k: nat)
    requires Contains(s, sub) && k < |sub|
    ensures exists j :: 0 <= j < |s| && s[j] == sub[k]
  {
    ContainsIff(s, sub);
    var i: nat :| OccursAt(s, sub, i);
    assert s[i + k] == s[i..i + |sub|][k];
  }

  /** `sub in s` survives putting text on either side of `s`. */
  lemma ContainsInContext(a: string, s: string, b: string, sub: string)
    requires Contains(s, sub)
    ensures Contains(a + s + b, sub)
  {
    ContainsIff(s, sub);
    var i: nat :| OccursAt(s, sub, i);
    assert (a + s + b)[|a| + i..|a| + i + |sub|] == s[i..i + |sub|];
    ContainsAt(a + s + b, sub, |a| + i);
  }

  /** Every string contains itself. */
  lemma ContainsSelf(s: string)
    ensures Contains(s, s)
  {
    assert s[..|s|] == s;
  }

  // ---------------------------------------------------------------------
  // str.split(sep) and its inverse, sep.join(parts)
  // ---------------------------------------------------------------------

  /** Python's `s.split(sep)` for a non-empty separator: cut at every
      occurrence of `sep`, found left to right without overlap; empty
      fields are kept, so the result always has at least one field. */
  function Split(s: string, sep: string): (r: seq<string>)
    requires |sep| > 0
    ensures |r| >= 1
    decreases |s|
  {
    if |s| < |sep| then [s]
    else if s[..|sep|] == sep then [""] + Split(s[|sep|..], sep)
    else PrependToFirst(s[0], Split(s[1..], sep))
  }

  /** Puts character `c` in front of the first field. */
  function PrependToFirst(c: char, fields: seq<string>): (r: seq<string>)
    requires |fields| >= 1
    ensures |r| == |fields|
  {
    [[c] + fields[0]] + fields[1..]
  }

  /** Python's `sep.join(parts)`. */
  function Join(parts: seq<string>, sep: string): string
    requires |parts| >= 1
    decreases |parts|
  {
    if |parts| == 1 then parts[0] else parts[0] + sep + Join(parts[1..], sep)
  }

  /** Splitting loses nothing: joining the fields back with the separator
      gives the original string. */
  lemma {:induction false} SplitJoin(s: string, sep: string)
    requires |sep| > 0
    ensures Join(Split(s, sep), sep) == s
    decreases |s|
  {
    if |s| < |sep| {
    } else if s[..|sep|] == sep {
      SplitJoin(s[|sep|..], sep);
      assert Split(s, sep) == [""] + Split(s[|sep|..], sep);
      JoinEmptyFirst(Split(s[|sep|..], sep), sep);
      assert s == sep + s[|sep|..];
    } else {
      SplitJoin(s[1..], sep);
      assert Split(s, sep) == PrependToFirst(s[0], Split(s[1..], sep));
      JoinPrepend(s[0], Split(s[1..], sep), sep);
      assert s == [s[0]] + s[1..];
    }
  }

  lemma JoinEmptyFirst(fields: seq<string>, sep: string)
    requires |fields| >= 1
    ensures Join([""] + fields, sep) == sep + Join(fields, sep)
  {
    assert ([""] + fields)[1..] == fields;
  }

  lemma JoinPrepend(c: char, fields: seq<string>, sep: string)
    requires |fields| >= 1
    ensures Join(PrependToFirst(c, fields), sep) == [c] + Join(fields, sep)
  {
    var r := PrependToFirst(c, fields);
    if |fields| > 1 {
      assert r[1..] == fields[1..];
    }
  }

  /** The first field of a split is a prefix of the string. */
  lemma {:induction false} SplitFirstIsPrefix(s: string, sep: string)
    requires |sep| > 0
    ensures |Split(s, sep)[0]| <= |s| && Split(s, sep)[0] == s[..|Split(s, sep)[0]|]
    decreases |s|
  {
    if |s| < |sep| {
    } else if s[..|sep|] == sep {
      assert Split(s, sep)[0] == "";
    } else {
      var rest := Split(s[1..], sep);
      SplitFirstIsPrefix(s[1..], sep);
      assert Split(s, sep) == PrependToFirst(s[0], rest);
      assert Split(s, sep)[0] == [s[0]] + rest[0];
      assert [s[0]] + s[1..][..|rest[0]|] == s[..1 + |rest[0]|];
    }
  }

  /** No field of a split contains the separator. */
  lemma {:induction false} SplitFieldsFree(s: string, sep: string)
    requires |sep| > 0
    ensures forall k :: 0 <= k < |Split(s, sep)| ==> !Contains(Split(s, sep)[k], sep)
    decreases |s|
  {
    var r := Split(s, sep);
    if |s| < |sep| {
    } else if s[..|sep|] == sep {
      var rest := Split(s[|sep|..], sep);
      SplitFieldsFree(s[|sep|..], sep);
      assert r == [""] + rest;
      assert !Contains("", sep);
    } else {
      var rest := Split(s[1..], sep);
      SplitFieldsFree(s[1..], sep);
      assert r == PrependToFirst(s[0], rest);
      FirstFieldFree(s, sep);
    }
  }

  /** When `s` does not start with `sep`, the first field of its split
      (one character longer than the first field of `s[1..]`) is free of it. */
  lemma FirstFieldFree(s: string, sep: string)
    requires |sep| > 0 && |sep| <= |s| && s[..|sep|] != sep
    requires !Contains(Split(s[1..], sep)[0], sep)
    ensures !Contains([s[0]] + Split(s[1..], sep)[0], sep)
  {
    var g := Split(s[1..], sep)[0];
    SplitFirstIsPrefix(s[1..], sep);
    PrefixPrepend(s, g, sep);
  }

  lemma PrefixPrepend(s: string, g: string, sep: string)
    requires |sep| > 0 && |sep| <= |s| && s[..|sep|] != sep
    requires |g| < |s| && g == s[1..][..|g|]
    requires !Contains(g, sep)
    ensures !Contains([s[0]] + g, sep)
  {
    var f := [s[0]] + g;
    assert f[1..] == g;
    if |sep| <= |f| {
      forall k | 0 <= k < |sep| ensures f[k] == s[k] {
        if k > 0 {
          assert f[k] == g[k - 1] == s[1..][k - 1];
        }
      }
      assert f[..|sep|] == s[..|sep|];
    }
  }

  /** A split yields a single field exactly when the separator does not
      occur; that field is then the whole string. */
  lemma {:induction false} SplitSingle(s: string, sep: string)
    requires |sep| > 0
    ensures |Split(s, sep)| == 1 <==> !Contains(s, sep)
    ensures !Contains(s, sep) ==> Split(s, sep) == [s]
    decreases |s|
  {
    if |s| < |sep| {
    } else if s[..|sep|] == sep {
    } else {
      SplitSingle(s[1..], sep);
      assert s == [s[0]] + s[1..];
    }
  }

  /** Splitting `a + sep + b` cuts exactly after `a`, provided no
      occurrence of `sep` starts inside `a` (that is, none lies within `a`
      followed by all but the last character of `sep`). */
  lemma {:induction false} SplitConcat(a: string, sep: string, b: string)
    requires |sep| > 0
    requires !Contains(a + sep[..|sep| - 1], sep)
    ensures Split(a + sep + b, sep) == [a] + Split(b, sep)
    decreases |a|
  {
    var s := a + sep + b;
    if |a| == 0 {
      assert s == sep + b;
      assert s[..|sep|] == sep;
      assert s[|sep|..] == b;
    } else {
      ConcatNoLeadingSep(a, sep, b);
      SplitConcat(a[1..], sep, b);
      assert Split(s, sep) == PrependToFirst(a[0], [a[1..]] + Split(b, sep));
      assert a == [a[0]] + a[1..];
    }
  }

  /** The step of SplitConcat: a non-empty `a` free of `sep` means `a + sep + b`
      does not start with `sep`, and the rest is shaped alike. */
  lemma ConcatNoLeadingSep(a: string, sep: string, b: string)
    requires |sep| > 0 && |a| > 0
    requires !Contains(a + sep[..|sep| - 1], sep)
    ensures (a + sep + b)[..|sep|] != sep
    ensures (a + sep + b)[1..] == a[1..] + sep + b
    ensures !Contains(a[1..] + sep[..|sep| - 1], sep)
  {
    var s := a + sep + b;
    var t := a + sep[..|sep| - 1];
    assert t[..|sep|] == s[..|sep|];
    assert t[1..] == a[1..] + sep[..|sep| - 1];
  }

  /** Splitting on a single character: the cut lands after `a` whenever
      `a` does not contain that character. */
  lemma SplitAtChar(a: string, c: char, b: string)
    requires forall i :: 0 <= i < |a| ==> a[i] != c
    ensures Split(a + [c] + b, [c]) == [a] + Split(b, [c])
  {
    assert a + [c][..0] == a;
    if Contains(a, [c]) {
      ContainsNeedsChar(a, [c], 0);
    }
    SplitConcat(a, [c], b);
  }

  /** A string without character `c` does not contain `c`. */
  lemma CharFree(s: string, c: char)
    requires forall i :: 0 <= i < |s| ==> s[i] != c
    ensures !Contains(s, [c])
  {
    if Contains(s, [c]) {
      ContainsNeedsChar(s, [c], 0);
    }
  }

  /** Splitting at a single character undoes joining fields that do not
      hold it. */
  lemma {:induction false} SplitJoinChar(fields: seq<string>, c: char)
    requires |fields| >= 1
    requires forall k, i :: 0 <= k < |fields| && 0 <= i < |fields[k]| ==> fields[k][i] != c
    ensures Split(Join(fields, [c]), [c]) == fields
    decreases |fields|
  {
    if |fields| == 1 {
      CharFree(fields[0], c);
      SplitSingle(fields[0], [c]);
    } else {
      SplitJoinChar(fields[1..], c);
      SplitAtChar(fields[0], c, Join(fields[1..], [c]));
      assert [fields[0]] + fields[1..] == fields;
    }
  }

  // ---------------------------------------------------------------------
  // str.strip()
  // ---------------------------------------------------------------------

  /** Python's `str.isspace()` on one code point: exactly the 29 code
      points Python treats as whitespace. */
  predicate IsSpace(c: char)
  {
    ('\U{9}' <= c <= '\U{D}') || ('\U{1C}' <= c <= '\U{20}') ||
    c == '\U{85}' || c == '\U{A0}' || c == '\U{1680}' ||
    ('\U{2000}' <= c <= '\U{200A}') || c == '\U{2028}' || c == '\U{2029}' ||
    c == '\U{202F}' || c == '\U{205F}' || c == '\U{3000}'
  }

  predicate AllSpace(s: string)
  {
    forall i :: 0 <= i < |s| ==> IsSpace(s[i])
  }

  /** Neither end of `s` is whitespace (vacuous for the empty string). */
  predicate Trimmed(s: string)
  {
    s == [] || (!IsSpace(s[0]) && !IsSpace(s[|s| - 1]))
  }

  /** `s.lstrip()`: the suffix left after removing leading whitespace. */
  function StripLeft(s: string): string
    decreases |s|
  {
    if |s| > 0 && IsSpace(s[0]) then StripLeft(s[1..]) else s
  }

  /** `s.rstrip()`: the prefix left after removing trailing whitespace. */
  function StripRight(s: string): string
    decreases |s|
  {
    if |s| > 0 && IsSpace(s[|s| - 1]) then StripRight(s[..|s| - 1]) else s
  }

  /** `lstrip()` removes exactly the leading whitespace: what it drops is
      whitespace and what it keeps does not start with whitespace. */
  lemma {:induction false} StripLeftSpec(s: string)
    ensures |StripLeft(s)| <= |s| && StripLeft(s) == s[|s| - |StripLeft(s)|..]
    ensures AllSpace(s[..|s| - |StripLeft(s)|])
    ensures StripLeft(s) == [] || !IsSpace(StripLeft(s)[0])
    decreases |s|
  {
    if |s| > 0 && IsSpace(s[0]) {
      StripLeftSpec(s[1..]);
      var r := StripLeft(s[1..]);
      assert s[1..][|s| - 1 - |r|..] == s[|s| - |r|..];
    }
  }

  /** `rstrip()` removes exactly the trailing whitespace. */
  lemma {:induction false} StripRightSpec(s: string)
    ensures |StripRight(s)| <= |s| && StripRight(s) == s[..|StripRight(s)|]
    ensures AllSpace(s[|StripRight(s)|..])
    ensures StripRight(s) == [] || !IsSpace(StripRight(s)[|StripRight(s)| - 1])
    decreases |s|
  {
    if |s| > 0 && IsSpace(s[|s| - 1]) {
      StripRightSpec(s[..|s| - 1]);
      var r := StripRight(s[..|s| - 1]);
      assert s[..|s| - 1][..|r|] == s[..|r|];
      assert forall i :: 0 <= i < |s| - 1 - |r| ==> s[|r|..][i] == s[..|s| - 1][|r|..][i];
    }
  }

  /** `s.strip()`: whitespace removed from both ends. */
  function Strip(s: string): string
  {
    StripRight(StripLeft(s))
  }

  /** `strip()` returns a slice of its input with whitespace on either side
      of it and none at its own ends. */
  lemma StripSpec(s: string)
    ensures exists i, j :: 0 <= i <= j <= |s| && Strip(s) == s[i..j] && AllSpace(s[..i]) && AllSpace(s[j..])
    ensures Trimmed(Strip(s))
  {
    var l := StripLeft(s);
    var r := StripRight(l);
    StripLeftSpec(s);
    StripRightSpec(l);
    var i := |s| - |l|;
    var j := i + |r|;
    assert s[i..j] == l[..|r|];
    assert s[j..] == l[|r|..];
    if r != [] {
      assert r[0] == l[0];
    }
  }

  /** Text that already has no whitespace at its ends is its own strip. */
  lemma StripTrimmed(s: string)
    requires Trimmed(s)
    ensures Strip(s) == s
  {
  }

  /** Padding a trimmed string with whitespace on both sides is undone by
      `strip()`. */
  lemma {:induction false} StripPadded(a: string, t: string, b: string)
    requires AllSpace(a) && AllSpace(b) && Trimmed(t) && t != []
    ensures Strip(a + t + b) == t
  {
    StripLeftPadded(a, t + b);
    assert a + t + b == a + (t + b);
    StripRightPadded(t, b);
  }

  lemma {:induction false} StripLeftPadded(a: string, u: string)
    requires AllSpace(a) && u != [] && !IsSpace(u[0])
    ensures StripLeft(a + u) == u
    decreases |a|
  {
    if a != [] {
      assert (a + u)[1..] == a[1..] + u;
      StripLeftPadded(a[1..], u);
    }
  }

  lemma {:induction false} StripRightPadded(u: string, b: string)
    requires AllSpace(b) && u != [] && !IsSpace(u[|u| - 1])
    ensures StripRight(u + b) == u
    decreases |b|
  {
    if b != [] {
      assert (u + b)[..|u + b| - 1] == u + b[..|b| - 1];
      StripRightPadded(u, b[..|b| - 1]);
    }
  }

  /** Stripping twice is stripping once. */
  lemma StripIdempotent(s: string)
    ensures Strip(Strip(s)) == Strip(s)
  {
    StripSpec(s);
    StripTrimmed(Strip(s));
  }

  // ---------------------------------------------------------------------
  // startswith / endswith, list indexing, [:-1]
  // ---------------------------------------------------------------------

  predicate StartsWith(s: string, prefix: string)
  {
    |prefix| <= |s| && s[..|prefix|] == prefix
  }

  predicate EndsWith(s: string, suffix: string)
  {
    |suffix| <= |s| && s[|s| - |suffix|..] == suffix
  }

  /** Python's `xs[k]`: a negative `k` counts from the end; an index out of
      range raises IndexError. */
  function At<T>(xs: seq<T>, k: int): Result<T, PyError>
  {
    if 0 <= k < |xs| then Ok(xs[k])
    else if -|xs| <= k < 0 then Ok(xs[|xs| + k])
    else Err(IndexError)
  }

  /** Python's `s[:-1]`: everything but the last character; the empty
      string stays empty. */
  function DropLast(s: string): string
  {
    if |s| == 0 then s else s[..|s| - 1]
  }
}
