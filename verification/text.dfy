/** The Python string and `posixpath` operations the pipeline code relies on. */
module Text {

  predicate StartsWith(s: string, prefix: string) {
    |prefix| <= |s| && s[..|prefix|] == prefix
  }

  predicate EndsWith(s: string, suffix: string) {
    |suffix| <= |s| && s[|s| - |suffix|..] == suffix
  }

  /** Python's `sub in s`. */
  predicate Contains(s: string, sub: string) {
    exists i :: 0 <= i <= |s| - |sub| && OccursAt(s, sub, i)
  }

  predicate OccursAt(s: string, sub: string, i: int) {
    0 <= i <= |s| - |sub| && s[i..i + |sub|] == sub
  }

  /** `str.isspace()` for one character, as Python's Unicode tables define it. */
  predicate IsSpace(c: char) {
    ('\t' <= c <= '\r') || ('\U{1c}' <= c <= '\U{1f}') || c == ' ' || c == '\U{85}'
    || c == '\U{a0}' || c == '\U{1680}' || ('\U{2000}' <= c <= '\U{200a}')
    || c == '\U{2028}' || c == '\U{2029}' || c == '\U{202f}' || c == '\U{205f}' || c == '\U{3000}'
  }

  /** A character that `\S` matches, i.e. the line "has content". */
  predicate HasContent(s: string) {
    exists i :: 0 <= i < |s| && !IsSpace(s[i])
  }

  function UpperChar(c: char): char {
    if 'a' <= c <= 'z' then (c as int - 32) as char else c
  }

  function LowerChar(c: char): char {
    if 'A' <= c <= 'Z' then (c as int + 32) as char else c
  }

  function Upper(s: string): (r: string)
    ensures |r| == |s| && forall i :: 0 <= i < |s| ==> r[i] == UpperChar(s[i])
  {
    seq(|s|, i requires 0 <= i < |s| => UpperChar(s[i]))
  }

  function Lower(s: string): (r: string)
    ensures |r| == |s| && forall i :: 0 <= i < |s| ==> r[i] == LowerChar(s[i])
  {
    seq(|s|, i requires 0 <= i < |s| => LowerChar(s[i]))
  }

  /** `s.replace(old, new)`: every non-overlapping occurrence, scanning left to right. */
  function Replace(s: string, pat: string, repl: string): string
    requires pat != ""
    decreases |s|
  {
    if |s| < |pat| then s
    else if s[..|pat|] == pat then repl + Replace(s[|pat|..], pat, repl)
    else [s[0]] + Replace(s[1..], pat, repl)
  }

  /** A string without the pattern is left as it is by `Replace`. */
  lemma {:induction false} ReplaceAbsent(s: string, pat: string, repl: string)
    requires pat != "" && !Contains(s, pat)
    ensures Replace(s, pat, repl) == s
  {
    if |s| >= |pat| {
      assert !OccursAt(s, pat, 0);
      if Contains(s[1..], pat) {
        var i :| 0 <= i <= |s[1..]| - |pat| && OccursAt(s[1..], pat, i);
        assert OccursAt(s, pat, i + 1);
      }
      ReplaceAbsent(s[1..], pat, repl);
    }
  }

  /** Removing a single character removes every occurrence of it. */
  lemma {:induction false} RemoveCharGone(s: string, c: char)
    ensures c !in Replace(s, [c], "")
    ensures |Replace(s, [c], "")| <= |s|
  {
    if |s| >= 1 {
      RemoveCharGone(s[1..], c);
    }
  }

  /** Replacing a character by text without it leaves no occurrence of the character. */
  lemma {:induction false} ReplaceCharGone(s: string, c: char, repl: string)
    requires c !in repl
    ensures c !in Replace(s, [c], repl)
  {
    if |s| >= 1 {
      ReplaceCharGone(s[1..], c, repl);
    }
  }

  /** A character found neither in the string nor in the replacement is not in the result. */
  lemma {:induction false} ReplaceKeepsOut(s: string, pat: string, repl: string, c: char)
    requires pat != "" && c !in s && c !in repl
    ensures c !in Replace(s, pat, repl)
    decreases |s|
  {
    if |s| >= |pat| {
      if s[..|pat|] == pat {
        ReplaceKeepsOut(s[|pat|..], pat, repl, c);
      } else {
        ReplaceKeepsOut(s[1..], pat, repl, c);
      }
    }
  }

  /** A string without the character has nothing to replace. */
  lemma ReplaceCharAbsent(s: string, c: char, repl: string)
    requires c !in s
    ensures Replace(s, [c], repl) == s
  {
    forall i | 0 <= i <= |s| - 1
      ensures !OccursAt(s, [c], i)
    {
      assert s[i..i + 1][0] == s[i];
    }
    ReplaceAbsent(s, [c], repl);
  }

  /** A leading part without the character passes through a replacement of it. */
  lemma {:induction false} ReplaceCharPrefix(a: string, c: char, s: string, repl: string)
    requires c !in a
    ensures Replace(a + s, [c], repl) == a + Replace(s, [c], repl)
  {
    if a == [] {
      assert a + s == s;
    } else {
      var t := a + s;
      assert t[0] == a[0] && a[0] != c;
      assert t[..1] != [c];
      assert t[1..] == a[1..] + s;
      ReplaceCharPrefix(a[1..], c, s, repl);
      assert [a[0]] + a[1..] == a;
    }
  }

  /** The character itself is dropped from the front. */
  lemma RemoveCharHead(c: char, b: string)
    ensures Replace([c] + b, [c], "") == Replace(b, [c], "")
  {
    var t := [c] + b;
    assert t[..1] == [c] && t[1..] == b;
  }

  /** Removing the one occurrence of a character joins the two sides. */
  lemma RemoveCharBetween(a: string, c: char, b: string)
    requires c !in a && c !in b
    ensures Replace(a + [c] + b, [c], "") == a + b
  {
    assert a + [c] + b == a + ([c] + b);
    ReplaceCharPrefix(a, c, [c] + b, "");
    RemoveCharHead(c, b);
    ReplaceCharAbsent(b, c, "");
  }

  /** `s.split(sep)` for a one-character separator. */
  function Split(s: string, sep: char): (parts: seq<string>)
    ensures |parts| >= 1
    decreases |s|
  {
    if |s| == 0 then [""]
    else if s[0] == sep then [""] + Split(s[1..], sep)
    else
      var rest := Split(s[1..], sep);
      [[s[0]] + rest[0]] + rest[1..]
  }

  /** `sep.join(parts)`. */
  function Join(parts: seq<string>, sep: string): string
  {
    if |parts| == 0 then ""
    else if |parts| == 1 then parts[0]
    else parts[0] + sep + Join(parts[1..], sep)
  }

  /** No piece of a split holds the separator. */
  lemma {:induction false} SplitPiecesFree(s: string, sep: char)
    ensures forall k :: 0 <= k < |Split(s, sep)| ==> sep !in Split(s, sep)[k]
  {
    if |s| > 0 {
      SplitPiecesFree(s[1..], sep);
    }
  }

  /** Splitting and re-joining with the same separator gives the string back. */
  lemma {:induction false} JoinSplit(s: string, sep: char)
    ensures Join(Split(s, sep), [sep]) == s
  {
    if |s| > 0 {
      var rest := Split(s[1..], sep);
      JoinSplit(s[1..], sep);
      if s[0] == sep {
        assert Split(s, sep) == [""] + rest;
        assert Join([""] + rest, [sep]) == "" + [sep] + Join(rest, [sep]);
        assert s == [s[0]] + s[1..];
      } else {
        var parts := Split(s, sep);
        assert parts[1..] == rest[1..];
        if |rest| == 1 {
          assert Join(parts, [sep]) == [s[0]] + rest[0];
        } else {
          assert Join(parts, [sep]) == [s[0]] + rest[0] + [sep] + Join(rest[1..], [sep]);
        }
        assert s == [s[0]] + s[1..];
      }
    }
  }

  /** Every piece of a split is a string that `sep` does not occur in, so a string without
      the separator splits into itself alone. */
  lemma {:induction false} SplitWithoutSep(s: string, sep: char)
    requires sep !in s
    ensures Split(s, sep) == [s]
  {
    if |s| > 0 {
      assert s == [s[0]] + s[1..];
      SplitWithoutSep(s[1..], sep);
    }
  }

  /** Splitting at the first separator: a separator-free head is split off whole. */
  lemma {:induction false} SplitAfterHead(a: string, sep: char, b: string)
    requires sep !in a
    ensures Split(a + [sep] + b, sep) == [a] + Split(b, sep)
  {
    if |a| == 0 {
      assert a + [sep] + b == [sep] + b;
      assert ([sep] + b)[1..] == b;
    } else {
      assert (a + [sep] + b)[1..] == a[1..] + [sep] + b;
      SplitAfterHead(a[1..], sep, b);
      assert [a[0]] + a[1..] == a;
    }
  }

  /** Joining separator-free pieces and splitting again gives the pieces back. */
  lemma {:induction false} SplitJoin(parts: seq<string>, sep: char)
    requires |parts| >= 1
    requires forall k :: 0 <= k < |parts| ==> sep !in parts[k]
    ensures Split(Join(parts, [sep]), sep) == parts
  {
    if |parts| == 1 {
      SplitWithoutSep(parts[0], sep);
    } else {
      SplitJoin(parts[1..], sep);
      SplitAfterHead(parts[0], sep, Join(parts[1..], [sep]));
      assert parts == [parts[0]] + parts[1..];
    }
  }

  /** Python's `s.strip()`: leading and trailing whitespace removed. */
  function Strip(s: string): (r: string)
    ensures |r| <= |s|
    ensures r == "" || (!IsSpace(r[0]) && !IsSpace(r[|r| - 1]))
  {
    StripEnd(StripStart(s))
  }

  /** No whitespace at either end: what `strip()` leaves. */
  predicate Stripped(s: string) {
    s == "" || (!IsSpace(s[0]) && !IsSpace(s[|s| - 1]))
  }

  /** Stripping a stripped string changes nothing. */
  lemma StripStable(s: string)
    requires Stripped(s)
    ensures Strip(s) == s
  {
    assert StripStart(s) == s;
  }

  function StripStart(s: string): (r: string)
    ensures |r| <= |s| && EndsWith(s, r)
    ensures r == "" || !IsSpace(r[0])
    decreases |s|
  {
    if |s| > 0 && IsSpace(s[0]) then StripStart(s[1..]) else s
  }

  function StripEnd(s: string): (r: string)
    ensures |r| <= |s| && StartsWith(s, r)
    ensures r == "" || !IsSpace(r[|r| - 1])
    decreases |s|
  {
    if |s| > 0 && IsSpace(s[|s| - 1]) then StripEnd(s[..|s| - 1]) else s
  }

  /** `posixpath.join(a, b)`. */
  function PathJoin(a: string, b: string): (r: string)
    ensures StartsWith(b, "/") ==> r == b
    ensures EndsWith(r, b)
  {
    if StartsWith(b, "/") then b
    else if a == "" || EndsWith(a, "/") then a + b
    else a + "/" + b
  }

  /** Index just after the last `/` of `p`, or 0 when there is none. */
  function AfterLastSlash(p: string): (i: nat)
    ensures i <= |p|
    ensures i > 0 ==> p[i - 1] == '/'
    ensures '/' !in p[i..]
  {
    if |p| == 0 then 0
    else if p[|p| - 1] == '/' then |p|
    else
      var i := AfterLastSlash(p[..|p| - 1]);
      assert p[i..] == p[..|p| - 1][i..] + [p[|p| - 1]];
      i
  }

  /** `os.path.basename(p)`. */
  function Basename(p: string): (r: string)
    ensures '/' !in r && EndsWith(p, r)
  {
    p[AfterLastSlash(p)..]
  }

  /** The last `/` of `p + f` is the one `p` ends with, when `f` holds none. */
  lemma {:induction false} AfterLastSlashAppend(p: string, f: string)
    requires p == "" || p[|p| - 1] == '/'
    requires '/' !in f
    ensures AfterLastSlash(p + f) == |p|
    decreases |f|
  {
    if |f| > 0 {
      var init := f[..|f| - 1];
      assert (p + f)[..|p + f| - 1] == p + init;
      AfterLastSlashAppend(p, init);
    } else {
      assert p + f == p;
    }
  }

  /** A name without `/` joined to a directory is that path's base name. */
  lemma BasenameOfJoin(dir: string, name: string)
    requires '/' !in name && name != ""
    ensures Basename(PathJoin(dir, name)) == name
  {
    if dir == "" || EndsWith(dir, "/") {
      assert dir == "" || dir[|dir| - 1] == dir[|dir| - 1..][0] == '/';
      AfterLastSlashAppend(dir, name);
      assert (dir + name)[|dir|..] == name;
    } else {
      AfterLastSlashAppend(dir + "/", name);
      assert dir + "/" + name == (dir + "/") + name;
      assert (dir + "/" + name)[|dir + "/"|..] == name;
    }
  }

  function TrimTrailingSlashes(p: string): string
    decreases |p|
  {
    if |p| > 0 && p[|p| - 1] == '/' then TrimTrailingSlashes(p[..|p| - 1]) else p
  }

  /** `os.path.dirname(p)`: the head before the last `/`, trailing slashes removed unless the
      head is nothing but slashes. */
  function Dirname(p: string): string
  {
    var head := p[..AfterLastSlash(p)];
    if head != "" && TrimTrailingSlashes(head) != "" then TrimTrailingSlashes(head) else head
  }
}
