/** String helpers shared by the three versions of the dispatcher: case folding,
    joining with a separator, splitting on white space (Go's `strings.Fields`),
    prefix, suffix and substring tests (C's `strstr`) and literal replacement
    (Rust's `str::replace`). Strings are sequences of characters. */
module Text {

  /** Lower-cases an ASCII letter and leaves every other character alone. */
  function LowerChar(c: char): char {
    if 'A' <= c <= 'Z' then (c as int + 32) as char else c
  }

  function ToLower(s: string): (r: string)
    ensures |r| == |s|
  {
    if s == [] then [] else [LowerChar(s[0])] + ToLower(s[1..])
  }

  /** Each character of the lower case is its character lowered. */
  lemma {:induction false} ToLowerAt(s: string)
    ensures forall i :: 0 <= i < |s| ==> ToLower(s)[i] == LowerChar(s[i])
    decreases |s|
  {
    if s != [] {
      ToLowerAt(s[1..]);
      assert forall i :: 1 <= i < |s| ==> s[1..][i - 1] == s[i];
    }
  }

  /** Lower-casing a word whose first letter is its only capital changes
      just that letter. */
  lemma LowerFirst(s: string, t: string)
    requires |s| == |t| && s != [] && 'A' <= s[0] <= 'Z' && t[0] == LowerChar(s[0])
    requires forall i :: 1 <= i < |s| ==> s[i] == t[i] && !('A' <= s[i] <= 'Z')
    ensures ToLower(s) == t
  {
    ToLowerAt(s);
    var r := ToLower(s);
    assert forall i :: 0 <= i < |s| ==> r[i] == t[i];
  }

  /** `parts` joined by `sep`, as Go's `strings.Join` and Rust's `join` do. */
  function JoinWith(parts: seq<string>, sep: string): string {
    if |parts| == 0 then ""
    else if |parts| == 1 then parts[0]
    else parts[0] + sep + JoinWith(parts[1..], sep)
  }

  lemma JoinStep(a: string, rest: seq<string>)
    ensures JoinWith([a] + rest, " ") == if rest == [] then a else a + " " + JoinWith(rest, " ")
  {
    assert ([a] + rest)[1..] == rest;
  }

  /** Appending a part to a non-empty join adds the separator and the part. */
  lemma {:induction false} JoinAppend(parts: seq<string>, x: string, sep: string)
    requires parts != []
    ensures JoinWith(parts + [x], sep) == JoinWith(parts, sep) + sep + x
    decreases |parts|
  {
    if |parts| == 1 {
      assert (parts + [x])[1..] == [x];
    } else {
      assert (parts + [x])[1..] == parts[1..] + [x];
      JoinAppend(parts[1..], x, sep);
    }
  }

  /** Go's `unicode.IsSpace`: the ASCII white space characters and the
      Unicode White_Space code points. */
  predicate IsSpace(c: char) {
    var n := c as int;
    n == 9 || n == 10 || n == 11 || n == 12 || n == 13 || n == 32 || n == 0x85 || n == 0xA0
    || n == 0x1680 || (0x2000 <= n <= 0x200A) || n == 0x2028 || n == 0x2029
    || n == 0x202F || n == 0x205F || n == 0x3000
  }

  predicate SpaceFree(s: string) {
    forall i :: 0 <= i < |s| ==> !IsSpace(s[i])
  }

  /** The fields of `s`, where `cur` is the part of a field already read. */
  function FieldsFrom(s: string, cur: string): (r: seq<string>)
    requires SpaceFree(cur)
    ensures forall i :: 0 <= i < |r| ==> r[i] != "" && SpaceFree(r[i])
    decreases |s|
  {
    if s == [] then (if cur == [] then [] else [cur])
    else if IsSpace(s[0]) then
      (if cur == [] then [] else [cur]) + FieldsFrom(s[1..], [])
    else FieldsFrom(s[1..], cur + [s[0]])
  }

  /** Go's `strings.Fields`: the maximal runs of non-space characters, in order. */
  function Fields(s: string): seq<string> {
    FieldsFrom(s, [])
  }

  /** One space splits the fields of what precedes it from those of what follows. */
  lemma {:induction false} FieldsFromSplit(x: string, y: string, cur: string)
    requires SpaceFree(cur)
    ensures FieldsFrom(x + " " + y, cur) == FieldsFrom(x, cur) + FieldsFrom(y, [])
    decreases |x|
  {
    if x == [] {
      assert x + " " + y == [' '] + y;
      assert (x + " " + y)[1..] == y;
    } else {
      assert (x + " " + y)[0] == x[0];
      assert (x + " " + y)[1..] == x[1..] + " " + y;
      if IsSpace(x[0]) {
        FieldsFromSplit(x[1..], y, []);
      } else {
        FieldsFromSplit(x[1..], y, cur + [x[0]]);
      }
    }
  }

  lemma FieldsSplit(x: string, y: string)
    ensures Fields(x + " " + y) == Fields(x) + Fields(y)
  {
    FieldsFromSplit(x, y, []);
  }

  /** A string without white space is read as one field (or none when empty). */
  lemma {:induction false} FieldsFromWord(w: string, cur: string)
    requires SpaceFree(cur) && SpaceFree(w)
    ensures FieldsFrom(w, cur) == if cur + w == [] then [] else [cur + w]
    decreases |w|
  {
    if w != [] {
      assert !IsSpace(w[0]);
      assert SpaceFree(cur + [w[0]]);
      assert cur + w == (cur + [w[0]]) + w[1..];
      FieldsFromWord(w[1..], cur + [w[0]]);
    } else {
      assert cur + w == cur;
    }
  }

  lemma FieldsOfWord(w: string)
    requires SpaceFree(w)
    ensures Fields(w) == if w == [] then [] else [w]
  {
    FieldsFromWord(w, []);
    assert [] + w == w;
  }

  /** Splitting undoes joining with single spaces, for non-empty words. */
  lemma {:induction false} FieldsOfJoin(ws: seq<string>)
    requires forall i :: 0 <= i < |ws| ==> ws[i] != "" && SpaceFree(ws[i])
    ensures Fields(JoinWith(ws, " ")) == ws
    decreases |ws|
  {
    if |ws| == 0 {
    } else if |ws| == 1 {
      FieldsOfWord(ws[0]);
    } else {
      FieldsSplit(ws[0], JoinWith(ws[1..], " "));
      FieldsOfWord(ws[0]);
      FieldsOfJoin(ws[1..]);
      assert ws == [ws[0]] + ws[1..];
    }
  }

  predicate HasPrefix(s: string, p: string) {
    |p| <= |s| && s[..|p|] == p
  }

  predicate EndsWith(s: string, p: string) {
    |p| <= |s| && s[|s| - |p|..] == p
  }

  /** C's `strstr(s, sub) != NULL`: `sub` occurs somewhere in `s`. */
  predicate Contains(s: string, sub: string)
    decreases |s|
  {
    HasPrefix(s, sub) || (s != [] && Contains(s[1..], sub))
  }

  lemma {:induction false} ContainsAt(a: string, sub: string, b: string)
    ensures Contains(a + sub + b, sub)
    decreases |a|
  {
    if a == [] {
      assert (a + sub + b)[..|sub|] == sub;
    } else {
      assert (a + sub + b)[1..] == a[1..] + sub + b;
      ContainsAt(a[1..], sub, b);
    }
  }

  /** A string lacking one character of `sub` does not contain `sub`. */
  lemma {:induction false} NotContainsMissingChar(s: string, sub: string, k: nat)
    requires k < |sub|
    requires forall i :: 0 <= i < |s| ==> s[i] != sub[k]
    ensures !Contains(s, sub)
    decreases |s|
  {
    if |sub| <= |s| {
      assert s[..|sub|][k] == s[k];
    }
    if s != [] {
      NotContainsMissingChar(s[1..], sub, k);
    }
  }

  /** Rust's `str::replace`: every occurrence of `pat`, scanned left to right
      without overlap, is replaced by `rep`; the replacement is not rescanned. */
  function Replace(s: string, pat: string, rep: string): string
    requires pat != []
    decreases |s|
  {
    if |s| < |pat| then s
    else if s[..|pat|] == pat then rep + Replace(s[|pat|..], pat, rep)
    else [s[0]] + Replace(s[1..], pat, rep)
  }

  /** Text before which the pattern cannot start is copied unchanged. */
  lemma {:induction false} ReplaceSkips(a: string, t: string, pat: string, rep: string)
    requires pat != []
    requires forall i :: 0 <= i < |a| ==> a[i] != pat[0]
    ensures Replace(a + t, pat, rep) == a + Replace(t, pat, rep)
    decreases |a|
  {
    if a != [] {
      var s := a + t;
      assert s[0] == a[0];
      assert s[1..] == a[1..] + t;
      ReplaceSkips(a[1..], t, pat, rep);
      if |s| >= |pat| {
        assert s[..|pat|][0] == a[0];
        assert s[..|pat|] != pat;
        assert Replace(s, pat, rep) == [s[0]] + Replace(s[1..], pat, rep);
        assert [a[0]] + a[1..] == a;
      } else {
        assert Replace(t, pat, rep) == t;
      }
    } else {
      assert a + t == t;
    }
  }

  lemma ReplaceAbsent(a: string, pat: string, rep: string)
    requires pat != []
    requires forall i :: 0 <= i < |a| ==> a[i] != pat[0]
    ensures Replace(a, pat, rep) == a
  {
    ReplaceSkips(a, "", pat, rep);
    assert a + "" == a;
  }

  lemma ReplaceAtStart(t: string, pat: string, rep: string)
    requires pat != []
    ensures Replace(pat + t, pat, rep) == rep + Replace(t, pat, rep)
  {
    assert (pat + t)[..|pat|] == pat;
    assert (pat + t)[|pat|..] == t;
  }
}
