/** String helpers shared by the lexer and the two phonology scripts: the
    JavaScript and Python string operations the sources rely on (prefix and
    suffix tests, substring search, replace-first, split, trim), stated over
    `seq<char>`. */
module Strings {

  datatype Option<T> = None | Some(value: T)

  predicate StartsWith(s: string, p: string) {
    |p| <= |s| && s[..|p|] == p
  }

  predicate EndsWith(s: string, p: string) {
    |p| <= |s| && s[|s| - |p|..] == p
  }

  /** `pat` occurs in `s` starting at index `i`. */
  predicate OccursAt(s: string, pat: string, i: nat) {
    i + |pat| <= |s| && s[i..i + |pat|] == pat
  }

  /** First index at or after `from` where `pat` occurs in `s`. */
  function FindFrom(s: string, pat: string, from: nat): (r: Option<nat>)
    decreases |s| - from
    ensures r.Some? ==> from <= r.value && OccursAt(s, pat, r.value)
    ensures r.Some? ==> forall j :: from <= j < r.value ==> !OccursAt(s, pat, j)
    ensures r.None? ==> forall j :: from <= j ==> !OccursAt(s, pat, j)
  {
    if from + |pat| > |s| then None
    else if s[from..from + |pat|] == pat then Some(from)
    else FindFrom(s, pat, from + 1)
  }

  /** JavaScript `indexOf` / Python `find`: the first occurrence of `pat`. */
  function Find(s: string, pat: string): (r: Option<nat>)
    ensures r.Some? ==> OccursAt(s, pat, r.value) && forall j :: 0 <= j < r.value ==> !OccursAt(s, pat, j)
    ensures r.None? ==> forall j :: 0 <= j ==> !OccursAt(s, pat, j)
  {
    FindFrom(s, pat, 0)
  }

  /** Python `w in s` and JavaScript `s.includes(w)` on strings. */
  predicate IsSubstring(w: string, s: string) {
    Find(s, w).Some?
  }

  lemma SubstringAt(w: string, s: string, i: nat)
    requires OccursAt(s, w, i)
    ensures IsSubstring(w, s)
  {
  }

  /** JavaScript `s.replace(pat, rep)` with a string pattern: only the first
      occurrence is replaced. */
  function ReplaceFirst(s: string, pat: string, rep: string): (r: string)
    ensures Find(s, pat).None? ==> r == s
    ensures Find(s, pat).Some? ==> |r| == |s| - |pat| + |rep|
  {
    match Find(s, pat)
    case None => s
    case Some(i) => s[..i] + rep + s[i + |pat|..]
  }

  /** A one-character pattern occurs exactly when the character does. */
  lemma SingleCharSubstring(c: char, s: string)
    ensures IsSubstring([c], s) <==> c in s
  {
    if c in s {
      var i :| 0 <= i < |s| && s[i] == c;
      assert s[i..i + 1] == [c];
      SubstringAt([c], s, i);
    }
    if IsSubstring([c], s) {
      var i := Find(s, [c]).value;
      assert s[i..i + 1][0] == s[i];
    }
  }

  /** A pattern whose first character does not occur in `a` is found
      right after `a`. */
  lemma FindAfter(a: string, pat: string, b: string)
    requires pat != [] && pat[0] !in a
    ensures Find(a + pat + b, pat) == Some(|a|)
  {
    var s := a + pat + b;
    assert s[|a|..|a| + |pat|] == pat;
    assert OccursAt(s, pat, |a|);
    forall j | 0 <= j < |a|
      ensures !OccursAt(s, pat, j)
    {
      assert s[j] == a[j];
    }
  }

  /** Replacing a pattern that cannot start anywhere in `s` changes nothing. */
  lemma ReplaceAbsent(s: string, pat: string, rep: string)
    requires pat != [] && pat[0] !in s
    ensures ReplaceFirst(s, pat, rep) == s
  {
  }

  /** A pattern of two or more characters whose first character only ends
      the string does not occur in it. */
  lemma ReplaceAbsentTail(s: string, c: char, pat: string, rep: string)
    requires |pat| >= 2 && pat[0] == c && c !in s
    ensures ReplaceFirst(s + [c], pat, rep) == s + [c]
  {
  }

  /** Replacing the first occurrence when it comes right after `a`. */
  lemma ReplaceAfter(a: string, pat: string, b: string, rep: string)
    requires pat != [] && pat[0] !in a
    ensures ReplaceFirst(a + pat + b, pat, rep) == a + rep + b
  {
    var s := a + pat + b;
    FindAfter(a, pat, b);
    assert s[..|a|] == a && s[|a| + |pat|..] == b;
  }

  /** JavaScript `s.replace(/^p/, rep)`: an anchored replacement. */
  function ReplacePrefix(s: string, p: string, rep: string): string {
    if StartsWith(s, p) then rep + s[|p|..] else s
  }

  /** Whitespace as JavaScript's `\s` and `String.prototype.trim` see it. */
  predicate IsJsSpace(c: char) {
    var n := c as int;
    (0x09 <= n <= 0x0D) || n == 0x20 || n == 0xA0 || n == 0x1680 ||
    (0x2000 <= n <= 0x200A) || n == 0x2028 || n == 0x2029 || n == 0x202F ||
    n == 0x205F || n == 0x3000 || n == 0xFEFF
  }

  predicate NoJsSpace(s: string) {
    forall i :: 0 <= i < |s| ==> !IsJsSpace(s[i])
  }

  function TrimStart(s: string): (r: string)
    ensures |r| <= |s|
  {
    if |s| > 0 && IsJsSpace(s[0]) then TrimStart(s[1..]) else s
  }

  function TrimEnd(s: string): (r: string)
    ensures |r| <= |s|
  {
    if |s| > 0 && IsJsSpace(s[|s| - 1]) then TrimEnd(s[..|s| - 1]) else s
  }

  /** JavaScript `s.trim()`. */
  function Trim(s: string): (r: string)
    ensures |r| <= |s|
  {
    TrimEnd(TrimStart(s))
  }

  lemma TrimNoSpace(s: string)
    requires NoJsSpace(s)
    ensures Trim(s) == s
  {
    if |s| > 0 {
      assert !IsJsSpace(s[|s| - 1]);
    }
  }

  /** End of the run of JavaScript whitespace starting at `i`. */
  function JsSpaceRunEnd(s: string, i: nat): (j: nat)
    requires i <= |s|
    decreases |s| - i
    ensures i <= j <= |s|
    ensures j == |s| || !IsJsSpace(s[j])
    ensures forall k :: i <= k < j ==> IsJsSpace(s[k])
  {
    if i < |s| && IsJsSpace(s[i]) then JsSpaceRunEnd(s, i + 1) else i
  }

  /** First index at or after `i` holding JavaScript whitespace, or `|s|`. */
  function JsSpaceFrom(s: string, i: nat): (j: nat)
    requires i <= |s|
    decreases |s| - i
    ensures i <= j <= |s|
    ensures j < |s| ==> IsJsSpace(s[j])
    ensures forall k :: i <= k < j ==> !IsJsSpace(s[k])
  {
    if i == |s| || IsJsSpace(s[i]) then i else JsSpaceFrom(s, i + 1)
  }

  /** JavaScript `s.split(/\s+/)`: fields separated by maximal whitespace
      runs; a leading or trailing run yields an empty field, and the empty
      string yields the single field "". */
  function SplitWs(s: string): (parts: seq<string>)
    decreases |s|
    ensures |parts| >= 1
    ensures forall p :: p in parts ==> |p| <= |s|
  {
    var i := JsSpaceFrom(s, 0);
    if i == |s| then [s]
    else
      var j := JsSpaceRunEnd(s, i);
      [s[..i]] + SplitWs(s[j..])
  }

  /** `f` holds of every field of `SplitWs(s)`, following its recursion. */
  predicate EveryWsPart(f: string -> bool, s: string)
    decreases |s|
  {
    var i := JsSpaceFrom(s, 0);
    if i == |s| then f(s)
    else f(s[..i]) && EveryWsPart(f, s[JsSpaceRunEnd(s, i)..])
  }

  lemma {:induction false} EveryWsPartIsEvery(f: string -> bool, s: string)
    decreases |s|
    ensures EveryWsPart(f, s) == Every(f, SplitWs(s))
  {
    var i := JsSpaceFrom(s, 0);
    if i < |s| {
      var rest := s[JsSpaceRunEnd(s, i)..];
      EveryWsPartIsEvery(f, rest);
      assert ([s[..i]] + SplitWs(rest))[1..] == SplitWs(rest);
    } else {
      assert [s][1..] == [];
    }
  }

  lemma SplitWsNoSpace(s: string)
    requires NoJsSpace(s)
    ensures SplitWs(s) == [s]
  {
    assert JsSpaceFrom(s, 0) == |s|;
  }

  /** A field, one space, and more text: the field comes first. */
  lemma SplitWsSpace(a: string, b: string)
    requires NoJsSpace(a) && (b == [] || !IsJsSpace(b[0]))
    ensures SplitWs(a + " " + b) == [a] + SplitWs(b)
  {
    var s := a + " " + b;
    JsSpaceFromField(s, a);
    assert JsSpaceRunEnd(s, |a| + 1) == |a| + 1;
    assert s[..|a|] == a && s[|a| + 1..] == b;
  }

  lemma JsSpaceFromField(s: string, a: string)
    requires |a| < |s| && s[..|a|] == a && NoJsSpace(a) && IsJsSpace(s[|a|])
    ensures JsSpaceFrom(s, 0) == |a|
  {
  }

  /** Index of the first `c` in `s`, or `|s|` when there is none. */
  function IndexOfChar(s: string, c: char): (i: nat)
    ensures i <= |s| && c !in s[..i]
    ensures i < |s| ==> s[i] == c
  {
    if |s| == 0 || s[0] == c then 0
    else
      var k := IndexOfChar(s[1..], c);
      assert s[..k + 1] == [s[0]] + s[1..][..k];
      k + 1
  }

  /** JavaScript `s.split(sep)` with a one-character string separator: every
      occurrence separates, so adjacent separators give empty fields. */
  function SplitChar(s: string, sep: char): (parts: seq<string>)
    decreases |s|
    ensures |parts| >= 1
    ensures forall p :: p in parts ==> |p| <= |s|
    ensures sep in s ==> forall p :: p in parts ==> |p| < |s|
    ensures forall p :: p in parts ==> sep !in p
  {
    var i := IndexOfChar(s, sep);
    if i == |s| then [s]
    else [s[..i]] + SplitChar(s[i + 1..], sep)
  }

  /** Two fields around one separator. */
  lemma SplitCharTwo(a: string, sep: char, b: string)
    requires sep !in a && sep !in b
    ensures SplitChar(a + [sep] + b, sep) == [a, b]
  {
    var s := a + [sep] + b;
    IndexOfCharAfter(s, a, sep);
    assert s[..|a|] == a && s[|a| + 1..] == b;
    assert IndexOfChar(b, sep) == |b|;
  }

  /** The fields of a string without whitespace have none either. */
  lemma {:induction false} SplitCharNoSpace(s: string, sep: char)
    requires NoJsSpace(s)
    decreases |s|
    ensures forall p :: p in SplitChar(s, sep) ==> NoJsSpace(p)
  {
    var i := IndexOfChar(s, sep);
    var head := s[..i];
    assert NoJsSpace(head) by {
      assert forall k :: 0 <= k < |head| ==> head[k] == s[k];
    }
    if i < |s| {
      var tail := s[i + 1..];
      assert NoJsSpace(tail) by {
        assert forall k :: 0 <= k < |tail| ==> tail[k] == s[i + 1 + k];
      }
      SplitCharNoSpace(tail, sep);
    }
  }

  lemma IndexOfCharAfter(s: string, a: string, sep: char)
    requires |a| < |s| && s[..|a|] == a && sep !in a && s[|a|] == sep
    ensures IndexOfChar(s, sep) == |a|
  {
  }

  /** JavaScript's `xs.every(f)`. */
  predicate Every<T>(f: T -> bool, xs: seq<T>) {
    xs == [] || (f(xs[0]) && Every(f, xs[1..]))
  }

  /** JavaScript's `xs.some(f)`. */
  predicate Any<T>(f: T -> bool, xs: seq<T>) {
    xs != [] && (f(xs[0]) || Any(f, xs[1..]))
  }

  lemma AnyPair<T>(f: T -> bool, x: T, y: T)
    ensures Any(f, [x, y]) == (f(x) || f(y))
  {
    assert [x, y][1..] == [y];
    assert [y][1..] == [];
    assert !Any(f, []);
    assert Any(f, [y]) == f(y);
  }

  /** `Any` only looks at the values of `f` on `xs`. */
  lemma {:induction false} AnySame<T>(f: T -> bool, g: T -> bool, xs: seq<T>)
    requires forall k :: 0 <= k < |xs| ==> f(xs[k]) == g(xs[k])
    ensures Any(f, xs) == Any(g, xs)
  {
    if xs != [] {
      assert forall k :: 0 <= k < |xs[1..]| ==> xs[1..][k] == xs[k + 1];
      AnySame(f, g, xs[1..]);
    }
  }

  /** `s => f(s.trim())`. */
  function Trimmed(f: string -> bool): string -> bool {
    s => f(Trim(s))
  }

  /** On fields without whitespace, trimming first changes nothing. */
  lemma AnyTrimmed(f: string -> bool, xs: seq<string>)
    requires forall p :: p in xs ==> NoJsSpace(p)
    ensures Any(f, xs) == Any(Trimmed(f), xs)
  {
    forall k | 0 <= k < |xs|
      ensures f(xs[k]) == Trimmed(f)(xs[k])
    {
      TrimNoSpace(xs[k]);
    }
    AnySame(f, Trimmed(f), xs);
  }

  lemma {:induction false} EveryIsForall<T>(f: T -> bool, xs: seq<T>)
    ensures Every(f, xs) == forall k :: 0 <= k < |xs| ==> f(xs[k])
  {
    if xs != [] {
      EveryIsForall(f, xs[1..]);
      assert forall k :: 0 < k < |xs| ==> xs[1..][k - 1] == xs[k];
    }
  }

  lemma {:induction false} AnyIsExists<T>(f: T -> bool, xs: seq<T>)
    ensures Any(f, xs) == exists k :: 0 <= k < |xs| && f(xs[k])
  {
    if xs != [] {
      AnyIsExists(f, xs[1..]);
      if Any(f, xs[1..]) {
        var k :| 0 <= k < |xs[1..]| && f(xs[1..][k]);
        assert xs[k + 1] == xs[1..][k];
      }
    }
  }

  /** The characters of `s` that satisfy `keep`, in order. */
  function Filter(s: string, keep: char -> bool): string {
    if s == [] then "" else (if keep(s[0]) then [s[0]] else "") + Filter(s[1..], keep)
  }

  lemma {:induction false} FilterAppend(a: string, b: string, keep: char -> bool)
    ensures Filter(a + b, keep) == Filter(a, keep) + Filter(b, keep)
  {
    if a != [] {
      assert (a + b)[1..] == a[1..] + b;
      FilterAppend(a[1..], b, keep);
    } else {
      assert a + b == b;
    }
  }

  lemma {:induction false} FilterAll(s: string, keep: char -> bool, kept: bool)
    requires forall k :: 0 <= k < |s| ==> keep(s[k]) == kept
    ensures Filter(s, keep) == if kept then s else ""
  {
    if s != [] {
      FilterAll(s[1..], keep, kept);
    }
  }

  /** Dropped characters, then a kept stretch, then the rest: filtering the
      whole is the kept stretch followed by filtering the rest. */
  lemma FilterStep(s: string, pos: nat, start: nat, end: nat, keep: char -> bool)
    requires pos <= start <= end <= |s|
    requires forall k :: pos <= k < start ==> !keep(s[k])
    requires forall k :: start <= k < end ==> keep(s[k])
    ensures Filter(s[pos..], keep) == s[start..end] + Filter(s[end..], keep)
  {
    var dropped, kept, tail := s[pos..start], s[start..end], s[end..];
    assert s[pos..] == dropped + (kept + tail);
    FilterAppend(dropped, kept + tail, keep);
    FilterAppend(kept, tail, keep);
    FilterAll(dropped, keep, false);
    FilterAll(kept, keep, true);
  }
}
