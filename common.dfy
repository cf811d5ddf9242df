// Shared vocabulary for the model: optional values, order-preserving
// filtering, JavaScript string primitives (trim, lower-case, split, join),
// decimal rendering and the stable descending sort that both the browser
// code (Array.prototype.sort) and the listings of the service rely on.

module Common {

  datatype Option<T> = None | Some(value: T)

  /** `context.get(key, default)`: the entry when present, else the default. */
  function OrDefault<T>(v: Option<T>, d: T): (r: T)
    ensures v.None? ==> r == d
    ensures v.Some? ==> r == v.value
  {
    if v.Some? then v.value else d
  }

  /** The severities of the console's snackbar notifications. */
  datatype Severity = Success | Error | Warning | Info

  /** One `showNotification(message, severity)` call. */
  datatype Notice = Notice(message: string, severity: Severity)

  // ---------------------------------------------------------------------
  // Sequences

  /** The elements of `s` that satisfy `p`, in their original order
      (JavaScript `filter`, a Python list comprehension with `if`). */
  function Filter<T>(s: seq<T>, p: T -> bool): (r: seq<T>)
    ensures |r| <= |s|
    ensures forall i :: 0 <= i < |r| ==> r[i] in s && p(r[i])
    ensures forall i :: 0 <= i < |s| && p(s[i]) ==> s[i] in r
  {
    if s == [] then [] else (if p(s[0]) then [s[0]] else []) + Filter(s[1..], p)
  }

  lemma {:induction false} FilterConcat<T>(a: seq<T>, b: seq<T>, p: T -> bool)
    ensures Filter(a + b, p) == Filter(a, p) + Filter(b, p)
  {
    if a == [] {
      assert a + b == b;
    } else {
      assert (a + b)[1..] == a[1..] + b;
      FilterConcat(a[1..], b, p);
    }
  }

  /** Filtering on a predicate no element meets leaves nothing. */
  lemma {:induction false} FilterNone<T>(s: seq<T>, p: T -> bool)
    requires forall i :: 0 <= i < |s| ==> !p(s[i])
    ensures Filter(s, p) == []
  {
    if s != [] {
      FilterNone(s[1..], p);
    }
  }

  /** Filtering on a predicate every element meets is the identity. */
  lemma {:induction false} FilterAll<T>(s: seq<T>, p: T -> bool)
    requires forall i :: 0 <= i < |s| ==> p(s[i])
    ensures Filter(s, p) == s
  {
    if s != [] {
      FilterAll(s[1..], p);
    }
  }

  /** Elements that pass `p` and elements that fail it add up to the whole. */
  lemma {:induction false} FilterPartition<T>(s: seq<T>, p: T -> bool, q: T -> bool)
    requires forall i :: 0 <= i < |s| ==> q(s[i]) == !p(s[i])
    ensures |Filter(s, p)| + |Filter(s, q)| == |s|
  {
    if s != [] {
      FilterPartition(s[1..], p, q);
    }
  }

  /** Two predicates that agree on every element select the same elements. */
  lemma {:induction false} FilterCongruent<T>(s: seq<T>, p: T -> bool, q: T -> bool)
    requires forall i :: 0 <= i < |s| ==> p(s[i]) == q(s[i])
    ensures Filter(s, p) == Filter(s, q)
  {
    if s != [] {
      FilterCongruent(s[1..], p, q);
    }
  }

  /** Filtering twice is filtering on the conjunction. */
  lemma {:induction false} FilterFilter<T>(s: seq<T>, p: T -> bool, q: T -> bool, pq: T -> bool)
    requires forall i :: 0 <= i < |s| ==> pq(s[i]) == (p(s[i]) && q(s[i]))
    ensures Filter(Filter(s, p), q) == Filter(s, pq)
  {
    if s != [] {
      FilterFilter(s[1..], p, q, pq);
      assert Filter(s, p) == (if p(s[0]) then [s[0]] else []) + Filter(s[1..], p);
      if p(s[0]) {
        FilterConcat([s[0]], Filter(s[1..], p), q);
        assert [s[0]][1..] == [];
        assert Filter([s[0]], q) == if q(s[0]) then [s[0]] else [];
      } else {
        assert Filter(s, p) == Filter(s[1..], p);
      }
    }
  }

  /** Two orderings of the same elements hold the same elements. */
  lemma PermutationMembers<T>(a: seq<T>, b: seq<T>)
    requires multiset(a) == multiset(b)
    ensures forall i :: 0 <= i < |a| ==> a[i] in b
  {
    forall i | 0 <= i < |a|
      ensures a[i] in b
    {
      assert a[i] in multiset(a);
    }
  }

  /** The prefix one element longer. */
  lemma PrefixStep<T>(s: seq<T>, i: nat)
    requires i < |s|
    ensures s[..i + 1] == s[..i] + [s[i]]
  {
  }

  /** Number of elements satisfying `p`. */
  function Count<T>(s: seq<T>, p: T -> bool): nat
  {
    |Filter(s, p)|
  }

  /** JavaScript `slice(0, n)`: the first `n` elements, or all when fewer. */
  function Take<T>(s: seq<T>, n: nat): (r: seq<T>)
    ensures |r| == if n < |s| then n else |s|
    ensures forall i :: 0 <= i < |r| ==> r[i] == s[i]
  {
    if n < |s| then s[..n] else s
  }

  /** Python `l[n:]` for a non-negative `n`. */
  function Drop<T>(s: seq<T>, n: nat): (r: seq<T>)
    ensures |r| == if n < |s| then |s| - n else 0
    ensures forall i :: 0 <= i < |r| ==> r[i] == s[n + i]
  {
    if n < |s| then s[n..] else []
  }

  /** Index of the first element that satisfies `p` (JavaScript `find`). */
  function FindFirst<T>(s: seq<T>, p: T -> bool): (r: Option<nat>)
    ensures r.Some? ==> r.value < |s| && p(s[r.value])
    ensures r.Some? ==> forall j :: 0 <= j < r.value ==> !p(s[j])
    ensures r.None? ==> forall j :: 0 <= j < |s| ==> !p(s[j])
  {
    if s == [] then None
    else if p(s[0]) then Some(0)
    else match FindFirst(s[1..], p)
      case None => None
      case Some(k) => Some(k + 1)
  }

  // ---------------------------------------------------------------------
  // JavaScript string primitives

  /** The characters `String.prototype.trim` strips: WhiteSpace and
      LineTerminator of section 12.2 and 12.3 of ECMA-262. */
  predicate IsJsSpace(c: char)
  {
    ('\U{0009}' <= c <= '\U{000D}') || c == ' ' || c == '\U{00A0}' || c == '\U{1680}'
    || ('\U{2000}' <= c <= '\U{200A}') || c == '\U{2028}' || c == '\U{2029}'
    || c == '\U{202F}' || c == '\U{205F}' || c == '\U{3000}' || c == '\U{FEFF}'
  }

  predicate AllSpace(s: string)
  {
    forall i :: 0 <= i < |s| ==> IsJsSpace(s[i])
  }

  function TrimStart(s: string): (r: string)
    ensures |r| <= |s| && r == s[|s| - |r|..]
    ensures AllSpace(s[..|s| - |r|])
    ensures r != [] ==> !IsJsSpace(r[0])
  {
    if s != [] && IsJsSpace(s[0]) then
      var r := TrimStart(s[1..]);
      SpaceBeforeTrimStart(s, r);
      r
    else s
  }

  lemma SpaceBeforeTrimStart(s: string, r: string)
    requires s != [] && IsJsSpace(s[0])
    requires |r| <= |s| - 1 && r == s[1..][|s| - 1 - |r|..] && AllSpace(s[1..][..|s| - 1 - |r|])
    ensures r == s[|s| - |r|..]
    ensures AllSpace(s[..|s| - |r|])
  {
    var n := |s| - |r|;
    forall i | 0 <= i < n
      ensures IsJsSpace(s[..n][i])
    {
      if 0 < i {
        assert s[..n][i] == s[1..][..n - 1][i - 1];
      }
    }
  }

  function TrimEnd(s: string): (r: string)
    ensures |r| <= |s| && r == s[..|r|]
    ensures AllSpace(s[|r|..])
    ensures r != [] ==> !IsJsSpace(r[|r| - 1])
  {
    if s != [] && IsJsSpace(s[|s| - 1]) then
      var r := TrimEnd(s[..|s| - 1]);
      SpaceAfterTrimEnd(s, r);
      r
    else s
  }

  lemma SpaceAfterTrimEnd(s: string, r: string)
    requires s != [] && IsJsSpace(s[|s| - 1])
    requires |r| <= |s| - 1 && AllSpace(s[..|s| - 1][|r|..])
    ensures AllSpace(s[|r|..])
  {
    forall i | 0 <= i < |s| - |r|
      ensures IsJsSpace(s[|r|..][i])
    {
      if i < |s| - 1 - |r| {
        assert s[|r|..][i] == s[..|s| - 1][|r|..][i];
      }
    }
  }

  /** JavaScript `trim()`. */
  function Trim(s: string): (r: string)
    ensures |r| <= |s|
    ensures r != [] ==> !IsJsSpace(r[0]) && !IsJsSpace(r[|r| - 1])
  {
    TrimEnd(TrimStart(s))
  }

  predicate IsBlank(s: string)
  {
    Trim(s) == ""
  }

  /** A string is blank after trimming exactly when it is all white space. */
  lemma {:induction false} BlankIffAllSpace(s: string)
    ensures IsBlank(s) <==> AllSpace(s)
  {
    var t := TrimStart(s);
    if AllSpace(s) {
      SpaceTrimsAway(s);
    } else {
      var k :| 0 <= k < |s| && !IsJsSpace(s[k]);
      var j := KeptAfterSpace(s, t, k);
      TrimEndKeeps(t, j);
    }
  }

  lemma {:induction false} SpaceTrimsAway(s: string)
    requires AllSpace(s)
    ensures TrimStart(s) == []
  {
    if s != [] {
      assert forall i :: 0 <= i < |s| - 1 ==> s[1..][i] == s[i + 1];
      SpaceTrimsAway(s[1..]);
    }
  }

  /** A character that is not white space survives in any all-space-prefix
      suffix. */
  lemma KeptAfterSpace(s: string, t: string, k: nat) returns (j: nat)
    requires |t| <= |s| && t == s[|s| - |t|..] && AllSpace(s[..|s| - |t|])
    requires k < |s| && !IsJsSpace(s[k])
    ensures j < |t| && !IsJsSpace(t[j])
  {
    var n := |s| - |t|;
    forall i | 0 <= i < n
      ensures IsJsSpace(s[i])
    {
      assert s[..n][i] == s[i];
    }
    j := k - n;
    assert t[j] == s[k];
  }

  lemma TrimEndKeeps(t: string, j: nat)
    requires j < |t| && !IsJsSpace(t[j])
    ensures TrimEnd(t) != []
  {
    var n := |TrimEnd(t)|;
    forall i | n <= i < |t|
      ensures IsJsSpace(t[i])
    {
      assert t[n..][i - n] == t[i];
    }
  }

  /** Trimming twice is trimming once. */
  lemma TrimIdempotent(s: string)
    ensures Trim(Trim(s)) == Trim(s)
  {
    var t := Trim(s);
    if t != [] {
      assert TrimStart(t) == t;
      assert TrimEnd(t) == t;
    }
  }

  /** A string that trims to itself keeps doing so with a blank prefix. */
  lemma {:induction false} TrimSpacePrefix(p: string, x: string)
    requires AllSpace(p) && Trim(x) == x
    ensures Trim(p + x) == x
  {
    TrimStartSkips(p, x);
    assert TrimStart(p + x) == TrimStart(x);
    if x != [] {
      assert !IsJsSpace(x[0]);
    }
  }

  lemma {:induction false} TrimStartSkips(p: string, x: string)
    requires AllSpace(p)
    ensures TrimStart(p + x) == TrimStart(x)
  {
    if p != [] {
      assert (p + x)[1..] == p[1..] + x;
      assert AllSpace(p[1..]) by {
        forall i | 0 <= i < |p[1..]| ensures IsJsSpace(p[1..][i]) {
          assert p[1..][i] == p[i + 1];
        }
      }
      TrimStartSkips(p[1..], x);
    } else {
      assert p + x == x;
    }
  }

  /** ASCII case mapping; see README for the Unicode cases left out. */
  function LowerChar(c: char): char
  {
    if 'A' <= c <= 'Z' then (c as int + 32) as char else c
  }

  function UpperChar(c: char): char
  {
    if 'a' <= c <= 'z' then (c as int - 32) as char else c
  }

  /** `toLowerCase()` / Python `str.lower()` on the ASCII letters. */
  function Lower(s: string): (r: string)
    ensures |r| == |s|
    ensures forall i :: 0 <= i < |s| ==> r[i] == LowerChar(s[i])
  {
    if s == [] then [] else [LowerChar(s[0])] + Lower(s[1..])
  }

  predicate IsAsciiLetter(c: char)
  {
    'a' <= c <= 'z' || 'A' <= c <= 'Z'
  }

  function TitleFrom(s: string, afterLetter: bool): (r: string)
    ensures |r| == |s|
  {
    if s == [] then []
    else [if afterLetter then LowerChar(s[0]) else UpperChar(s[0])] + TitleFrom(s[1..], IsAsciiLetter(s[0]))
  }

  /** Python `str.title()` on the ASCII letters: a letter is upper-cased
      when it starts a run of letters and lower-cased otherwise. */
  function TitleCase(s: string): (r: string)
    ensures |r| == |s|
  {
    TitleFrom(s, false)
  }

  lemma {:induction false} TitleFromChars(s: string, afterLetter: bool)
    ensures s != [] ==> TitleFrom(s, afterLetter)[0] == if afterLetter then LowerChar(s[0]) else UpperChar(s[0])
    ensures forall i :: 0 < i < |s| ==>
      TitleFrom(s, afterLetter)[i] == if IsAsciiLetter(s[i - 1]) then LowerChar(s[i]) else UpperChar(s[i])
  {
    if s != [] {
      TitleFromChars(s[1..], IsAsciiLetter(s[0]));
      var r := TitleFrom(s, afterLetter);
      assert forall i :: 0 < i < |s| ==> r[i] == TitleFrom(s[1..], IsAsciiLetter(s[0]))[i - 1];
    }
  }

  /** Each character of the title form depends only on it and the one
      before it. */
  lemma TitleCaseChars(s: string)
    ensures s != [] ==> TitleCase(s)[0] == UpperChar(s[0])
    ensures forall i :: 0 < i < |s| ==>
      TitleCase(s)[i] == if IsAsciiLetter(s[i - 1]) then LowerChar(s[i]) else UpperChar(s[i])
  {
    TitleFromChars(s, false);
  }

  /** A word of lower-case letters is title-cased by capitalising its
      first letter. */
  lemma TitleOfLowerWord(s: string)
    requires s != []
    requires forall i :: 0 <= i < |s| ==> 'a' <= s[i] <= 'z'
    ensures TitleCase(s) == [UpperChar(s[0])] + s[1..]
  {
    TitleCaseChars(s);
    var r := TitleCase(s);
    forall i | 0 < i < |s|
      ensures r[i] == s[i]
    {
      assert IsAsciiLetter(s[i - 1]);
    }
  }

  /** `s.includes(sub)` / Python `sub in s`. */
  predicate Contains(s: string, sub: string)
  {
    StartsWith(s, sub) || (s != [] && Contains(s[1..], sub))
  }

  predicate StartsWith(s: string, prefix: string)
  {
    |prefix| <= |s| && s[..|prefix|] == prefix
  }

  /** Python `s.replace(a, b)` for single characters. */
  function ReplaceChar(s: string, a: char, b: char): (r: string)
    ensures |r| == |s|
    ensures forall i :: 0 <= i < |s| ==> r[i] == if s[i] == a then b else s[i]
  {
    if s == [] then [] else [if s[0] == a then b else s[0]] + ReplaceChar(s[1..], a, b)
  }

  /** `items.join(sep)`. */
  function Join(xs: seq<string>, sep: string): string
  {
    if xs == [] then ""
    else if |xs| == 1 then xs[0]
    else xs[0] + sep + Join(xs[1..], sep)
  }

  /** Joining two non-empty lists is joining each and putting one
      separator between them. */
  lemma {:induction false} JoinAppend(a: seq<string>, b: seq<string>, sep: string)
    requires a != [] && b != []
    ensures Join(a + b, sep) == Join(a, sep) + sep + Join(b, sep)
  {
    if |a| == 1 {
      assert (a + b)[1..] == b;
    } else {
      assert (a + b)[1..] == a[1..] + b;
      JoinAppend(a[1..], b, sep);
    }
  }

  /** `s.split(c)` for a one-character separator: the pieces between
      occurrences of `c`; there is always at least one piece. */
  function Split(s: string, c: char): (r: seq<string>)
    ensures |r| >= 1
    ensures forall k :: 0 <= k < |r| ==> c !in r[k]
  {
    if s == [] then [""]
    else
      var rest := Split(s[1..], c);
      if s[0] == c then [""] + rest else [[s[0]] + rest[0]] + rest[1..]
  }

  /** Text that does not contain the separator stays one piece. */
  lemma {:induction false} SplitNoSeparator(x: string, c: char)
    requires c !in x
    ensures Split(x, c) == [x]
  {
    if x != [] {
      SplitNoSeparator(x[1..], c);
      assert [x[0]] + x[1..] == x;
    }
  }

  /** Splitting `x + [c] + y` where `x` has no separator cuts at that point. */
  lemma {:induction false} SplitAtSeparator(x: string, y: string, c: char)
    requires c !in x
    ensures Split(x + [c] + y, c) == [x] + Split(y, c)
  {
    if x == [] {
      assert x + [c] + y == [c] + y;
      assert ([c] + y)[1..] == y;
    } else {
      assert (x + [c] + y)[1..] == x[1..] + [c] + y;
      SplitAtSeparator(x[1..], y, c);
      assert [x[0]] + x[1..] == x;
    }
  }

  /** Splitting a join on the separator's first character gives back the
      items, each after the first carrying the rest of the separator. */
  lemma {:induction false} SplitJoin(xs: seq<string>, c: char, tail: string)
    requires |xs| >= 1
    requires forall k :: 0 <= k < |xs| ==> c !in xs[k]
    requires c !in tail
    ensures |Split(Join(xs, [c] + tail), c)| == |xs|
    ensures Split(Join(xs, [c] + tail), c)[0] == xs[0]
    ensures forall k :: 1 <= k < |xs| ==> Split(Join(xs, [c] + tail), c)[k] == tail + xs[k]
  {
    if |xs| == 1 {
      SplitNoSeparator(xs[0], c);
    } else {
      var sep := [c] + tail;
      var j' := Join(xs[1..], sep);
      assert Join(xs, sep) == xs[0] + [c] + (tail + j');
      SplitAtSeparator(xs[0], tail + j', c);
      SplitJoin(xs[1..], c, tail);
      var rest := Split(j', c);
      SplitWithPrefix(tail, j', c, rest);
      PiecesAfterFirst(Split(Join(xs, sep), c), xs, tail, rest);
    }
  }

  /** The pieces of the first item followed by the tail glued to the pieces
      of the other items. */
  lemma PiecesAfterFirst(r: seq<string>, xs: seq<string>, tail: string, rest: seq<string>)
    requires |xs| >= 2 && |rest| == |xs| - 1 && rest[0] == xs[1]
    requires forall k :: 1 <= k < |xs| - 1 ==> rest[k] == tail + xs[1..][k]
    requires r == [xs[0]] + ([tail + rest[0]] + rest[1..])
    ensures |r| == |xs| && r[0] == xs[0]
    ensures forall k :: 1 <= k < |xs| ==> r[k] == tail + xs[k]
  {
    forall k | 1 <= k < |xs| ensures r[k] == tail + xs[k] {
      if k >= 2 {
        assert r[k] == rest[k - 1];
        assert xs[1..][k - 1] == xs[k];
      }
    }
  }

  /** Prepending separator-free text glues onto the first piece. */
  lemma {:induction false} SplitWithPrefix(p: string, s: string, c: char, rest: seq<string>)
    requires forall i :: 0 <= i < |p| ==> p[i] != c
    requires rest == Split(s, c)
    ensures Split(p + s, c) == [p + rest[0]] + rest[1..]
  {
    if p != [] {
      assert (p + s)[1..] == p[1..] + s;
      SplitWithPrefix(p[1..], s, c, rest);
      assert [p[0]] + (p[1..] + rest[0]) == p + rest[0];
    } else {
      assert p + s == s;
      assert p + rest[0] == rest[0];
      assert rest == [rest[0]] + rest[1..];
    }
  }

  /** Joining separator-free items with one character and splitting on it
      again gives back the items. */
  lemma SplitJoinChar(xs: seq<string>, c: char)
    requires |xs| >= 1
    requires forall k :: 0 <= k < |xs| ==> c !in xs[k]
    ensures Split(Join(xs, [c]), c) == xs
  {
    assert [c] == [c] + "";
    SplitJoin(xs, c, "");
    NoTailPieces(Split(Join(xs, [c]), c), xs);
  }

  lemma NoTailPieces(r: seq<string>, xs: seq<string>)
    requires |r| == |xs| >= 1 && r[0] == xs[0]
    requires forall k :: 1 <= k < |xs| ==> r[k] == "" + xs[k]
    ensures r == xs
  {
    forall k | 1 <= k < |xs|
      ensures r[k] == xs[k]
    {
      assert "" + xs[k] == xs[k];
    }
  }

  /** Joining separator-free lines with newlines and splitting them again
      gives back the lines. */
  lemma SplitJoinLines(xs: seq<string>)
    requires |xs| >= 1
    requires forall k :: 0 <= k < |xs| ==> '\n' !in xs[k]
    ensures Split(Join(xs, "\n"), '\n') == xs
  {
    assert "\n" == ['\n'];
    SplitJoinChar(xs, '\n');
  }

  /** `response.split('\n').filter(line => line.trim())` */
  function NonBlankLines(response: string): (r: seq<string>)
    ensures forall i :: 0 <= i < |r| ==> !IsBlank(r[i]) && r[i] in Split(response, '\n')
    ensures forall i :: 0 <= i < |r| ==> r[i] != ""
  {
    Filter(Split(response, '\n'), (l: string) => !IsBlank(l))
  }

  /** What a request to the AI service met: it threw, or it came back with a
      reply text or with nothing (`callAIAPI` yields null on failure). */
  datatype AiOutcome = Raised | Replied(text: Option<string>)

  predicate Truthy(s: Option<string>)
  {
    s.Some? && s.value != ""
  }

  // ---------------------------------------------------------------------
  // Words

  /** The characters Python's `str.split()` treats as whitespace: the ASCII
      space, tab, line feed, vertical tab, form feed and carriage return, the
      separators U+001C to U+001F, the next-line control U+0085 and the
      Unicode spaces and line and paragraph separators. */
  predicate IsPySpace(c: char)
  {
    c == ' ' || ('\t' <= c <= '\r') || ('\U{1C}' <= c <= '\U{1F}')
    || c == '\U{85}' || c == '\U{A0}' || c == '\U{1680}'
    || ('\U{2000}' <= c <= '\U{200A}') || c == '\U{2028}' || c == '\U{2029}'
    || c == '\U{202F}' || c == '\U{205F}' || c == '\U{3000}'
  }

  /** The words of `s` that start in it; `afterSpace` says whether the
      text before `s` ended in whitespace (or there was none). */
  function WordsFrom(s: string, afterSpace: bool): nat
  {
    if s == [] then 0
    else (if afterSpace && !IsPySpace(s[0]) then 1 else 0) + WordsFrom(s[1..], IsPySpace(s[0]))
  }

  /** `len(s.split())`: the number of maximal runs of non-whitespace. */
  function WordCount(s: string): nat
  {
    WordsFrom(s, true)
  }

  /** A no-break space separates words, as it does for `str.split()`. */
  lemma NoBreakSpaceSeparates()
    ensures WordCount("a\U{A0}b") == 2
  {
    var s := "a\U{A0}b";
    assert !IsPySpace('a') && IsPySpace('\U{A0}') && !IsPySpace('b');
    assert s[1..] == "\U{A0}b" && s[1..][1..] == "b" && "b"[1..] == [];
    assert WordsFrom("b", true) == 1;
    assert WordsFrom("\U{A0}b", false) == 1;
    assert WordsFrom(s, true) == 2;
  }

  function EndsInSpace(s: string, afterSpace: bool): bool
  {
    if s == [] then afterSpace else IsPySpace(s[|s| - 1])
  }

  lemma {:induction false} WordsFromAppend(a: string, b: string, afterSpace: bool)
    ensures WordsFrom(a + b, afterSpace) == WordsFrom(a, afterSpace) + WordsFrom(b, EndsInSpace(a, afterSpace))
  {
    if a == [] {
      assert a + b == b;
    } else {
      assert (a + b)[0] == a[0] && (a + b)[1..] == a[1..] + b;
      WordsFromAppend(a[1..], b, IsPySpace(a[0]));
      if |a| > 1 {
        assert a[1..][|a[1..]| - 1] == a[|a| - 1];
      }
    }
  }

  lemma {:induction false} WordsFromBound(s: string, afterSpace: bool)
    ensures WordsFrom(s, afterSpace) <= |s|
    ensures (forall i :: 0 <= i < |s| ==> IsPySpace(s[i])) ==> WordsFrom(s, afterSpace) == 0
  {
    if s != [] {
      WordsFromBound(s[1..], IsPySpace(s[0]));
    }
  }

  /** Text split at a whitespace character has the words of its two parts;
      whitespace alone has none, and there are never more words than
      characters. */
  lemma WordCountProperties(a: string, b: string, c: char)
    requires IsPySpace(c)
    ensures WordCount(a + [c] + b) == WordCount(a) + WordCount(b)
    ensures WordCount(a) <= |a|
    ensures (forall i :: 0 <= i < |a| ==> IsPySpace(a[i])) ==> WordCount(a) == 0
  {
    WordsFromAppend(a + [c], b, true);
    WordsFromAppend(a, [c], true);
    assert EndsInSpace(a + [c], true);
    WordsFromBound(a, true);
  }

  // ---------------------------------------------------------------------
  // Numbers as text

  function DigitChar(d: nat): (r: char)
    requires d < 10
    ensures '0' <= r <= '9'
  {
    "0123456789"[d]
  }

  /** Decimal digits of `n` (`String(n)` for a non-negative integer). */
  function NatToString(n: nat): (r: string)
    ensures |r| >= 1
    ensures forall i :: 0 <= i < |r| ==> '0' <= r[i] <= '9'
    decreases n
  {
    if n < 10 then [DigitChar(n)] else NatToString(n / 10) + [DigitChar(n % 10)]
  }

  /** The value that a string of decimal digits denotes. */
  function DigitsValue(s: string): nat
    requires forall i :: 0 <= i < |s| ==> '0' <= s[i] <= '9'
  {
    if s == [] then 0 else DigitsValue(s[..|s| - 1]) * 10 + (s[|s| - 1] as int - '0' as int)
  }

  /** Rendering and reading back a natural number agree. */
  lemma {:induction false} NatToStringValue(n: nat)
    ensures DigitsValue(NatToString(n)) == n
  {
    var r := NatToString(n);
    DigitCharValue(n % 10);
    if n >= 10 {
      NatToStringValue(n / 10);
      assert r[..|r| - 1] == NatToString(n / 10);
      assert r[|r| - 1] == DigitChar(n % 10);
    } else {
      assert r[..0] == [];
    }
  }

  /** A digit character stands for its digit. */
  lemma DigitCharValue(d: nat)
    requires d < 10
    ensures DigitChar(d) as int - '0' as int == d
  {
    assert "0123456789"[d] as int == '0' as int + d;
  }

  /** The last three decimal digits of `n`, zero-padded. */
  function Pad3(n: nat): (r: string)
    requires n < 1000
    ensures |r| == 3
    ensures forall i :: 0 <= i < 3 ==> '0' <= r[i] <= '9'
  {
    [DigitChar(n / 100), DigitChar(n / 10 % 10), DigitChar(n % 10)]
  }

  /** `n.toLocaleString()` in the en-US locale and Python's `f"{n:,}"`:
      decimal digits with a comma between each group of three. */
  function GroupThousands(n: nat): (r: string)
    ensures |r| >= 1 && '0' <= r[0] <= '9'
    decreases n
  {
    if n < 1000 then NatToString(n) else GroupThousands(n / 1000) + "," + Pad3(n % 1000)
  }

  lemma NatToStringThousands(n: nat)
    requires n >= 1000
    ensures NatToString(n) == NatToString(n / 1000) + Pad3(n % 1000)
  {
    var n1, n2, n3 := n / 10, n / 100, n / 1000;
    LastThreeDigits(n);
    assert NatToString(n) == NatToString(n1) + [DigitChar(n % 10)];
    assert NatToString(n1) == NatToString(n2) + [DigitChar(n1 % 10)];
    assert NatToString(n2) == NatToString(n3) + [DigitChar(n2 % 10)];
    var m := n % 1000;
    assert Pad3(m) == [DigitChar(n2 % 10), DigitChar(n1 % 10), DigitChar(n % 10)];
    AppendThree(NatToString(n), NatToString(n1), NatToString(n2), NatToString(n3),
                DigitChar(n2 % 10), DigitChar(n1 % 10), DigitChar(n % 10));
  }

  /** The last three decimal digits of `n` are the digits of `n % 1000`. */
  lemma LastThreeDigits(n: nat)
    requires n >= 1000
    ensures n / 10 / 10 == n / 100 && n / 100 / 10 == n / 1000
    ensures n / 10 >= 10 && n / 100 >= 10
    ensures n % 1000 / 100 == n / 100 % 10 && n % 1000 / 10 % 10 == n / 10 % 10 && n % 1000 % 10 == n % 10
  {
    var m, n3 := n % 1000, n / 1000;
    assert n == n3 * 1000 + m;
    assert n / 100 == n3 * 10 + m / 100;
    assert n / 10 == n3 * 100 + m / 10;
  }

  lemma AppendThree(s0: string, s1: string, s2: string, s3: string, c: char, b: char, a: char)
    requires s0 == s1 + [a] && s1 == s2 + [b] && s2 == s3 + [c]
    ensures s0 == s3 + [c, b, a]
  {
  }

  predicate NotComma(c: char) { c != ',' }

  /** Removing the group separators gives back the plain digits. */
  lemma {:induction false} GroupThousandsDigits(n: nat)
    ensures Filter(GroupThousands(n), NotComma) == NatToString(n)
    decreases n
  {
    if n < 1000 {
      FilterAll(NatToString(n), NotComma);
    } else {
      GroupStep(n);
      GroupThousandsDigits(n / 1000);
      NatToStringThousands(n);
    }
  }

  lemma GroupStep(n: nat)
    requires n >= 1000
    ensures Filter(GroupThousands(n), NotComma) == Filter(GroupThousands(n / 1000), NotComma) + Pad3(n % 1000)
  {
    var head, tail := GroupThousands(n / 1000), Pad3(n % 1000);
    assert GroupThousands(n) == head + ("," + tail);
    FilterConcat(head, "," + tail, NotComma);
    CommaDropped(tail);
  }

  lemma CommaDropped(digits: string)
    requires forall i :: 0 <= i < |digits| ==> '0' <= digits[i] <= '9'
    ensures Filter("," + digits, NotComma) == digits
  {
    assert ("," + digits)[1..] == digits;
    assert Filter("," + digits, NotComma) == Filter(digits, NotComma);
    FilterAll(digits, NotComma);
  }

  /** `String(n)` for any integer. */
  function IntToString(n: int): (r: string)
    ensures |r| >= 1
    ensures n < 0 <==> r[0] == '-'
  {
    if n < 0 then "-" + NatToString(-n) else NatToString(n)
  }

  /** JavaScript `Math.round`: the nearest integer, halves rounding up. */
  function JsRound(x: real): (r: int)
    ensures r as real - 0.5 <= x < r as real + 0.5
  {
    (x + 0.5).Floor
  }

  /** A total between `n * lo` and `n * hi` has its share of `n` between
      `lo` and `hi`. */
  lemma MeanWithin(total: real, n: real, lo: real, hi: real)
    requires n > 0.0 && n * lo <= total <= n * hi
    ensures lo <= total / n <= hi
  {
    assert total / n * n == total;
  }

  /** `Math.ceil(n / d)`: the fewest blocks of `d` that hold `n` items. */
  function CeilDiv(n: nat, d: nat): (r: nat)
    requires d > 0
    ensures n <= r * d
    ensures r == 0 || (r - 1) * d < n
  {
    (n + d - 1) / d
  }

  /** Rows per page in the console's tables. */
  const PageSize := 10

  /** `Math.ceil(n / 10)`: the pages needed to list `n` rows. */
  function TotalPages(n: nat): (r: nat)
    ensures n <= r * PageSize
    ensures r == 0 || (r - 1) * PageSize < n
  {
    CeilDiv(n, PageSize)
  }

  /** JavaScript `a % b`: the remainder takes the sign of `a`. */
  function JsRem(a: int, b: int): (r: int)
    requires b > 0
    ensures a >= 0 ==> r == a % b
    ensures a < 0 ==> -b < r <= 0 && r == -((-a) % b)
  {
    if a >= 0 then a % b else -((-a) % b)
  }

  // ---------------------------------------------------------------------
  // Stable descending sort

  predicate SortedDesc<T>(s: seq<T>, key: T -> real)
  {
    forall i, j :: 0 <= i < j < |s| ==> key(s[i]) >= key(s[j])
  }

  /** The first `n` of a sorted permutation of `s` are sorted and come
      from `s`. */
  lemma TopOfSorted<T>(sorted: seq<T>, s: seq<T>, n: nat, key: T -> real)
    requires multiset(sorted) == multiset(s) && SortedDesc(sorted, key)
    ensures SortedDesc(Take(sorted, n), key)
    ensures forall t :: t in Take(sorted, n) ==> t in s
  {
    var r := Take(sorted, n);
    forall t | t in r
      ensures t in s
    {
      var i :| 0 <= i < |r| && r[i] == t;
      assert sorted[i] in multiset(s);
    }
  }

  /** Put `x` in front of the first element whose key is not above its own. */
  function Insert<T>(x: T, s: seq<T>, key: T -> real): (r: seq<T>)
    ensures multiset(r) == multiset(s) + multiset{x}
    ensures SortedDesc(s, key) ==> SortedDesc(r, key)
  {
    if s == [] then [x]
    else if key(s[0]) <= key(x) then [x] + s
    else
      var t := Insert(x, s[1..], key);
      assert s == [s[0]] + s[1..];
      if SortedDesc(s, key) then
        HeadAbove(s[0], x, s[1..], t, key);
        [s[0]] + t
      else [s[0]] + t
  }

  /** A head whose key is above every element of a sorted tail, the tail
      holding `rest` and `x`, keeps the sequence sorted. */
  lemma HeadAbove<T>(h: T, x: T, rest: seq<T>, t: seq<T>, key: T -> real)
    requires multiset(t) == multiset(rest) + multiset{x}
    requires SortedDesc(t, key) && key(h) > key(x)
    requires forall j :: 0 <= j < |rest| ==> key(h) >= key(rest[j])
    ensures SortedDesc([h] + t, key)
  {
    forall i | 0 <= i < |t|
      ensures key(h) >= key(t[i])
    {
      assert t[i] in multiset(t);
      if t[i] != x {
        assert t[i] in multiset(rest);
      }
    }
    var r := [h] + t;
    forall i, j | 0 <= i < j < |r|
      ensures key(r[i]) >= key(r[j])
    {
      assert r[j] == t[j - 1];
      if i > 0 {
        assert r[i] == t[i - 1];
      }
    }
  }

  /** `array.sort((a, b) => key(b) - key(a))`: newest/highest first, ties in
      input order (ECMA-262 has required a stable sort since 2019). */
  function SortDesc<T>(s: seq<T>, key: T -> real): (r: seq<T>)
    ensures multiset(r) == multiset(s)
    ensures SortedDesc(r, key)
  {
    if s == [] then [] else
      assert s == [s[0]] + s[1..];
      Insert(s[0], SortDesc(s[1..], key), key)
  }

  lemma {:induction false} SortDescLength<T>(s: seq<T>, key: T -> real)
    ensures |SortDesc(s, key)| == |s|
  {
    assert |multiset(SortDesc(s, key))| == |multiset(s)|;
  }

  /** The elements sharing one key keep their input order through Insert. */
  lemma {:induction false} InsertStable<T>(x: T, s: seq<T>, key: T -> real, k: real, p: T -> bool)
    requires SortedDesc(s, key)
    requires forall y :: p(y) == (key(y) == k)
    ensures Filter(Insert(x, s, key), p) == if key(x) == k then [x] + Filter(s, p) else Filter(s, p)
  {
    if s == [] {
    } else if key(s[0]) <= key(x) {
      assert ([x] + s)[1..] == s;
    } else {
      InsertStable(x, s[1..], key, k, p);
      var t := Insert(x, s[1..], key);
      assert ([s[0]] + t)[1..] == t;
      if key(x) == k {
        assert !p(s[0]);
        assert Filter(s, p) == Filter(s[1..], p);
      }
    }
  }

  /** Stability: for every key, the elements with that key appear in the
      output in the same order as in the input. */
  lemma {:induction false} SortDescStable<T>(s: seq<T>, key: T -> real, k: real, p: T -> bool)
    requires forall y :: p(y) == (key(y) == k)
    ensures Filter(SortDesc(s, key), p) == Filter(s, p)
  {
    if s != [] {
      SortDescStable(s[1..], key, k, p);
      InsertStable(s[0], SortDesc(s[1..], key), key, k, p);
    }
  }

  /** Sorting input that is already in order changes nothing. */
  lemma {:induction false} SortDescSorted<T>(s: seq<T>, key: T -> real)
    requires SortedDesc(s, key)
    ensures SortDesc(s, key) == s
  {
    if s != [] {
      assert SortedDesc(s[1..], key);
      SortDescSorted(s[1..], key);
    }
  }
}
