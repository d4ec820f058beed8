/**
 * The handful of Python string operations the pipeline relies on, written
 * out over `seq<char>`: slicing `s[:n]`, `str.join`, `str.split(",")`,
 * `str.strip()`, `str(int)`, the f-string rendering of `None` and of
 * booleans, and the leftmost-occurrence search that `re.search` performs
 * for a literal label.
 */
module Text {
  import opened Wrappers

  /** Python's `s[:n]`: the first `n` characters, or all of `s` when it is shorter. */
  function Take(s: string, n: nat): (r: string)
    ensures |r| == if |s| <= n then |s| else n
    ensures r == s[..|r|]
  {
    if |s| <= n then s else s[..n]
  }

  /** Python's `"".join(parts)`. */
  function Concat(parts: seq<string>): string
  {
    if |parts| == 0 then "" else Concat(parts[..|parts| - 1]) + parts[|parts| - 1]
  }

  /** Python's `sep.join(parts)`. */
  function Join(sep: string, parts: seq<string>): string
  {
    if |parts| == 0 then ""
    else if |parts| == 1 then parts[0]
    else parts[0] + sep + Join(sep, parts[1..])
  }

  /** `"".join(f(x) for x in items)`, accumulated left to right as the source's loops do. */
  function ConcatMap<T>(items: seq<T>, f: T -> string): string
  {
    if |items| == 0 then "" else ConcatMap(items[..|items| - 1], f) + f(items[|items| - 1])
  }

  /** `[f(x) for x in items]`. */
  function MapSeq<T, U>(items: seq<T>, f: T -> U): (r: seq<U>)
    ensures |r| == |items|
    ensures forall i :: 0 <= i < |items| ==> r[i] == f(items[i])
  {
    seq(|items|, i requires 0 <= i < |items| => f(items[i]))
  }

  lemma {:induction false} ConcatMapAppend<T>(a: seq<T>, b: seq<T>, f: T -> string)
    ensures ConcatMap(a + b, f) == ConcatMap(a, f) + ConcatMap(b, f)
    decreases |b|
  {
    if |b| == 0 {
      assert a + b == a;
    } else {
      var b' := b[..|b| - 1];
      assert (a + b)[..|a + b| - 1] == a + b';
      ConcatMapAppend(a, b', f);
    }
  }

  /** If every piece is at most `cap` long, the whole is at most `cap` per piece. */
  lemma {:induction false} ConcatMapBound<T>(items: seq<T>, f: T -> string, cap: nat)
    requires forall x :: x in items ==> |f(x)| <= cap
    ensures |ConcatMap(items, f)| <= cap * |items|
    decreases |items|
  {
    if |items| > 0 {
      var init := items[..|items| - 1];
      assert forall x :: x in init ==> x in items;
      ConcatMapBound(init, f, cap);
      assert cap * |items| == cap * |init| + cap;
    }
  }

  /** One more item: the fold over `items[..i + 1]` is the fold over `items[..i]` followed by `f(items[i])`. */
  lemma ConcatMapStep<T>(items: seq<T>, i: nat, f: T -> string)
    requires i < |items|
    ensures ConcatMap(items[..i + 1], f) == ConcatMap(items[..i], f) + f(items[i])
  {
    assert items[..i + 1][..i] == items[..i];
  }

  /**
   * Where item `k`'s piece sits in the fold: the pieces of the items before
   * it come first, and `f(items[k])` starts exactly where they end.
   */
  lemma ConcatMapBlockAt<T>(items: seq<T>, f: T -> string, k: nat)
    requires k < |items|
    ensures |ConcatMap(items[..k], f)| + |f(items[k])| <= |ConcatMap(items, f)|
    ensures ConcatMap(items, f)[..|ConcatMap(items[..k], f)|] == ConcatMap(items[..k], f)
    ensures ConcatMap(items, f)[|ConcatMap(items[..k], f)|..|ConcatMap(items[..k], f)| + |f(items[k])|] == f(items[k])
  {
    assert items == items[..k + 1] + items[k + 1..];
    ConcatMapAppend(items[..k + 1], items[k + 1..], f);
    ConcatMapStep(items, k, f);
  }

  lemma MapSeqStep<T, U>(items: seq<T>, i: nat, f: T -> U)
    requires i < |items|
    ensures MapSeq(items[..i + 1], f) == MapSeq(items[..i], f) + [f(items[i])]
  {
  }

  /** A loop that appends `f(items[i])` to a text already holding `heading` and the first `i` pieces keeps that form. */
  lemma FoldStep<T>(heading: string, items: seq<T>, i: nat, f: T -> string, text: string)
    requires i < |items| && text == heading + ConcatMap(items[..i], f)
    ensures text + f(items[i]) == heading + ConcatMap(items[..i + 1], f)
  {
    ConcatMapStep(items, i, f);
    AppendAssoc(heading, ConcatMap(items[..i], f), f(items[i]));
  }

  /** A loop that appends `g(items[i])` to a list already holding `start` and the first `i` images keeps that form. */
  lemma MapStep<T, U>(start: seq<U>, items: seq<T>, i: nat, g: T -> U, acc: seq<U>)
    requires i < |items| && acc == start + MapSeq(items[..i], g)
    ensures acc + [g(items[i])] == start + MapSeq(items[..i + 1], g)
  {
    MapSeqStep(items, i, g);
    AppendAssoc(start, MapSeq(items[..i], g), [g(items[i])]);
  }

  /** `y` is in `[f(x) for x in items]` exactly when some item maps to it. */
  lemma MapSeqMember<T, U>(items: seq<T>, f: T -> U, y: U)
    ensures y in MapSeq(items, f) <==> exists x :: x in items && f(x) == y
  {
    var r := MapSeq(items, f);
    if y in r {
      var i :| 0 <= i < |r| && r[i] == y;
      assert items[i] in items && f(items[i]) == y;
    }
    if exists x :: x in items && f(x) == y {
      var x :| x in items && f(x) == y;
      var i :| 0 <= i < |items| && items[i] == x;
      assert r[i] == y;
    }
  }

  lemma EmptyAppend<T>(b: seq<T>)
    ensures [] + b == b
  {
  }

  lemma AppendAssoc<T>(a: seq<T>, b: seq<T>, c: seq<T>)
    ensures a + b + c == a + (b + c)
  {
  }

  /** The characters Python's `str.isspace()` accepts; `str.strip()` and the regex class `\s` use the same set. */
  predicate IsSpace(c: char)
  {
    c == ' ' || c == '\t' || c == '\n' || c == '\r' || c == '\U{000B}' || c == '\U{000C}'
    || ('\U{001C}' <= c <= '\U{001F}') || c == '\U{0085}' || c == '\U{00A0}' || c == '\U{1680}'
    || ('\U{2000}' <= c <= '\U{200A}') || c == '\U{2028}' || c == '\U{2029}' || c == '\U{202F}'
    || c == '\U{205F}' || c == '\U{3000}'
  }

  /** How many whitespace characters `s` starts with. */
  function LeadingSpaces(s: string): (n: nat)
    ensures n <= |s|
    ensures forall k :: 0 <= k < n ==> IsSpace(s[k])
    ensures n < |s| ==> !IsSpace(s[n])
  {
    if |s| > 0 && IsSpace(s[0]) then 1 + LeadingSpaces(s[1..]) else 0
  }

  /** Python's `s.lstrip()`. */
  function LStrip(s: string): (r: string)
    ensures |r| <= |s| && r == s[|s| - |r|..]
    ensures r == [] || !IsSpace(r[0])
    ensures forall i :: 0 <= i < |s| - |r| ==> IsSpace(s[i])
    ensures |s| - |r| == LeadingSpaces(s)
  {
    if |s| > 0 && IsSpace(s[0]) then LStrip(s[1..]) else s
  }

  /** Python's `s.rstrip()`. */
  function RStrip(s: string): (r: string)
    ensures |r| <= |s| && r == s[..|r|]
    ensures r == [] || !IsSpace(r[|r| - 1])
    ensures forall i :: |r| <= i < |s| ==> IsSpace(s[i])
  {
    if |s| > 0 && IsSpace(s[|s| - 1]) then RStrip(s[..|s| - 1]) else s
  }

  /** A prefix `r` of the suffix `s[i..]`, followed there only by elements satisfying `p`, is a slice of `s` followed only by such elements. */
  lemma PrefixOfSuffix<T>(s: seq<T>, i: nat, r: seq<T>, p: T -> bool)
    requires i <= |s| && |r| <= |s| - i && r == s[i..][..|r|]
    requires forall j :: |r| <= j < |s| - i ==> p(s[i..][j])
    ensures r == s[i..i + |r|]
    ensures forall k :: i + |r| <= k < |s| ==> p(s[k])
  {
    forall k | i + |r| <= k < |s| ensures p(s[k]) {
      assert s[k] == s[i..][k - i];
    }
  }

  /**
   * Python's `s.strip()`: `s` without its leading and trailing whitespace.
   * The result is the slice of `s` that starts after the leading whitespace
   * and is followed only by whitespace, so nothing inside it is removed.
   */
  function Strip(s: string): (r: string)
    ensures |r| <= |s|
    ensures r == [] || (!IsSpace(r[0]) && !IsSpace(r[|r| - 1]))
    ensures LeadingSpaces(s) + |r| <= |s| && r == s[LeadingSpaces(s)..LeadingSpaces(s) + |r|]
    ensures forall k :: LeadingSpaces(s) + |r| <= k < |s| ==> IsSpace(s[k])
  {
    var l := LStrip(s);
    var i := |s| - |l|;
    var r := RStrip(l);
    PrefixOfSuffix(s, i, r, IsSpace);
    r
  }

  /** Python's `s.split(c)` for a one-character separator. */
  function SplitChar(s: string, c: char): (r: seq<string>)
    ensures |r| >= 1
    ensures forall i :: 0 <= i < |r| ==> c !in r[i]
  {
    if |s| == 0 then [""]
    else if s[0] == c then [""] + SplitChar(s[1..], c)
    else
      var rest := SplitChar(s[1..], c);
      [[s[0]] + rest[0]] + rest[1..]
  }

  /** Splitting at `c` and joining with `c` gives back the original text. */
  lemma {:induction false} SplitCharJoin(s: string, c: char)
    ensures Join([c], SplitChar(s, c)) == s
  {
    if |s| > 0 {
      SplitCharJoin(s[1..], c);
      var rest := SplitChar(s[1..], c);
      if s[0] == c {
        assert ([""] + rest)[1..] == rest;
      } else {
        if |rest| > 1 {
          assert ([[s[0]] + rest[0]] + rest[1..])[1..] == rest[1..];
          assert Join([c], rest) == rest[0] + [c] + Join([c], rest[1..]);
        }
      }
    }
  }

  /** `s.split(c)` has one more piece than `s` has occurrences of `c`. */
  lemma {:induction false} SplitCharCount(s: string, c: char)
    ensures |SplitChar(s, c)| == multiset(s)[c] + 1
  {
    if |s| > 0 {
      SplitCharCount(s[1..], c);
      assert s == [s[0]] + s[1..];
      assert multiset(s) == multiset([s[0]]) + multiset(s[1..]);
    }
  }

  /** `pat` occurs in `s` starting at index `k`. */
  predicate OccursAt(s: string, pat: string, k: nat)
  {
    k + |pat| <= |s| && s[k..k + |pat|] == pat
  }

  /** The first index at or after `from` where `pat` occurs in `s`. */
  function IndexOfFrom(s: string, pat: string, from: nat): (r: Option<nat>)
    ensures r.Some? ==> from <= r.value && OccursAt(s, pat, r.value)
    ensures r.Some? ==> forall j: nat :: from <= j < r.value ==> !OccursAt(s, pat, j)
    ensures r.None? ==> forall j: nat :: from <= j ==> !OccursAt(s, pat, j)
    decreases |s| - from
  {
    if from + |pat| > |s| then None
    else if s[from..from + |pat|] == pat then Some(from)
    else IndexOfFrom(s, pat, from + 1)
  }

  /** The leftmost occurrence of `pat` in `s`, as `re.search` finds a literal label. */
  function IndexOf(s: string, pat: string): (r: Option<nat>)
    ensures r.Some? ==> OccursAt(s, pat, r.value)
    ensures r.Some? ==> forall j: nat :: j < r.value ==> !OccursAt(s, pat, j)
    ensures r.None? ==> forall j: nat :: !OccursAt(s, pat, j)
  {
    IndexOfFrom(s, pat, 0)
  }

  function Digit(d: nat): (c: char)
    requires d < 10
    ensures '0' <= c <= '9'
  {
    ['0', '1', '2', '3', '4', '5', '6', '7', '8', '9'][d]
  }

  /** Python's `str(n)` for a non-negative integer. */
  function NatToString(n: nat): (r: string)
    ensures |r| >= 1
  {
    if n < 10 then [Digit(n)] else NatToString(n / 10) + [Digit(n % 10)]
  }

  /** `str(n)` is made of decimal digits only. */
  lemma {:induction false} NatToStringDigits(n: nat)
    ensures forall i :: 0 <= i < |NatToString(n)| ==> '0' <= NatToString(n)[i] <= '9'
  {
    if n >= 10 {
      NatToStringDigits(n / 10);
    }
  }

  /** Python's `str(i)`. */
  function IntToString(i: int): string
  {
    if i < 0 then "-" + NatToString(-i) else NatToString(i)
  }

  /** How an f-string renders an `Optional[str]`: the text, or `None`. */
  function ShowOpt(o: Option<string>): string
  {
    match o
    case Some(s) => s
    case None => "None"
  }

  /** How an f-string renders a `bool`. */
  function ShowBool(b: bool): string
  {
    if b then "True" else "False"
  }
}
