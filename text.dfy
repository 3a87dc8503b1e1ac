/**
 * The JavaScript string operations the converter relies on, stated over
 * `string` (a sequence of characters): `toLowerCase`, `trim`, `split` on a
 * run of separators (`/\s+/`, `/[\s,]+/`) or on a literal separator (`"\n"`,
 * `"\n\n"`), `join`, `startsWith`, `includes`, `slice`, and the punctuation
 * filter `replace(/[.,\/#!$%\^&\*;:{}=\-_`~()]/g, "")`.
 */
module Text {
  import opened Wrappers

  /** The characters that JavaScript's `\s` matches; `trim` removes the same set. */
  predicate IsWhitespace(c: char) {
    var n := c as int;
    if n <= 0x20 then n == 0x20 || 0x09 <= n <= 0x0D
    else if n < 0xA0 then false
    else (n == 0xA0 || n == 0x1680 || 0x2000 <= n <= 0x200A || n == 0x2028
      || n == 0x2029 || n == 0x202F || n == 0x205F || n == 0x3000 || n == 0xFEFF)
  }

  /** The punctuation class that is removed from a word before a dictionary lookup. */
  predicate IsPunctuation(c: char) {
    c in ".,/#!$%^&*;:{}=-_`~()"
  }

  /** The two separator classes the source splits on: `/\s+/` and `/[\s,]+/`. */
  datatype Separators = Whitespace | WhitespaceOrComma

  predicate IsSeparator(k: Separators, c: char) {
    IsWhitespace(c) || (k == WhitespaceOrComma && c == ',')
  }

  predicate NoSeparator(k: Separators, s: string) {
    forall i :: 0 <= i < |s| ==> !IsSeparator(k, s[i])
  }

  /** No whitespace in `s`, written recursively so that it unfolds on literals. */
  predicate FreeOfWhitespace(s: string) {
    s == [] || (!IsWhitespace(s[0]) && FreeOfWhitespace(s[1..]))
  }

  lemma {:induction false} FreeOfWhitespaceMeans(s: string)
    ensures FreeOfWhitespace(s) <==> NoSeparator(Whitespace, s)
  {
    if s != [] {
      FreeOfWhitespaceMeans(s[1..]);
      assert forall i :: 1 <= i < |s| ==> s[i] == s[1..][i - 1];
    }
  }

  /** Case mapping of `toLowerCase`, for the ASCII letters. */
  function LowerChar(c: char): char {
    if 'A' <= c <= 'Z' then (c as int + 32) as char else c
  }

  function ToLower(s: string): string {
    seq(|s|, i requires 0 <= i < |s| => LowerChar(s[i]))
  }

  function StripPunctuation(s: string): string {
    if s == [] then []
    else (if IsPunctuation(s[0]) then [] else [s[0]]) + StripPunctuation(s[1..])
  }

  // ---------------------------------------------------------------------------
  // trim

  /** Number of whitespace characters at the start of `s`. */
  function LeadingSpace(s: string): (n: nat)
    ensures n <= |s|
  {
    if s != [] && IsWhitespace(s[0]) then 1 + LeadingSpace(s[1..]) else 0
  }

  /** Number of whitespace characters at the end of `s`. */
  function TrailingSpace(s: string): (n: nat)
    ensures n <= |s|
  {
    if s != [] && IsWhitespace(s[|s| - 1]) then 1 + TrailingSpace(s[..|s| - 1]) else 0
  }

  lemma {:induction false} LeadingSpaceMeans(s: string)
    ensures forall i :: 0 <= i < LeadingSpace(s) ==> IsWhitespace(s[i])
    ensures LeadingSpace(s) < |s| ==> !IsWhitespace(s[LeadingSpace(s)])
  {
    if s != [] && IsWhitespace(s[0]) {
      LeadingSpaceMeans(s[1..]);
      assert forall i :: 1 <= i < |s| ==> s[i] == s[1..][i - 1];
    }
  }

  lemma {:induction false} TrailingSpaceMeans(s: string)
    ensures forall i :: |s| - TrailingSpace(s) <= i < |s| ==> IsWhitespace(s[i])
    ensures TrailingSpace(s) < |s| ==> !IsWhitespace(s[|s| - 1 - TrailingSpace(s)])
  {
    if s != [] && IsWhitespace(s[|s| - 1]) {
      TrailingSpaceMeans(s[..|s| - 1]);
      assert forall i :: 0 <= i < |s| - 1 ==> s[i] == s[..|s| - 1][i];
    }
  }

  /** `s.trim()`: whitespace removed at both ends. */
  function Trim(s: string): string {
    var t := s[LeadingSpace(s)..];
    t[..|t| - TrailingSpace(t)]
  }

  /** The trim is empty exactly for an all-whitespace input, and otherwise
      starts and ends with a non-whitespace character. */
  lemma TrimMeans(s: string)
    ensures Trim(s) == [] <==> forall i :: 0 <= i < |s| ==> IsWhitespace(s[i])
    ensures Trim(s) != [] ==> !IsWhitespace(Trim(s)[0]) && !IsWhitespace(Trim(s)[|Trim(s)| - 1])
  {
    var n := LeadingSpace(s);
    var t := s[n..];
    var m := TrailingSpace(t);
    LeadingSpaceMeans(s);
    TrailingSpaceMeans(t);
    if n == |s| {
      assert forall i :: 0 <= i < |s| ==> IsWhitespace(s[i]);
    } else {
      assert !IsWhitespace(s[n]);
      assert !IsWhitespace(t[0]);
      assert m < |t|;
      assert Trim(s)[0] == s[n];
      assert Trim(s)[|Trim(s)| - 1] == t[|t| - 1 - m];
    }
  }

  /** JavaScript's falsy test `!s.trim()`. */
  predicate IsBlank(s: string) {
    Trim(s) == ""
  }

  // ---------------------------------------------------------------------------
  // startsWith, includes, slice

  predicate StartsWith(s: string, prefix: string) {
    |prefix| <= |s| && s[..|prefix|] == prefix
  }

  /** `s.includes(sub)`: `sub` occurs somewhere in `s` (the empty string occurs everywhere). */
  predicate Includes(s: string, sub: string) {
    IndexOf(s, sub).Some?
  }

  /** `s.slice(0, n)`. */
  function Prefix(s: string, n: nat): (r: string)
    ensures |r| == if |s| <= n then |s| else n
    ensures StartsWith(s, r)
  {
    if |s| <= n then s else s[..n]
  }

  // ---------------------------------------------------------------------------
  // join

  /** `parts.join(sep)`. */
  function Join(parts: seq<string>, sep: string): string {
    if |parts| == 0 then ""
    else if |parts| == 1 then parts[0]
    else parts[0] + sep + Join(parts[1..], sep)
  }

  lemma {:induction false} JoinNoSeparator(k: Separators, parts: seq<string>, sep: string)
    requires forall i :: 0 <= i < |parts| ==> NoSeparator(k, parts[i])
    requires NoSeparator(k, sep)
    ensures NoSeparator(k, Join(parts, sep))
  {
    if |parts| > 1 {
      JoinNoSeparator(k, parts[1..], sep);
      var t := Join(parts[1..], sep);
      var s := parts[0] + sep + t;
      forall i | 0 <= i < |s| ensures !IsSeparator(k, s[i]) {
        if i < |parts[0]| {
          assert s[i] == parts[0][i];
        } else if i < |parts[0]| + |sep| {
          assert s[i] == sep[i - |parts[0]|];
        } else {
          assert s[i] == t[i - |parts[0]| - |sep|];
        }
      }
    }
  }

  lemma {:induction false} JoinStartsWithFirst(parts: seq<string>, sep: string)
    requires |parts| > 0
    ensures StartsWith(Join(parts, sep), parts[0])
  {
  }

  /** With the empty separator, joining is concatenation from the front. */
  lemma JoinEmptySeparator(ps: seq<string>)
    requires ps != []
    ensures Join(ps, "") == ps[0] + Join(ps[1..], "")
  {
    if |ps| == 1 {
      assert ps[0] + "" == ps[0];
    }
  }

  /** `join("")` distributes over appending runs of parts: the text of two runs
      is the text of the first followed by that of the second. */
  lemma {:induction false} JoinEmptyAppend(a: seq<string>, b: seq<string>)
    ensures Join(a + b, "") == Join(a, "") + Join(b, "")
    decreases |a|
  {
    if a == [] {
      assert a + b == b;
    } else {
      JoinEmptySeparator(a + b);
      assert (a + b)[1..] == a[1..] + b;
      JoinEmptyAppend(a[1..], b);
      JoinEmptySeparator(a);
    }
  }

  /** A join is empty only when it has one part and that part is empty: two or
      more parts bring the separator along. */
  lemma JoinNotEmpty(parts: seq<string>, sep: string)
    requires sep != []
    requires |parts| >= 2 || (|parts| == 1 && parts[0] != [])
    ensures Join(parts, sep) != []
  {
  }

  // ---------------------------------------------------------------------------
  // split on runs of separators: text.split(/\s+/) and text.split(/[\s,]+/)

  /** Index of the first separator of `s`, or `|s|` when there is none. */
  function FirstSeparator(k: Separators, s: string): (i: nat)
    ensures i <= |s|
    ensures forall j :: 0 <= j < i ==> !IsSeparator(k, s[j])
    ensures i < |s| ==> IsSeparator(k, s[i])
  {
    if s == [] || IsSeparator(k, s[0]) then 0 else 1 + FirstSeparator(k, s[1..])
  }

  /** Length of the run of separators at the start of `s`. */
  function RunLength(k: Separators, s: string): (n: nat)
    ensures n <= |s|
    ensures forall j :: 0 <= j < n ==> IsSeparator(k, s[j])
    ensures n < |s| ==> !IsSeparator(k, s[n])
  {
    if s != [] && IsSeparator(k, s[0]) then 1 + RunLength(k, s[1..]) else 0
  }

  /** `s.split(/sep+/)`: the pieces between maximal runs of separators. A leading
      or trailing run yields an empty first or last piece; `""` yields `[""]`. */
  function SplitRuns(k: Separators, s: string): (r: seq<string>)
    ensures |r| >= 1
    decreases |s|
  {
    var i := FirstSeparator(k, s);
    if i == |s| then [s]
    else
      var rest := s[i..];
      var n := RunLength(k, rest);
      [s[..i]] + SplitRuns(k, rest[n..])
  }

  /** A split into one piece leaves the text whole. */
  lemma SplitRunsSingle(k: Separators, s: string)
    ensures |SplitRuns(k, s)| == 1 ==> SplitRuns(k, s)[0] == s
  {
  }

  /** What `split(/sep+/)` produces: at least one piece, no piece holds a
      separator, and only the first and the last piece can be empty. */
  predicate SplitShaped(k: Separators, ps: seq<string>) {
    && |ps| >= 1
    && (forall i :: 0 <= i < |ps| ==> NoSeparator(k, ps[i]))
    && (forall i :: 0 < i < |ps| - 1 ==> ps[i] != "")
  }

  lemma {:induction false} SplitRunsShaped(k: Separators, s: string)
    ensures SplitShaped(k, SplitRuns(k, s))
    decreases |s|
  {
    var i := FirstSeparator(k, s);
    if i < |s| {
      var rest := s[i..];
      var n := RunLength(k, rest);
      var tail := rest[n..];
      SplitRunsShaped(k, tail);
      var ps := SplitRuns(k, s);
      assert ps == [s[..i]] + SplitRuns(k, tail);
      assert NoSeparator(k, s[..i]) by {
        forall j | 0 <= j < i ensures !IsSeparator(k, s[..i][j]) {
          assert s[..i][j] == s[j];
        }
      }
      if tail != [] {
        assert !IsSeparator(k, tail[0]);
        SplitRunsFirstPiece(k, tail);
      }
    }
  }

  /** A text that starts with a non-separator has a non-empty first piece. */
  lemma {:induction false} SplitRunsFirstPiece(k: Separators, s: string)
    requires s != [] && !IsSeparator(k, s[0])
    ensures SplitRuns(k, s)[0] != ""
  {
    assert FirstSeparator(k, s) > 0;
  }

  lemma SplitShapedTail(k: Separators, ps: seq<string>)
    requires SplitShaped(k, ps) && |ps| >= 2
    ensures SplitShaped(k, ps[1..])
  {
    assert forall i :: 0 <= i < |ps| - 1 ==> ps[1..][i] == ps[i + 1];
  }

  /** A separator-free piece, one space, then text that does not start with a
      separator: the piece comes off as the first element. */
  lemma SplitRunsCons(k: Separators, a: string, t: string)
    requires NoSeparator(k, a)
    requires t == [] || !IsSeparator(k, t[0])
    ensures SplitRuns(k, a + " " + t) == [a] + SplitRuns(k, t)
  {
    var s := a + " " + t;
    var i := |a|;
    forall j | 0 <= j < i ensures !IsSeparator(k, s[j]) {
      assert s[j] == a[j];
    }
    assert s[i] == ' ';
    assert FirstSeparator(k, s) == i;
    var rest := s[i..];
    assert rest == " " + t;
    assert rest[1..] == t;
    assert RunLength(k, rest) == 1;
    assert s[..i] == a;
    SplitRunsStep(k, s);
  }

  /** The first step of the split, as an equation. */
  lemma SplitRunsStep(k: Separators, s: string)
    requires FirstSeparator(k, s) < |s|
    ensures var i := FirstSeparator(k, s);
      SplitRuns(k, s) == [s[..i]] + SplitRuns(k, s[i..][RunLength(k, s[i..])..])
  {
  }

  /** Joining split-shaped pieces with one space and splitting again gives
      back the pieces: `Join(ps, " ").split(/\s+/)` is `ps`. */
  lemma {:induction false} SplitRunsJoin(k: Separators, ps: seq<string>)
    requires SplitShaped(k, ps)
    ensures SplitRuns(k, Join(ps, " ")) == ps
    decreases |ps|
  {
    if |ps| == 1 {
      assert FirstSeparator(k, ps[0]) == |ps[0]|;
    } else {
      var t := Join(ps[1..], " ");
      JoinCons(ps, " ");
      JoinedRestStart(k, ps);
      SplitRunsCons(k, ps[0], t);
      SplitShapedTail(k, ps);
      SplitRunsJoin(k, ps[1..]);
      assert ps == [ps[0]] + ps[1..];
    }
  }

  /** A join of two or more parts is the first part, the separator and the
      join of the rest. */
  lemma JoinCons(parts: seq<string>, sep: string)
    requires |parts| >= 2
    ensures Join(parts, sep) == parts[0] + sep + Join(parts[1..], sep)
  {
  }

  /** After the first piece, the joined rest is empty or starts with a
      non-separator. */
  lemma JoinedRestStart(k: Separators, ps: seq<string>)
    requires SplitShaped(k, ps) && |ps| >= 2
    ensures var t := Join(ps[1..], " "); t == [] || !IsSeparator(k, t[0])
  {
    var t := Join(ps[1..], " ");
    if ps[1] != "" {
      JoinStartsWithFirst(ps[1..], " ");
      assert ps[1..][0] == ps[1];
      assert t[0] == ps[1][0];
      assert NoSeparator(k, ps[1]);
    } else {
      assert |ps| == 2;
      assert ps[1..] == [ps[1]];
    }
  }

  // ---------------------------------------------------------------------------
  // split on a literal separator: text.split("\n") and chunk.split("\n\n")

  /** Position of the first occurrence of `sep` in `s`, if any. */
  function IndexOf(s: string, sep: string): (r: Option<nat>)
    ensures r.Some? ==> r.value + |sep| <= |s|
    decreases |s|
  {
    if StartsWith(s, sep) then Some(0)
    else if s == [] then None
    else
      match IndexOf(s[1..], sep)
      case Some(i) => Some(i + 1)
      case None => None
  }

  /** `IndexOf` finds the first occurrence, and finds none only when there is none. */
  lemma {:induction false} IndexOfMeans(s: string, sep: string)
    ensures IndexOf(s, sep).Some? ==> StartsWith(s[IndexOf(s, sep).value..], sep)
    ensures IndexOf(s, sep).Some? ==> forall j :: 0 <= j < IndexOf(s, sep).value ==> !StartsWith(s[j..], sep)
    ensures IndexOf(s, sep).None? ==> forall j :: 0 <= j <= |s| ==> !StartsWith(s[j..], sep)
    decreases |s|
  {
    if !StartsWith(s, sep) && s != [] {
      IndexOfMeans(s[1..], sep);
      match IndexOf(s[1..], sep)
      case Some(i) =>
        assert s[i + 1..] == s[1..][i..];
        assert forall j :: 1 <= j <= i ==> s[j..] == s[1..][j - 1..];
      case None =>
        assert forall j :: 1 <= j <= |s| ==> s[j..] == s[1..][j - 1..];
    }
  }

  /** A separator whose first character does not occur in `s` does not occur in `s`. */
  lemma {:induction false} IndexOfAbsentHead(s: string, sep: string)
    requires sep != [] && sep[0] !in s
    ensures IndexOf(s, sep).None?
  {
    if s != [] {
      assert s[0] != sep[0];
      assert !StartsWith(s, sep);
      IndexOfAbsentHead(s[1..], sep);
    }
  }

  /** An occurrence with none before it is the one `IndexOf` finds. */
  lemma IndexOfFirst(s: string, sep: string, n: nat)
    requires n <= |s| && StartsWith(s[n..], sep)
    requires forall j :: 0 <= j < n ==> !StartsWith(s[j..], sep)
    ensures IndexOf(s, sep) == Some(n)
  {
    IndexOfMeans(s, sep);
  }

  /** `s.split(sep)` for a non-empty literal separator: the pieces between the
      occurrences of `sep`, found from left to right without overlapping. */
  function SplitOn(s: string, sep: string): (r: seq<string>)
    requires sep != ""
    ensures |r| >= 1
    decreases |s|
  {
    match IndexOf(s, sep)
    case None => [s]
    case Some(i) => [s[..i]] + SplitOn(s[i + |sep|..], sep)
  }

  /** Splitting on a single character yields pieces that do not contain it. */
  /** A literal split into one piece leaves the text whole. */
  lemma SplitOnSingle(s: string, sep: string)
    requires sep != ""
    ensures |SplitOn(s, sep)| == 1 ==> SplitOn(s, sep)[0] == s
  {
  }

  lemma {:induction false} SplitOnPiecesLackSeparator(s: string, c: char)
    ensures forall i :: 0 <= i < |SplitOn(s, [c])| ==> c !in SplitOn(s, [c])[i]
    decreases |s|
  {
    IndexOfMeans(s, [c]);
    match IndexOf(s, [c])
    case None =>
      forall j | 0 <= j < |s| ensures s[j] != c {
        assert !StartsWith(s[j..], [c]);
      }
    case Some(i) =>
      forall j | 0 <= j < i ensures s[j] != c {
        assert !StartsWith(s[j..], [c]);
      }
      SplitOnPiecesLackSeparator(s[i + 1..], c);
  }

  /** Joining pieces that lack `c` with `c` and splitting on `c` gives them back. */
  lemma {:induction false} SplitOnJoin(ps: seq<string>, c: char)
    requires |ps| >= 1
    requires forall i :: 0 <= i < |ps| ==> c !in ps[i]
    ensures SplitOn(Join(ps, [c]), [c]) == ps
    decreases |ps|
  {
    var s := Join(ps, [c]);
    if |ps| == 1 {
      IndexOfAbsentHead(s, [c]);
    } else {
      var t := Join(ps[1..], [c]);
      assert s == ps[0] + [c] + t;
      var n := |ps[0]|;
      assert StartsWith(s[n..], [c]);
      forall j | 0 <= j < n ensures !StartsWith(s[j..], [c]) {
        assert s[j] == ps[0][j];
      }
      IndexOfFirst(s, [c], n);
      assert s[n + 1..] == t;
      assert s[..n] == ps[0];
      assert SplitOn(s, [c]) == [ps[0]] + SplitOn(t, [c]);
      SplitOnJoin(ps[1..], c);
      assert ps == [ps[0]] + ps[1..];
    }
  }
}
