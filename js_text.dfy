/** The JavaScript string operations the bot relies on, stated over `seq<char>`:
    `trim` and the `\s` class of regular expressions, `split` on one character,
    `replace` with a string pattern (first occurrence only), `split(pattern)[1]`,
    `length` counted in UTF-16 code units, and truthiness of an optional string. */
module JsText {
  import opened Wrappers

  /** WhiteSpace and LineTerminator of ECMA-262: what `trim` strips and `\s` matches. */
  predicate IsJsSpace(c: char) {
    var n := c as int;
    (9 <= n <= 13) || n == 0x20 || n == 0xA0 || n == 0x1680 || (0x2000 <= n <= 0x200A)
    || n == 0x2028 || n == 0x2029 || n == 0x202F || n == 0x205F || n == 0x3000 || n == 0xFEFF
  }

  /** A JavaScript value `v` used as a condition (`if (v)`, `v || w`): an absent or empty string is false. */
  predicate Truthy(s: Option<string>) {
    s.Some? && s.value != ""
  }

  /** Number of leading white-space characters. */
  function LeadingSpaces(s: string): (n: nat)
    ensures n <= |s|
    ensures forall k :: 0 <= k < n ==> IsJsSpace(s[k])
    ensures n < |s| ==> !IsJsSpace(s[n])
  {
    if s == [] || !IsJsSpace(s[0]) then 0 else 1 + LeadingSpaces(s[1..])
  }

  /** Number of trailing white-space characters. */
  function TrailingSpaces(s: string): (n: nat)
    ensures n <= |s|
    ensures forall k :: |s| - n <= k < |s| ==> IsJsSpace(s[k])
    ensures n < |s| ==> !IsJsSpace(s[|s| - 1 - n])
  {
    if s == [] || !IsJsSpace(s[|s| - 1]) then 0 else 1 + TrailingSpaces(s[..|s| - 1])
  }

  /** `r` is `s` with `i` characters of white space cut from the front and only
      white space cut from the back. */
  predicate StripsTo(s: string, i: nat, r: string) {
    i + |r| <= |s| && r == s[i..i + |r|]
    && (forall k :: 0 <= k < i ==> IsJsSpace(s[k]))
    && (forall k :: i + |r| <= k < |s| ==> IsJsSpace(s[k]))
  }

  /** `s.trim()`: the longest factor of `s` that neither starts nor ends with white space. */
  function Trim(s: string): (r: string)
    ensures |r| <= |s|
    ensures r != [] ==> !IsJsSpace(r[0]) && !IsJsSpace(r[|r| - 1])
    ensures exists i: nat :: StripsTo(s, i, r)
  {
    var i := LeadingSpaces(s);
    var rest := s[i..];
    var j := TrailingSpaces(rest);
    var r := rest[..|rest| - j];
    assert r == s[i..i + |r|];
    assert StripsTo(s, i, r);
    r
  }

  /** Trimming twice is trimming once. */
  lemma TrimIdempotent(s: string)
    ensures Trim(Trim(s)) == Trim(s)
  {
    var t := Trim(s);
    assert LeadingSpaces(t) == 0;
    assert TrailingSpaces(t) == 0;
  }

  /** Number of UTF-16 code units of `s` (`s.length` in JavaScript): a character
      outside the Basic Multilingual Plane is a surrogate pair. */
  function Utf16Length(s: string): (n: nat)
    ensures |s| <= n <= 2 * |s|
    ensures (forall k :: 0 <= k < |s| ==> s[k] as int <= 0xFFFF) ==> n == |s|
  {
    if s == [] then 0 else (if s[0] as int > 0xFFFF then 2 else 1) + Utf16Length(s[1..])
  }

  /** `s.split(sep)` for a one-character separator. */
  function Split(s: string, sep: char): (parts: seq<string>)
    ensures |parts| >= 1
    ensures forall k :: 0 <= k < |parts| ==> sep !in parts[k]
    decreases |s|
  {
    if sep !in s then [s]
    else
      var i := IndexOfChar(s, sep);
      [s[..i]] + Split(s[i + 1..], sep)
  }

  /** Position of the first occurrence of `c` in `s`. */
  function IndexOfChar(s: string, c: char): (i: nat)
    requires c in s
    ensures i < |s| && s[i] == c && c !in s[..i]
  {
    if s[0] == c then 0 else 1 + IndexOfChar(s[1..], c)
  }

  /** `parts.join(sep)`. */
  function Join(parts: seq<string>, sep: char): string
  {
    if |parts| <= 1 then (if parts == [] then "" else parts[0])
    else parts[0] + [sep] + Join(parts[1..], sep)
  }

  /** Joining the pieces of a split with the same separator gives back the string. */
  lemma {:induction false} JoinSplit(s: string, sep: char)
    ensures Join(Split(s, sep), sep) == s
    decreases |s|
  {
    if sep in s {
      var i := IndexOfChar(s, sep);
      JoinSplit(s[i + 1..], sep);
      assert s == s[..i] + [sep] + s[i + 1..];
    }
  }

  /** `pat` occurs in `s` at position `k`. */
  predicate OccursAt(s: string, pat: string, k: nat) {
    k + |pat| <= |s| && s[k..k + |pat|] == pat
  }

  /** An occurrence past the first character is an occurrence in the tail. */
  lemma OccursAtTail(s: string, pat: string, k: nat)
    requires 1 <= k && s != []
    ensures OccursAt(s, pat, k) == OccursAt(s[1..], pat, k - 1)
  {
    if k + |pat| <= |s| {
      var a, b := s[k..k + |pat|], s[1..][k - 1..k - 1 + |pat|];
      forall t | 0 <= t < |pat| ensures a[t] == b[t] {
        assert b[t] == s[k + t];
      }
      assert a == b;
    }
  }

  /** An occurrence in a prefix is an occurrence in the whole text. */
  lemma OccursInPrefix(s: string, j: nat, pat: string, k: nat)
    requires j <= |s| && OccursAt(s[..j], pat, k)
    ensures OccursAt(s, pat, k) && k + |pat| <= j
  {
    var a, b := s[..j][k..k + |pat|], s[k..k + |pat|];
    forall t | 0 <= t < |pat| ensures a[t] == b[t] {
      assert a[t] == s[k + t];
    }
    assert a == b;
  }

  /** Position of the first occurrence of a non-empty `pat` in `s` (`s.indexOf(pat)`). */
  function IndexOf(s: string, pat: string): (r: Option<nat>)
    requires pat != []
    ensures r.Some? ==> OccursAt(s, pat, r.value)
    ensures r.Some? ==> forall k: nat :: k < r.value ==> !OccursAt(s, pat, k)
    ensures r.None? ==> forall k: nat :: !OccursAt(s, pat, k)
    decreases |s|
  {
    if |s| < |pat| then None
    else if s[..|pat|] == pat then Some(0)
    else
      var r := IndexOf(s[1..], pat);
      forall k: nat | 1 <= k ensures OccursAt(s, pat, k) == OccursAt(s[1..], pat, k - 1) {
        OccursAtTail(s, pat, k);
      }
      match r
      case None => None
      case Some(j) => Some(j + 1)
  }

  /** `s.replace(pat, rep)` with a string pattern: only the first occurrence is replaced. */
  function ReplaceFirst(s: string, pat: string, rep: string): (r: string)
    requires pat != []
    ensures IndexOf(s, pat).None? ==> r == s
    ensures IndexOf(s, pat).Some? ==>
              var i := IndexOf(s, pat).value; r == s[..i] + rep + s[i + |pat|..]
  {
    match IndexOf(s, pat)
    case None => s
    case Some(i) => s[..i] + rep + s[i + |pat|..]
  }

  /** `s.split(pat)[1]`: the text between the first and the second occurrence of
      `pat` (or the end of `s`); `undefined` when `pat` does not occur. */
  function SecondPiece(s: string, pat: string): (r: Option<string>)
    requires pat != []
    ensures r.None? <==> IndexOf(s, pat).None?
    ensures r.Some? ==> PieceOf(s[IndexOf(s, pat).value + |pat|..], pat, r.value)
  {
    match IndexOf(s, pat)
    case None => None
    case Some(i) =>
      var rest := s[i + |pat|..];
      var piece := FirstPiece(rest, pat);
      Some(piece)
  }

  /** `piece` is a prefix of `after` without `pat` in it, and it runs to the end of
      `after` or up to an occurrence of `pat`. */
  ghost predicate PieceOf(after: string, pat: string, piece: string) {
    && piece <= after
    && (forall k: nat :: !OccursAt(piece, pat, k))
    && (piece == after || OccursAt(after, pat, |piece|))
  }

  /** `s.split(pat)[0]`: the text before the first occurrence of `pat`, or all of `s`. */
  function FirstPiece(s: string, pat: string): (piece: string)
    requires pat != []
    ensures PieceOf(s, pat, piece)
  {
    match IndexOf(s, pat)
    case None => s
    case Some(j) =>
      forall k: nat | OccursAt(s[..j], pat, k) ensures false {
        OccursInPrefix(s, j, pat, k);
      }
      s[..j]
  }

  /** How JavaScript renders an optional string inside a template literal. */
  function Render(s: Option<string>): string
  {
    match s
    case None => "undefined"
    case Some(v) => v
  }

  /** Decimal rendering of a natural number, as `${n}` does. */
  function NatToString(n: nat): (r: string)
    ensures r != []
    ensures forall k :: 0 <= k < |r| ==> '0' <= r[k] <= '9'
  {
    var d := ['0' + (n % 10) as char];
    if n < 10 then d else NatToString(n / 10) + d
  }

  /** The number a string of decimal digits denotes. */
  function DigitsValue(s: string): nat
    requires forall k :: 0 <= k < |s| ==> '0' <= s[k] <= '9'
  {
    if s == [] then 0 else 10 * DigitsValue(s[..|s| - 1]) + (s[|s| - 1] - '0') as nat
  }

  /** The rendering denotes the number it renders. */
  lemma {:induction false} NatToStringValue(n: nat)
    ensures DigitsValue(NatToString(n)) == n
  {
    var d := ['0' + (n % 10) as char];
    if n >= 10 {
      NatToStringValue(n / 10);
      var s := NatToString(n / 10) + d;
      assert s[..|s| - 1] == NatToString(n / 10);
    }
  }

  /** No element occurs twice. */
  predicate NoDuplicates<T(==)>(xs: seq<T>) {
    forall i, j :: 0 <= i < j < |xs| ==> xs[i] != xs[j]
  }

  /** The elements of `new Set(xs)` in iteration order: each element of `xs` not in
      `seen`, kept at its first occurrence. */
  function DedupeFrom(xs: seq<string>, seen: set<string>): (r: seq<string>)
    ensures NoDuplicates(r)
    ensures forall x :: x in r <==> x in xs && x !in seen
  {
    if xs == [] then []
    else if xs[0] in seen then DedupeFrom(xs[1..], seen)
    else
      var tail := DedupeFrom(xs[1..], seen + {xs[0]});
      [xs[0]] + tail
  }

  /** `[...new Set(xs)]`. */
  function Dedupe(xs: seq<string>): (r: seq<string>)
    ensures NoDuplicates(r)
    ensures forall x :: x in r <==> x in xs
  {
    DedupeFrom(xs, {})
  }

  /** `xs.map(s => s.trim())`. */
  function TrimAll(xs: seq<string>): (r: seq<string>)
    ensures |r| == |xs|
    ensures forall k :: 0 <= k < |xs| ==> r[k] == Trim(xs[k])
  {
    if xs == [] then [] else [Trim(xs[0])] + TrimAll(xs[1..])
  }
}
