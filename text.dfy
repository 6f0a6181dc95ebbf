/** The JavaScript string primitives the generator relies on: `includes`/`indexOf`,
    `split` and `join` with a string separator, `trim`, `toLowerCase`, and the
    decimal rendering of a non-negative integer inside a template literal. */
module Text {

  datatype Option<T> = None | Some(value: T)

  // ---------------------------------------------------------------------------
  // Whitespace and trim

  /** The code points JavaScript's `String.prototype.trim` removes: the
      WhiteSpace (tab, vertical tab, form feed, space, no-break space, byte
      order mark and the Unicode "Zs" category) and LineTerminator (line feed,
      carriage return, line and paragraph separators) sets. */
  predicate IsSpace(c: char) {
    var n := c as int;
    n == 0x09 || n == 0x0A || n == 0x0B || n == 0x0C || n == 0x0D || n == 0x20
    || n == 0xA0 || n == 0x1680 || (0x2000 <= n <= 0x200A) || n == 0x2028
    || n == 0x2029 || n == 0x202F || n == 0x205F || n == 0x3000 || n == 0xFEFF
  }

  predicate AllSpace(s: string) {
    forall i | 0 <= i < |s| :: IsSpace(s[i])
  }

  /** `r` is what remains of `s` once a whitespace prefix and a whitespace
      suffix are cut off. */
  ghost predicate IsTrimmingOf(r: string, s: string) {
    exists i :: TrimmedAt(r, s, i)
  }

  /** `r` sits at index `i` of `s` with only whitespace before and after it. */
  ghost predicate TrimmedAt(r: string, s: string, i: int) {
    OccursAt(s, r, i) && AllSpace(s[..i]) && AllSpace(s[i + |r|..])
  }

  /** Neither end of `s` is whitespace. */
  predicate Trimmed(s: string) {
    s == [] || (!IsSpace(s[0]) && !IsSpace(s[|s| - 1]))
  }

  /** Cutting a leading whitespace character keeps a trimming a trimming. */
  lemma TrimmingFront(r: string, s: string)
    requires s != [] && IsSpace(s[0]) && IsTrimmingOf(r, s[1..])
    ensures IsTrimmingOf(r, s)
  {
    var i :| TrimmedAt(r, s[1..], i);
    assert s[i + 1..i + 1 + |r|] == s[1..][i..i + |r|];
    assert s[i + 1 + |r|..] == s[1..][i + |r|..];
    forall k | 0 <= k < i + 1 ensures IsSpace(s[k]) {
      if k > 0 { assert s[k] == s[1..][..i][k - 1]; }
    }
    assert TrimmedAt(r, s, i + 1);
  }

  /** Cutting a trailing whitespace character keeps a trimming a trimming. */
  lemma TrimmingBack(r: string, s: string)
    requires s != [] && IsSpace(s[|s| - 1]) && IsTrimmingOf(r, s[..|s| - 1])
    ensures IsTrimmingOf(r, s)
  {
    var i :| TrimmedAt(r, s[..|s| - 1], i);
    assert s[i..i + |r|] == s[..|s| - 1][i..i + |r|];
    assert s[..i] == s[..|s| - 1][..i];
    forall k | i + |r| <= k < |s| ensures IsSpace(s[k]) {
      if k < |s| - 1 { assert s[k] == s[..|s| - 1][i + |r|..][k - i - |r|]; }
    }
    assert TrimmedAt(r, s, i);
  }

  /** JavaScript's `s.trim()`: whitespace is cut from both ends. */
  function Trim(s: string): (r: string)
    ensures |r| <= |s| && Trimmed(r)
    ensures IsTrimmingOf(r, s)
    decreases |s|
  {
    if s != [] && IsSpace(s[0]) then
      var r := Trim(s[1..]);
      TrimmingFront(r, s);
      r
    else if s != [] && IsSpace(s[|s| - 1]) then
      var r := Trim(s[..|s| - 1]);
      TrimmingBack(r, s);
      r
    else
      assert TrimmedAt(s, s, 0);
      s
  }

  /** Trimming leaves nothing exactly when the input is all whitespace. */
  lemma {:induction false} TrimEmptyIff(s: string)
    ensures Trim(s) == [] <==> AllSpace(s)
    decreases |s|
  {
    if s != [] && IsSpace(s[0]) {
      TrimEmptyIff(s[1..]);
      assert AllSpace(s) <==> AllSpace(s[1..]) by {
        assert forall k | 1 <= k < |s| :: s[k] == s[1..][k - 1];
      }
    } else if s != [] && IsSpace(s[|s| - 1]) {
      TrimEmptyIff(s[..|s| - 1]);
      assert AllSpace(s) <==> AllSpace(s[..|s| - 1]) by {
        assert forall k | 0 <= k < |s| - 1 :: s[k] == s[..|s| - 1][k];
      }
    }
  }

  /** A string with no whitespace at either end is its own trimming. */
  lemma TrimTrimmed(s: string)
    requires Trimmed(s)
    ensures Trim(s) == s
  {
  }

  // ---------------------------------------------------------------------------
  // Lower-casing

  /** JavaScript's `toLowerCase` restricted to ASCII: 'A'..'Z' become 'a'..'z'. */
  function LowerChar(c: char): (d: char)
    ensures !('A' <= d <= 'Z')
    ensures d != c ==> 'A' <= c <= 'Z' && d as int == c as int + 32
  {
    if 'A' <= c <= 'Z' then (c as int + 32) as char else c
  }

  function Lower(s: string): (r: string)
    ensures |r| == |s|
    ensures forall i | 0 <= i < |s| :: r[i] == LowerChar(s[i])
  {
    seq(|s|, i requires 0 <= i < |s| => LowerChar(s[i]))
  }

  // ---------------------------------------------------------------------------
  // Substring search

  /** `sub` occurs in `s` starting at index `i`. */
  predicate OccursAt(s: string, sub: string, i: int) {
    0 <= i && i + |sub| <= |s| && s[i..i + |sub|] == sub
  }

  /** A one-character string occurs at `i` exactly when that character is there. */
  lemma CharOccurs(s: string, i: int, c: char)
    requires 0 <= i < |s|
    ensures OccursAt(s, [c], i) <==> s[i] == c
  {
    assert s[i..i + 1] == [s[i]];
  }

  /** The first occurrence of `sub` in `s` at or after `from`. */
  function IndexFrom(s: string, sub: string, from: nat): (r: Option<nat>)
    decreases |s| - from
    ensures r.Some? ==> from <= r.value && OccursAt(s, sub, r.value)
    ensures r.Some? ==> forall i | from <= i < r.value :: !OccursAt(s, sub, i)
    ensures r.None? ==> forall i | from <= i :: !OccursAt(s, sub, i)
  {
    if from + |sub| > |s| then None
    else if s[from..from + |sub|] == sub then Some(from)
    else IndexFrom(s, sub, from + 1)
  }

  /** JavaScript's `s.indexOf(sub)`, with -1 as `None`. */
  function IndexOf(s: string, sub: string): (r: Option<nat>)
    ensures r.Some? ==> OccursAt(s, sub, r.value) && forall i | 0 <= i < r.value :: !OccursAt(s, sub, i)
    ensures r.None? ==> forall i :: !OccursAt(s, sub, i)
  {
    IndexFrom(s, sub, 0)
  }

  /** JavaScript's `s.includes(sub)`. */
  predicate Contains(s: string, sub: string) {
    exists i | 0 <= i <= |s| - |sub| :: OccursAt(s, sub, i)
  }

  /** `includes` agrees with `indexOf`: `sub` occurs exactly when a first occurrence is found. */
  lemma ContainsIndexOf(s: string, sub: string)
    ensures Contains(s, sub) <==> IndexOf(s, sub).Some?
  {
  }

  /** Containment is transitive: a piece of a piece of `s` is a piece of `s`. */
  lemma ContainsTransitive(s: string, b: string, a: string)
    requires Contains(s, b)
    ensures Contains(b, a) ==> Contains(s, a)
  {
    var i :| 0 <= i <= |s| - |b| && OccursAt(s, b, i);
    assert b == s[i..i + |b|];
    forall k | OccursAt(b, a, k) ensures OccursAt(s, a, i + k) {
      assert forall t | i + k <= t < i + k + |a| :: s[t] == b[t - i];
      assert s[i + k..i + k + |a|] == b[k..k + |a|];
    }
  }

  lemma ContainsTrim(s: string)
    ensures Contains(s, Trim(s))
  {
    var i :| TrimmedAt(Trim(s), s, i);
  }

  // ---------------------------------------------------------------------------
  // split / join

  /** JavaScript's `parts.join(sep)`. */
  function Join(parts: seq<string>, sep: string): (r: string)
    decreases |parts|
  {
    if |parts| == 0 then ""
    else if |parts| == 1 then parts[0]
    else parts[0] + sep + Join(parts[1..], sep)
  }

  /** An occurrence inside a prefix of `s` is an occurrence in `s` that ends within the prefix. */
  lemma PrefixOccurrence(s: string, sub: string, k: nat)
    requires k <= |s|
    ensures forall i | OccursAt(s[..k], sub, i) :: OccursAt(s, sub, i) && i + |sub| <= k
  {
    forall i | OccursAt(s[..k], sub, i) ensures OccursAt(s, sub, i) {
      assert s[i..i + |sub|] == s[..k][i..i + |sub|];
    }
  }

  /** JavaScript's `s.split(sep)` for a non-empty string separator: the pieces
      between successive leftmost occurrences of `sep`. */
  function Split(s: string, sep: string): (parts: seq<string>)
    requires sep != []
    decreases |s|
    ensures |parts| >= 1
    ensures Join(parts, sep) == s
    ensures forall i | 0 <= i < |parts| :: !Contains(parts[i], sep)
    ensures parts[0] == s[..|parts[0]|]
  {
    match IndexOf(s, sep)
    case None => [s]
    case Some(k) =>
      PrefixOccurrence(s, sep, k);
      var rest := Split(s[k + |sep|..], sep);
      assert s == s[..k] + sep + s[k + |sep|..];
      [s[..k]] + rest
  }

  /** One step of `Split`: the part before the first occurrence, then the
      split of what follows it. */
  lemma SplitStep(s: string, sep: string, k: nat)
    requires sep != [] && IndexOf(s, sep) == Some(k)
    ensures k + |sep| <= |s| && Split(s, sep) == [s[..k]] + Split(s[k + |sep|..], sep)
  {
  }

  /** Where the first part of a split ends: at the first occurrence of the
      separator (`indexOf`). There is a second part exactly when the separator
      occurs; without one, the only part is the input. */
  lemma SplitHead(s: string, sep: string)
    requires sep != []
    ensures var parts := Split(s, sep);
            (|parts| == 1 <==> !Contains(s, sep))
            && (!Contains(s, sep) ==> parts == [s])
            && (Contains(s, sep) ==> IndexOf(s, sep) == Some(|parts[0]|))
  {
    ContainsIndexOf(s, sep);
    match IndexOf(s, sep)
    case None =>
    case Some(k) =>
      SplitStep(s, sep, k);
  }

  /** The second part of a split runs from the end of the first occurrence of
      the separator to the next occurrence, or to the end when there is none. */
  lemma SplitSecond(s: string, sep: string)
    requires sep != []
    ensures var parts := Split(s, sep);
            |parts| >= 2 ==> |parts[0]| + |sep| <= |s|
                             && parts[1] == s[|parts[0]| + |sep|..NextOrEnd(s, sep, |parts[0]| + |sep|)]
  {
    match IndexOf(s, sep)
    case None =>
      SplitHead(s, sep);
    case Some(k) =>
      SplitStep(s, sep, k);
      var b := k + |sep|;
      var tail := s[b..];
      var rest := Split(tail, sep);
      var second := rest[0];
      assert Split(s, sep)[1] == second && |Split(s, sep)[0]| == k;
      FirstPieceOfSuffix(s, sep, b);
  }

  /** The first part of the split of a suffix runs to the next occurrence. */
  lemma FirstPieceOfSuffix(s: string, sep: string, b: nat)
    requires sep != [] && b <= |s|
    ensures Split(s[b..], sep)[0] == s[b..NextOrEnd(s, sep, b)]
  {
    var tail := s[b..];
    var first := Split(tail, sep)[0];
    SplitHead(tail, sep);
    if Contains(tail, sep) {
      assert NextOrEnd(s, sep, b) == b + |first|;
      SliceOfSuffix(s, b, |first|);
    } else {
      assert first == tail && NextOrEnd(s, sep, b) == |s|;
    }
  }

  /** Where a piece that starts at `from` ends: at the next occurrence of
      `sep` at or after `from`, or at the end of `s` when there is none. */
  function NextOrEnd(s: string, sep: string, from: nat): (e: nat)
    requires from <= |s|
    ensures from <= e <= |s|
    ensures e < |s| ==> OccursAt(s, sep, e)
    ensures forall j | from <= j < e :: !OccursAt(s, sep, j)
  {
    var t := s[from..];
    forall j | from <= j ensures OccursAt(s, sep, j) <==> OccursAt(t, sep, j - from) {
      if j + |sep| <= |s| {
        assert t[j - from..j - from + |sep|] == s[j..j + |sep|];
      }
    }
    match IndexOf(t, sep)
    case Some(m) => from + m
    case None => |s|
  }

  lemma SliceOfSuffix(s: string, a: int, n: int)
    requires 0 <= a <= |s| && 0 <= n <= |s| - a
    ensures s[a..][..n] == s[a..a + n]
  {
  }

  /** Splitting on a separator that sits right after a separator-free head
      yields the head first and then the split of what follows. */
  lemma SplitAtFirst(head: string, sep: string, tail: string)
    requires sep != []
    requires !Contains(head + sep[..|sep| - 1], sep)
    ensures Split(head + sep + tail, sep) == [head] + Split(tail, sep)
  {
    var s := head + sep + tail;
    assert OccursAt(s, sep, |head|) by {
      assert s[|head|..|head| + |sep|] == sep;
    }
    var t := head + sep[..|sep| - 1];
    assert t == s[..|head| + |sep| - 1];
    forall i | 0 <= i < |head| && OccursAt(s, sep, i) ensures OccursAt(t, sep, i) {
      assert t[i..i + |sep|] == s[i..i + |sep|];
    }
    assert IndexOf(s, sep) == Some(|head|);
    assert s[..|head|] == head;
    assert s[|head| + |sep|..] == tail;
  }

  lemma CharAbsent(s: string, c: char)
    requires c !in s
    ensures !Contains(s, [c])
  {
    forall i | 0 <= i < |s| ensures !OccursAt(s, [c], i) {
      assert s[i..i + 1] == [s[i]];
    }
  }

  /** The other direction of the round trip for a one-character separator:
      joining pieces free of it and splitting again gives the pieces back. */
  lemma {:induction false} SplitJoin(parts: seq<string>, c: char)
    requires |parts| >= 1
    requires forall p <- parts :: c !in p
    ensures Split(Join(parts, [c]), [c]) == parts
  {
    if |parts| == 1 {
      assert c !in parts[0] by { assert parts[0] in parts; }
      CharAbsent(parts[0], c);
    } else {
      var head := parts[0];
      assert c !in head by { assert head in parts; }
      assert head + [c][..0] == head;
      CharAbsent(head, c);
      SplitAtFirst(head, [c], Join(parts[1..], [c]));
      SplitJoin(parts[1..], c);
    }
  }

  // ---------------------------------------------------------------------------
  // Decimal rendering of integers, as `${n}` does for a non-negative integer

  function Digit(d: nat): (c: char)
    requires d < 10
    ensures '0' <= c <= '9' && c as int - '0' as int == d
  {
    ('0' as int + d) as char
  }

  function NatToString(n: nat): (r: string)
    ensures r != []
    ensures forall i | 0 <= i < |r| :: '0' <= r[i] <= '9'
    ensures r[0] == '0' ==> r == "0"
  {
    if n < 10 then [Digit(n)] else NatToString(n / 10) + [Digit(n % 10)]
  }

  /** The value of a string of decimal digits; the partner of `NatToString`. */
  function DigitsValue(s: string): nat
    requires forall i | 0 <= i < |s| :: '0' <= s[i] <= '9'
  {
    if s == [] then 0 else DigitsValue(s[..|s| - 1]) * 10 + (s[|s| - 1] as int - '0' as int)
  }

  lemma {:induction false} NatToStringRoundTrip(n: nat)
    ensures DigitsValue(NatToString(n)) == n
  {
    if n >= 10 {
      var r := NatToString(n);
      assert r[..|r| - 1] == NatToString(n / 10);
      NatToStringRoundTrip(n / 10);
    }
  }

  /** Different numbers render differently (scenario and step labels are distinct). */
  lemma NatToStringInjective(m: nat, n: nat)
    requires NatToString(m) == NatToString(n)
    ensures m == n
  {
    NatToStringRoundTrip(m);
    NatToStringRoundTrip(n);
  }
}
