/** Operations on Python `str` values that the synchroniser relies on: whitespace as Python
    defines it (`\s` in a str pattern, `str.isspace`, `str.strip`), substring search, ASCII case
    mapping, decimal formatting of the step numbers, and the text that a loop of `+=` builds. */
module Text {
  import opened Common

  /** `str.isspace()`, which is also the class `\s` matches in a str pattern. */
  predicate IsSpace(c: char) {
    || ('\t' <= c <= '\r')
    || ('\U{1c}' <= c <= '\U{1f}')
    || c == ' ' || c == '\U{85}' || c == '\U{a0}' || c == '\U{1680}'
    || ('\U{2000}' <= c <= '\U{200a}')
    || c == '\U{2028}' || c == '\U{2029}' || c == '\U{202f}' || c == '\U{205f}' || c == '\U{3000}'
  }

  predicate AllSpace(s: string) {
    forall i :: 0 <= i < |s| ==> IsSpace(s[i])
  }

  /** A slice of a slice is a slice of the whole. */
  lemma SliceOfSlice(s: string, i: nat, j: nat, k: nat, l: nat)
    requires i <= j <= |s| && k <= l <= j - i
    ensures s[i..j][k..l] == s[i + k..i + l]
  {
    assert forall m :: 0 <= m < l - k ==> s[i..j][k..l][m] == s[i + k + m];
  }

  /** A slice is its two halves at any point between its ends. */
  lemma SliceSplit(s: string, i: nat, j: nat, k: nat)
    requires i <= j <= k <= |s|
    ensures s[i..k] == s[i..j] + s[j..k]
  {
  }

  /** Whitespace followed by whitespace is whitespace. */
  lemma AllSpaceConcat(a: string, b: string)
    requires AllSpace(a) && AllSpace(b)
    ensures AllSpace(a + b)
  {
    forall i | 0 <= i < |a + b|
      ensures IsSpace((a + b)[i])
    {
      if i >= |a| {
        assert (a + b)[i] == b[i - |a|];
      }
    }
  }

  /** pat occurs in s starting at index i. */
  predicate OccursAt(s: string, pat: string, i: int) {
    0 <= i && i + |pat| <= |s| && s[i..i + |pat|] == pat
  }

  /** The first index at or after `from` where pat occurs in s (`str.find(pat, from)`). */
  function IndexOf(s: string, pat: string, from: nat): (r: Option<nat>)
    ensures r.Some? ==> from <= r.value && OccursAt(s, pat, r.value)
    ensures r.Some? ==> forall j :: from <= j < r.value ==> !OccursAt(s, pat, j)
    ensures r.None? ==> forall j :: from <= j ==> !OccursAt(s, pat, j)
    decreases |s| - from
  {
    if from + |pat| > |s| then None
    else if s[from..from + |pat|] == pat then Some(from)
    else IndexOf(s, pat, from + 1)
  }

  /** A known first occurrence is what IndexOf finds. */
  lemma IndexOfIs(s: string, pat: string, from: nat, k: nat)
    requires from <= k && OccursAt(s, pat, k)
    requires forall j :: from <= j < k ==> !OccursAt(s, pat, j)
    ensures IndexOf(s, pat, from) == Some(k)
  {
  }

  /** `pat in s`. */
  function Contains(s: string, pat: string): (r: bool)
    ensures r <==> exists i :: OccursAt(s, pat, i)
  {
    var k := IndexOf(s, pat, 0);
    if k.Some? then true
    else
      assert forall i :: !OccursAt(s, pat, i) by {
        forall i ensures !OccursAt(s, pat, i) {
          if i >= 0 { assert 0 <= i; }
        }
      }
      false
  }

  /** The index of the first c in s (`str.find(c)`), if any. */
  function FirstIndexOf(s: string, c: char): (r: Option<nat>)
    ensures r.Some? ==> r.value < |s| && s[r.value] == c && c !in s[..r.value]
    ensures r.None? ==> c !in s
  {
    if s == [] then None
    else if s[0] == c then Some(0)
    else
      var r := FirstIndexOf(s[1..], c);
      if r.None? then None
      else
        assert s[..r.value + 1] == [s[0]] + s[1..][..r.value];
        Some(r.value + 1)
  }

  /** The index of the last c in s (`str.rfind(c)`), if any. */
  function LastIndexOf(s: string, c: char): (r: Option<nat>)
    ensures r.Some? ==> r.value < |s| && s[r.value] == c && c !in s[r.value + 1..]
    ensures r.None? ==> c !in s
  {
    if s == [] then None
    else if s[|s| - 1] == c then Some(|s| - 1)
    else
      var r := LastIndexOf(s[..|s| - 1], c);
      if r.None? then
        assert s == s[..|s| - 1] + [s[|s| - 1]];
        None
      else
        assert s[r.value + 1..] == s[..|s| - 1][r.value + 1..] + [s[|s| - 1]];
        r
  }

  /** The end of the run of whitespace that starts at index i (what a greedy `\s*` takes). */
  function SpaceEnd(s: string, i: nat): (e: nat)
    requires i <= |s|
    ensures i <= e <= |s| && AllSpace(s[i..e]) && (e == |s| || !IsSpace(s[e]))
    decreases |s| - i
  {
    if i < |s| && IsSpace(s[i]) then SpaceEnd(s, i + 1) else i
  }

  /** The index of the first newline at or after i, or |s| when there is none. */
  function LineEnd(s: string, i: nat): (t: nat)
    requires i <= |s|
    ensures i <= t <= |s| && '\n' !in s[i..t] && (t == |s| || s[t] == '\n')
    decreases |s| - i
  {
    if i == |s| || s[i] == '\n' then i
    else
      var t := LineEnd(s, i + 1);
      assert s[i..t] == [s[i]] + s[i + 1..t];
      t
  }

  predicate IsStripped(s: string) {
    s == [] || (!IsSpace(s[0]) && !IsSpace(s[|s| - 1]))
  }

  /** Where the trailing whitespace of s[a..b] begins. */
  function TrailStart(s: string, a: nat, b: nat): (r: nat)
    requires a <= b <= |s|
    ensures a <= r <= b && AllSpace(s[r..b]) && (r == a || !IsSpace(s[r - 1]))
    decreases b
  {
    if a < b && IsSpace(s[b - 1]) then
      var r := TrailStart(s, a, b - 1);
      assert s[r..b] == s[r..b - 1] + [s[b - 1]];
      r
    else b
  }

  /** `str.strip()`: s without its leading and trailing whitespace. */
  function Strip(s: string): (r: string)
    ensures IsStripped(r)
    ensures exists a, b :: 0 <= a <= b <= |s| && r == s[a..b] && AllSpace(s[..a]) && AllSpace(s[b..])
    ensures forall c :: c in r ==> c in s
    ensures IsStripped(s) ==> r == s
  {
    var a := SpaceEnd(s, 0);
    var b := TrailStart(s, a, |s|);
    StripFacts(s, a, b);
    s[a..b]
  }

  /** What the two ends Strip finds make of the slice between them. */
  lemma StripFacts(s: string, a: nat, b: nat)
    requires a <= b <= |s| && AllSpace(s[0..a]) && AllSpace(s[b..|s|])
    requires a == |s| || !IsSpace(s[a])
    requires b == a || !IsSpace(s[b - 1])
    ensures IsStripped(s[a..b]) && AllSpace(s[..a]) && AllSpace(s[b..])
    ensures forall c :: c in s[a..b] ==> c in s
    ensures IsStripped(s) ==> s[a..b] == s
  {
    assert s[..a] == s[0..a] && s[b..] == s[b..|s|];
    if a < b {
      assert s[a..b][0] == s[a] && s[a..b][b - a - 1] == s[b - 1];
    }
    forall c | c in s[a..b] ensures c in s {
      var k :| 0 <= k < b - a && s[a..b][k] == c;
      assert s[a + k] == c;
    }
    assert s[0..|s|] == s;
  }

  /** What reading back a file written with text s gives in text mode (`open(path, 'r')`):
      universal newlines turn each "\r\n" and each lone '\r' into '\n'. */
  function ReadBack(s: string): (r: string)
    ensures '\r' !in r && |r| <= |s|
    decreases |s|
  {
    if s == [] then []
    else if s[0] == '\r' then
      if |s| > 1 && s[1] == '\n' then "\n" + ReadBack(s[2..]) else "\n" + ReadBack(s[1..])
    else [s[0]] + ReadBack(s[1..])
  }

  /** Text without '\r' reads back as written, and the rest is read back on its own. */
  lemma {:induction false} ReadBackConcat(a: string, b: string)
    requires '\r' !in a
    ensures ReadBack(a + b) == a + ReadBack(b)
    decreases |a|
  {
    if a == [] {
      assert a + b == b;
    } else {
      assert (a + b)[0] == a[0] && (a + b)[1..] == a[1..] + b;
      assert '\r' !in a[1..] by {
        assert forall c :: c in a[1..] ==> c in a;
      }
      ReadBackConcat(a[1..], b);
      assert a == [a[0]] + a[1..];
    }
  }

  predicate IsAsciiUpper(c: char) { 'A' <= c <= 'Z' }

  predicate IsAsciiLower(c: char) { 'a' <= c <= 'z' }

  predicate IsAsciiLetter(c: char) { IsAsciiUpper(c) || IsAsciiLower(c) }

  function LowerChar(c: char): (r: char)
    ensures !IsAsciiUpper(r)
  {
    if IsAsciiUpper(c) then (c as int + 32) as char else c
  }

  function UpperChar(c: char): (r: char)
    ensures !IsAsciiLower(r)
  {
    if IsAsciiLower(c) then (c as int - 32) as char else c
  }

  /** `str.lower()`, restricted to ASCII letters. */
  function Lower(s: string): (r: string)
    ensures |r| == |s|
    ensures forall i :: 0 <= i < |s| ==> r[i] == LowerChar(s[i])
  {
    seq(|s|, i requires 0 <= i < |s| => LowerChar(s[i]))
  }

  /** `s.replace(from, to)` for single characters. */
  function ReplaceChar(s: string, from: char, to: char): (r: string)
    ensures |r| == |s|
    ensures forall i :: 0 <= i < |s| ==> r[i] == if s[i] == from then to else s[i]
  {
    seq(|s|, i requires 0 <= i < |s| => if s[i] == from then to else s[i])
  }

  /** `str.title()`, restricted to ASCII letters: a letter is upper-cased when the character before
      it is not a letter, and lower-cased otherwise. */
  function Title(s: string): (r: string)
    ensures |r| == |s|
    ensures forall i :: 0 <= i < |s| && IsAsciiLetter(s[i]) ==>
      r[i] == if i > 0 && IsAsciiLetter(s[i - 1]) then LowerChar(s[i]) else UpperChar(s[i])
    ensures forall i :: 0 <= i < |s| && !IsAsciiLetter(s[i]) ==> r[i] == s[i]
  {
    seq(|s|, i requires 0 <= i < |s| =>
      if !IsAsciiLetter(s[i]) then s[i]
      else if i > 0 && IsAsciiLetter(s[i - 1]) then LowerChar(s[i])
      else UpperChar(s[i]))
  }

  function DigitChar(d: nat): (c: char)
    requires d < 10
    ensures '0' <= c <= '9'
  {
    ('0' as int + d) as char
  }

  /** `str(n)` for a natural number: its decimal digits, without leading zeros. */
  function NatToString(n: nat): (r: string)
    ensures |r| > 0 && (forall i :: 0 <= i < |r| ==> '0' <= r[i] <= '9')
    ensures |r| > 1 ==> r[0] != '0'
  {
    if n < 10 then [DigitChar(n)] else NatToString(n / 10) + [DigitChar(n % 10)]
  }

  /** An occurrence in a stays one in a + b. */
  lemma OccursInLeft(a: string, b: string, pat: string, i: int)
    requires OccursAt(a, pat, i)
    ensures OccursAt(a + b, pat, i)
  {
    assert (a + b)[i..i + |pat|] == a[i..i + |pat|];
  }

  /** An occurrence in b is one in a + b, shifted by |a|. */
  lemma OccursInRight(a: string, b: string, pat: string, i: int)
    requires OccursAt(b, pat, i)
    ensures OccursAt(a + b, pat, |a| + i)
  {
    assert (a + b)[|a| + i..|a| + i + |pat|] == b[i..i + |pat|];
  }

  /** What a contains, a + b contains. */
  lemma ContainsLeft(a: string, b: string, pat: string)
    requires Contains(a, pat)
    ensures Contains(a + b, pat)
  {
    var i :| OccursAt(a, pat, i);
    OccursInLeft(a, b, pat, i);
  }

  /** What b contains, a + b contains. */
  lemma ContainsRight(a: string, b: string, pat: string)
    requires Contains(b, pat)
    ensures Contains(a + b, pat)
  {
    var i :| OccursAt(b, pat, i);
    OccursInRight(a, b, pat, i);
  }

  /** Appending b and then c is appending b + c. */
  lemma Associative(a: string, b: string, c: string)
    ensures a + b + c == a + (b + c)
  {
  }

  /** The lines xs, each followed by a newline: how a multi-line string literal is written here. */
  function Lines(xs: seq<string>): string {
    if xs == [] then "" else xs[0] + "\n" + Lines(xs[1..])
  }

  /** The text that `for x in xs: out += f(x)` appends, in the order of xs. */
  function Each(xs: seq<string>, f: string -> string): string {
    if xs == [] then "" else f(xs[0]) + Each(xs[1..], f)
  }

  /** One more iteration of the loop appends f(x) at the end. */
  lemma {:induction false} EachSnoc(xs: seq<string>, x: string, f: string -> string)
    ensures Each(xs + [x], f) == Each(xs, f) + f(x)
  {
    if xs == [] {
      assert xs + [x] == [x];
    } else {
      assert (xs + [x])[1..] == xs[1..] + [x];
      EachSnoc(xs[1..], x, f);
    }
  }

  /** The loop over xs + ys appends what the loop over xs does, then what the loop over ys does. */
  lemma {:induction false} EachConcat(xs: seq<string>, ys: seq<string>, f: string -> string)
    ensures Each(xs + ys, f) == Each(xs, f) + Each(ys, f)
  {
    if xs == [] {
      assert xs + ys == ys;
    } else {
      assert (xs + ys)[1..] == xs[1..] + ys;
      EachConcat(xs[1..], ys, f);
      Associative(f(xs[0]), Each(xs[1..], f), Each(ys, f));
    }
  }

  /** The k-th item contributes f(xs[k]), after the items before it and before the items after it. */
  lemma {:induction false} EachAt(xs: seq<string>, k: nat, f: string -> string)
    requires k < |xs|
    ensures Each(xs, f) == Each(xs[..k], f) + f(xs[k]) + Each(xs[k + 1..], f)
  {
    assert xs == xs[..k] + ([xs[k]] + xs[k + 1..]);
    EachConcat(xs[..k], [xs[k]] + xs[k + 1..], f);
    EachConcat([xs[k]], xs[k + 1..], f);
    assert [xs[k]][1..] == [];
  }

  /** The text that `for i, x in enumerate(xs, start): out += f(i, x)` appends. */
  function Numbered(xs: seq<string>, start: nat, f: (nat, string) -> string): string {
    if xs == [] then "" else f(start, xs[0]) + Numbered(xs[1..], start + 1, f)
  }

  lemma {:induction false} NumberedSnoc(xs: seq<string>, x: string, start: nat, f: (nat, string) -> string)
    ensures Numbered(xs + [x], start, f) == Numbered(xs, start, f) + f(start + |xs|, x)
  {
    if xs == [] {
      assert xs + [x] == [x];
    } else {
      assert (xs + [x])[1..] == xs[1..] + [x];
      NumberedSnoc(xs[1..], x, start + 1, f);
    }
  }

  /** Numbering xs + ys from start numbers ys from where xs stops. */
  lemma {:induction false} NumberedConcat(xs: seq<string>, ys: seq<string>, start: nat,
                                          f: (nat, string) -> string)
    ensures Numbered(xs + ys, start, f) == Numbered(xs, start, f) + Numbered(ys, start + |xs|, f)
  {
    if xs == [] {
      assert xs + ys == ys;
    } else {
      assert (xs + ys)[1..] == xs[1..] + ys;
      NumberedConcat(xs[1..], ys, start + 1, f);
      Associative(f(start, xs[0]), Numbered(xs[1..], start + 1, f), Numbered(ys, start + |xs|, f));
    }
  }

  /** The k-th item (0-based) is rendered with the number start + k, in its place. */
  lemma {:induction false} NumberedAt(xs: seq<string>, k: nat, start: nat, f: (nat, string) -> string)
    requires k < |xs|
    ensures Numbered(xs, start, f)
         == Numbered(xs[..k], start, f) + f(start + k, xs[k]) + Numbered(xs[k + 1..], start + k + 1, f)
  {
    assert xs == xs[..k] + ([xs[k]] + xs[k + 1..]);
    NumberedConcat(xs[..k], [xs[k]] + xs[k + 1..], start, f);
    NumberedConcat([xs[k]], xs[k + 1..], start + k, f);
    assert [xs[k]][1..] == [];
  }
}
