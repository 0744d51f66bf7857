/** The frontmatter rules both generators and the validation phase apply to a Markdown file: the
    anchored block `^---\s*\n(.*?)\n---` (dot matching newlines), the first `description:` line
    inside it, and the opening `^---\s*\n` alone. Each regular expression is written out as the
    match Python's backtracking engine returns. */
module Frontmatter {
  import opened Common
  import opened Text

  /** The text starts with the three dashes the block pattern is anchored on. */
  predicate StartsWithFence(c: string) {
    |c| >= 3 && c[..3] == "---"
  }

  /** The block pattern matches c with its `\n` at index m (so `\s*` took c[3..m]) and its lazy
      group ending at j, the first "\n---" from m + 1 on. */
  predicate MatchAt(c: string, m: int, j: int) {
    && StartsWithFence(c)
    && 3 <= m < SpaceEnd(c, 3) && c[m] == '\n'
    && m + 1 <= j && OccursAt(c, "\n---", j)
    && forall k :: m + 1 <= k < j ==> !OccursAt(c, "\n---", k)
  }

  /** Backtracking of the greedy `\s*`: the newline positions below k are tried from the highest
      down, and the first one followed later by "\n---" wins. */
  function BlockFrom(c: string, k: nat): (r: Option<string>)
    requires StartsWithFence(c) && 3 <= k <= SpaceEnd(c, 3)
    ensures r.Some? ==> exists m, j :: m < k && MatchAt(c, m, j) && r.value == c[m + 1..j]
                                       && forall m2, j2 :: m < m2 < k ==> !MatchAt(c, m2, j2)
    ensures r.None? ==> forall m, j :: m < k ==> !MatchAt(c, m, j)
    decreases k
  {
    if k == 3 then None
    else if c[k - 1] == '\n' then
      match IndexOf(c, "\n---", k)
      case Some(j) =>
        assert MatchAt(c, k - 1, j);
        Some(c[k..j])
      case None => BlockFrom(c, k - 1)
    else BlockFrom(c, k - 1)
  }

  /** The group of `re.search(r'^---\s*\n(.*?)\n---', c, re.DOTALL)`, if the pattern matches. The
      match found is the one whose `\s*` is longest. */
  function Block(c: string): (r: Option<string>)
    ensures r.Some? ==> exists m, j :: MatchAt(c, m, j) && r.value == c[m + 1..j]
                                       && forall m2, j2 :: MatchAt(c, m2, j2) ==> m2 <= m
    ensures r.None? ==> forall m, j :: !MatchAt(c, m, j)
  {
    if StartsWithFence(c) then BlockFrom(c, SpaceEnd(c, 3)) else None
  }

  /** The first "description:" in fm starts at index p. */
  predicate FirstKeyAt(fm: string, p: int) {
    OccursAt(fm, "description:", p) && forall j :: 0 <= j < p ==> !OccursAt(fm, "description:", j)
  }

  /** v stands at index a of fm, after the first "description:" (at p) and nothing but whitespace,
      and only whitespace follows it up to the end of its line. */
  predicate ValueAt(fm: string, p: int, a: int, v: string) {
    && FirstKeyAt(fm, p) && p + 12 <= a && a + |v| <= |fm| && fm[a..a + |v|] == v
    && AllSpace(fm[p + 12..a])
    && a + |v| <= LineEnd(fm, a) && AllSpace(fm[a + |v|..LineEnd(fm, a)])
  }

  /** The group of `re.search(r'description:\s*(.+?)(?:\n|$)', fm)`, stripped, or "" when there
      is no match. The first "description:" decides; when only whitespace follows it the group,
      if any, is whitespace and strips to "". */
  function DescriptionValue(fm: string): (r: string)
    ensures '\n' !in r && IsStripped(r)
    ensures !Contains(fm, "description:") ==> r == ""
  {
    KeyValue(fm, IndexOf(fm, "description:", 0))
  }

  /** The value after the key found at `key`, or "" when there is no key. */
  function KeyValue(fm: string, key: Option<nat>): (r: string)
    requires key.Some? ==> key.value + 12 <= |fm|
    ensures '\n' !in r && IsStripped(r)
  {
    match key
    case None => ""
    case Some(p) => ValueAfter(fm, p + 12)
  }

  /** The stripped rest of the line where the whitespace from k on ends, or "" at the end of fm. */
  function ValueAfter(fm: string, k: nat): (r: string)
    requires k <= |fm|
    ensures '\n' !in r && IsStripped(r)
  {
    var w := SpaceEnd(fm, k);
    if w == |fm| then "" else Strip(fm[w..LineEnd(fm, w)])
  }

  /** A non-empty description is text that stands in fm after the first "description:" and
      whitespace only. */
  lemma DescriptionStands(fm: string)
    ensures var r := DescriptionValue(fm); r != [] ==> exists p, a :: ValueAt(fm, p, a, r)
  {
    match IndexOf(fm, "description:", 0)
    case None =>
    case Some(p) =>
      assert DescriptionValue(fm) == KeyValue(fm, Some(p));
      var w := SpaceEnd(fm, p + 12);
      if w < |fm| {
        StrippedLineAt(fm, p, w, LineEnd(fm, w));
      }
  }

  /** The stripped text of fm[w..t] stands in fm after the first key and whitespace only. */
  lemma StrippedLineAt(fm: string, p: nat, w: nat, t: nat)
    requires FirstKeyAt(fm, p)
    requires p + 12 <= w <= t <= |fm| && AllSpace(fm[p + 12..w])
    requires t == LineEnd(fm, w)
    ensures var r := Strip(fm[w..t]); r != [] ==> exists a :: ValueAt(fm, p, a, r)
  {
    var r := Strip(fm[w..t]);
    if r != [] {
      var a := StrippedSliceAt(fm, p + 12, w, t);
      LineEndWithin(fm, w, t, a);
      assert ValueAt(fm, p, a, r);
    }
  }

  /** The stripped text of the line fm[w..t] lies in fm after the whitespace that starts at q, and
      only whitespace follows it to the end of the line; a is where. */
  lemma StrippedSliceAt(fm: string, q: nat, w: nat, t: nat) returns (a: nat)
    requires q <= w <= t <= |fm| && AllSpace(fm[q..w])
    ensures var r := Strip(fm[w..t]);
      r != [] ==> && q <= a && a + |r| <= |fm| && fm[a..a + |r|] == r && AllSpace(fm[q..a])
                  && w <= a && a + |r| <= t && AllSpace(fm[a + |r|..t])
  {
    var line := fm[w..t];
    var r := Strip(line);
    a := w;
    if r != [] {
      var a0 := SpaceEnd(line, 0);
      var b0 := TrailStart(line, a0, |line|);
      assert r == line[a0..b0] && |r| == b0 - a0;
      a := w + a0;
      SliceOfSlice(fm, w, t, a0, b0);
      assert a + |r| == w + b0;
      assert fm[a..a + |r|] == fm[w + a0..w + b0] == line[a0..b0];
      SliceOfSlice(fm, w, t, 0, a0);
      assert line[..a0] == line[0..a0] == fm[w..a];
      SliceSplit(fm, q, w, a);
      AllSpaceConcat(fm[q..w], fm[w..a]);
      SliceOfSlice(fm, w, t, b0, |line|);
      assert fm[a + |r|..t] == line[b0..|line|];
    }
  }

  /** Every offset inside the line that ends at t has its line end at t. */
  lemma LineEndWithin(fm: string, w: nat, t: nat, a: nat)
    requires w <= a <= t <= |fm| && t == LineEnd(fm, w)
    ensures LineEnd(fm, a) == t
  {
    SliceOfSlice(fm, w, t, a - w, t - w);
    assert '\n' !in fm[a..t] by {
      assert forall c :: c in fm[w..t][a - w..t - w] ==> c in fm[w..t];
    }
    LineEndIs(fm, a, t);
  }

  /** The description a generator reads from a file: the `description:` value of its frontmatter
      block, or "" when the file has no block. */
  function ExtractDescription(c: string): (r: string)
    ensures '\n' !in r && IsStripped(r)
    ensures Block(c).None? ==> r == ""
    ensures Block(c).Some? ==> r == DescriptionValue(Block(c).value)
  {
    match Block(c)
    case None => ""
    case Some(fm) => DescriptionValue(fm)
  }

  /** `re.match(r'^---\s*\n', c)` succeeds: three dashes, then whitespace that includes a newline. */
  function OpensFrontmatter(c: string): (r: bool)
    ensures r <==> StartsWithFence(c) && exists m :: 3 <= m < SpaceEnd(c, 3) && c[m] == '\n'
  {
    StartsWithFence(c) && '\n' in c[3..SpaceEnd(c, 3)]
  }

  /** Every file the generators can read a block from also passes the validation check. */
  lemma BlockOpensFrontmatter(c: string)
    requires Block(c).Some?
    ensures OpensFrontmatter(c)
  {
    var m, j :| MatchAt(c, m, j);
  }

  /** A file that starts with "---\n", a block x that begins with a non-space character and holds
      no "\n---", and "\n---", yields x as its block, whatever follows. */
  lemma {:induction false} BlockOfDocument(c: string, x: string)
    requires x != [] && !IsSpace(x[0]) && !Contains(x, "\n---")
    requires |c| >= |x| + 8 && c[..|x| + 8] == "---\n" + x + "\n---"
    ensures Block(c) == Some(x)
  {
    var p := "---\n" + x + "\n---";
    var e := 4 + |x|;
    assert c[..3] == p[..3] == "---";
    assert c[3] == p[3] == '\n';
    assert c[4] == p[4] == x[0];
    assert SpaceEnd(c, 4) == 4;
    assert SpaceEnd(c, 3) == 4;
    assert c[..e + 4] == c[0..e + 4];
    SliceOfSlice(c, 0, e + 4, 4, e);
    SliceOfSlice(c, 0, e + 4, e, e + 4);
    assert p[4..e] == x;
    assert c[4..e] == x;
    assert p[e..e + 4] == "\n---";
    assert c[e..e + 4] == "\n---";
    forall k | 4 <= k < e
      ensures !OccursAt(c, "\n---", k)
    {
      if k + 4 <= e {
        assert c[k..k + 4] == x[k - 4..k];
        if OccursAt(c, "\n---", k) {
          assert OccursAt(x, "\n---", k - 4);
        }
      } else {
        assert c[e] == '\n';
        assert c[k..k + 4][e - k] == '\n';
      }
    }
    IndexOfIs(c, "\n---", 4, e);
  }

  /** When y holds no "description:", the first one in y + "description:" + rest is right after y. */
  lemma {:induction false} FirstKeyAfter(y: string, rest: string)
    requires !Contains(y, "description:")
    ensures FirstKeyAt(y + "description:" + rest, |y|)
    ensures IndexOf(y + "description:" + rest, "description:", 0) == Some(|y|)
  {
    var fm := y + "description:" + rest;
    var p := |y|;
    assert fm[p..p + 12] == "description:";
    forall k | 0 <= k < p
      ensures !OccursAt(fm, "description:", k)
    {
      if k + 12 <= p {
        assert fm[k..k + 12] == y[k..k + 12];
        assert !OccursAt(y, "description:", k);
      } else {
        assert fm[k + 11] == "description:"[k + 11 - p];
        assert fm[k..k + 12][11] == fm[k + 11];
      }
    }
    IndexOfIs(fm, "description:", 0, p);
  }

  /** In a block y + "description: " + d + z, where y holds no "description:", d is a non-empty,
      stripped, single-line value and z is empty or starts a new line, the description is d. */
  lemma {:induction false} DescriptionOfLine(y: string, d: string, z: string)
    requires !Contains(y, "description:")
    requires d != [] && IsStripped(d) && '\n' !in d
    requires z == [] || z[0] == '\n'
    ensures DescriptionValue(y + "description: " + d + z) == d
  {
    var fm := y + "description: " + d + z;
    var p := |y|;
    var w := p + 13;
    var t := w + |d|;
    assert IndexOf(fm, "description:", 0) == Some(p) by {
      assert fm == y + "description:" + (" " + d + z);
      FirstKeyAfter(y, " " + d + z);
    }
    assert SpaceEnd(fm, p + 12) == w by {
      assert fm[p + 12] == ' ' && fm[w] == d[0];
    }
    assert fm[w..t] == d;
    assert LineEnd(fm, w) == t by {
      assert t == |fm| || fm[t] == '\n';
      LineEndIs(fm, w, t);
    }
    DescriptionValueAt(fm, p, w, t);
  }

  /** With the first key at p and the value starting at w, the description is the stripped rest of
      w's line. */
  lemma DescriptionValueAt(fm: string, p: nat, w: nat, t: nat)
    requires IndexOf(fm, "description:", 0) == Some(p)
    requires p + 12 <= |fm| && SpaceEnd(fm, p + 12) == w && w < |fm| && LineEnd(fm, w) == t
    ensures DescriptionValue(fm) == Strip(fm[w..t])
  {
    assert DescriptionValue(fm) == KeyValue(fm, Some(p));
  }

  /** In a block y + "description: \n" + z, where y holds no "description:" and z is a stripped
      single line, the `\s*` after the key runs over the end of its line, so the description is
      z, the line after it. */
  lemma {:induction false} DescriptionOfEmptyLine(y: string, z: string)
    requires !Contains(y, "description:")
    requires z != [] && IsStripped(z) && '\n' !in z
    ensures DescriptionValue(y + "description: \n" + z) == z
  {
    var fm := y + "description: \n" + z;
    var p := |y|;
    var w := p + 14;
    assert IndexOf(fm, "description:", 0) == Some(p) by {
      assert fm == y + "description:" + (" \n" + z);
      FirstKeyAfter(y, " \n" + z);
    }
    assert fm[w..|fm|] == z by {
      var h := y + "description: \n";
      assert |h| == w && fm == h + z;
    }
    assert SpaceEnd(fm, p + 12) == w by {
      assert fm[p + 12] == ' ' && fm[p + 13] == '\n' && fm[w] == z[0];
      assert SpaceEnd(fm, w) == w;
    }
    assert LineEnd(fm, w) == |fm| by {
      LineEndIs(fm, w, |fm|);
    }
    DescriptionValueAt(fm, p, w, |fm|);
  }

  /** A known end of line is what LineEnd finds. */
  lemma {:induction false} LineEndIs(s: string, i: nat, t: nat)
    requires i <= t <= |s| && '\n' !in s[i..t] && (t == |s| || s[t] == '\n')
    ensures LineEnd(s, i) == t
    decreases t - i
  {
    if i < t {
      assert s[i] == s[i..t][0];
      assert s[i + 1..t] == s[i..t][1..];
      LineEndIs(s, i + 1, t);
    }
  }
}
