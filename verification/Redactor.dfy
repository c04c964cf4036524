/** Masking of secrets in log lines. */
module Redactor {
  import opened Scanner

  predicate Occurs(v: string, line: string) {
    exists p | 0 <= p <= |line| :: v <= line[p..]
  }

  /** Leftmost, non-overlapping replacement of `v` by the mask text. */
  function Masking(v: string): Pattern {
    (t: string) => if v != "" && v <= t then Hit(|v|, "***") else NoMatch
  }

  function Replaced(line: string, v: string): string {
    Sub(Masking(v), line)
  }

  function Redacted(line: string, masks: seq<string>): string {
    if masks == [] then line else Replaced(Redacted(line, masks[..|masks| - 1]), masks[|masks| - 1])
  }

  // ------------------------------------------------------------------ the masks

  predicate IsBreak(c: char) {
    c == '\n' || c == '\r' || c == '\U{0B}' || c == '\U{0C}' || ('\U{1C}' <= c <= '\U{1E}')
    || c == '\U{85}' || c == '\U{2028}' || c == '\U{2029}'
  }

  /** The pieces between line breaks. */
  function Lines(v: string): (ls: seq<string>)
    ensures |ls| > 0
  {
    if v == "" then [""]
    else if IsBreak(v[0]) then [""] + Lines(v[1..])
    else var rest := Lines(v[1..]); [[v[0]] + rest[0]] + rest[1..]
  }

  function Stripped(s: string): string {
    if s == "" then ""
    else if IsSpace(s[0]) then Stripped(s[1..])
    else if IsSpace(s[|s| - 1]) then Stripped(s[..|s| - 1])
    else s
  }

  /** `f` is the secret `v`, or a long enough line of it, and long enough to be masked. */
  predicate FragmentOf(v: string, f: string) {
    (|f| >= 4 && f == v) || LongLine(Lines(v), |Lines(v)|, f)
  }

  /** `f` is one of the first `n` lines, without the white space around it, and long. */
  predicate LongLine(lines: seq<string>, n: nat, f: string)
    requires n <= |lines|
  {
    |f| >= 8 && exists i | 0 <= i < n :: f == Stripped(lines[i])
  }

  lemma NextLine(lines: seq<string>, n: nat, f: string)
    requires n < |lines|
    ensures LongLine(lines, n + 1, f) <==> LongLine(lines, n, f) || (|f| >= 8 && f == Stripped(lines[n]))
  {
  }

  ghost predicate Fragment(values: set<string>, f: string) {
    exists v | v in values :: FragmentOf(v, f)
  }

  predicate LongestFirst(masks: seq<string>) {
    forall i, k | 0 <= i < k < |masks| :: |masks[i]| >= |masks[k]|
  }

  /** Insert into a list that is sorted by falling length. */
  method Insert(masks: seq<string>, f: string) returns (r: seq<string>)
    requires LongestFirst(masks)
    ensures LongestFirst(r) && forall x :: x in r <==> x in masks || x == f
  {
    var i := 0;
    while i < |masks| && |masks[i]| >= |f|
      invariant i <= |masks|
      invariant forall k | 0 <= k < i :: |masks[k]| >= |f|
    {
      i := i + 1;
    }
    r := masks[..i] + [f] + masks[i..];
    assert masks == masks[..i] + masks[i..];
  }

  /** The secret itself, and its long lines without the white space around them. */
  method AddFragments(masks: seq<string>, v: string) returns (r: seq<string>)
    requires LongestFirst(masks)
    ensures LongestFirst(r) && forall f :: f in r <==> f in masks || FragmentOf(v, f)
  {
    r := masks;
    if |v| >= 4 {
      r := Insert(r, v);
    }
    var lines, i := Lines(v), 0;
    while i < |lines|
      invariant i <= |lines| && LongestFirst(r)
      invariant forall f :: f in r <==> f in masks || (|f| >= 4 && f == v) || LongLine(lines, i, f)
    {
      var f := Stripped(lines[i]);
      if |f| >= 8 {
        r := Insert(r, f);
      }
      forall g ensures LongLine(lines, i + 1, g) <==> LongLine(lines, i, g) || (|g| >= 8 && g == f) {
        NextLine(lines, i, g);
      }
      i := i + 1;
    }
  }

  method SelectMasks(values: set<string>) returns (masks: seq<string>)
    ensures LongestFirst(masks)
    ensures forall f :: f in masks <==> Fragment(values, f)
  {
    masks := [];
    var left := values;
    while left != {}
      invariant left <= values && LongestFirst(masks)
      invariant forall f :: f in masks <==> Fragment(values - left, f)
      decreases left
    {
      var v :| v in left;
      ghost var done := values - left;
      left := left - {v};
      masks := AddFragments(masks, v);
      assert values - left == done + {v};
      forall f ensures Fragment(values - left, f) <==> Fragment(done, f) || FragmentOf(v, f) {
        OneMoreSecret(done, v, f);
      }
    }
    assert values - left == values;
  }

  lemma OneMoreSecret(done: set<string>, v: string, f: string)
    ensures Fragment(done + {v}, f) <==> Fragment(done, f) || FragmentOf(v, f)
  {
    assert FragmentOf(v, f) ==> v in done + {v};
    assert forall u | u in done && FragmentOf(u, f) :: u in done + {v};
  }

  method Redact(line: string, masks: seq<string>) returns (r: string)
    ensures r == Redacted(line, masks)
  {
    r := line;
    var i := 0;
    while i < |masks|
      invariant i <= |masks| && r == Redacted(line, masks[..i])
    {
      if Occurs(masks[i], r) {
        r := Replaced(r, masks[i]);
      } else {
        AbsentIsCopied(masks[i], r);
      }
      i := i + 1;
      assert masks[..i][..i - 1] == masks[..i - 1];
    }
    assert masks[..|masks|] == masks;
  }

  lemma AbsentIsCopied(v: string, line: string)
    requires !Occurs(v, line)
    ensures Replaced(line, v) == line
  {
    CleanIsCopied(Masking(v), line);
  }

  // ------------------------------------------------------------------ what is masked

  predicate Unbroken(s: string) {
    forall i | 0 <= i < |s| :: !IsBreak(s[i])
  }

  /** `l` stands in `v` between line breaks, or between one and an end of the text. */
  predicate IsLineAt(v: string, p: nat, l: string) {
    && p + |l| <= |v| && v[p..p + |l|] == l && Unbroken(l)
    && (p > 0 ==> IsBreak(v[p - 1])) && (p + |l| < |v| ==> IsBreak(v[p + |l|]))
  }

  /** The first line, and where it ends. */
  lemma {:induction false} FirstLine(v: string)
    ensures IsLineAt(v, 0, Lines(v)[0])
    ensures |Lines(v)[0]| < |v| ==> Lines(v)[1..] == Lines(v[|Lines(v)[0]| + 1..])
    ensures |Lines(v)[0]| == |v| ==> |Lines(v)| == 1
  {
    if v != "" && !IsBreak(v[0]) {
      FirstLine(v[1..]);
      var l := Lines(v[1..])[0];
      assert Lines(v)[0] == [v[0]] + l;
      assert v[1..][..|l|] == l;
      assert |l| < |v[1..]| ==> v[1..][|l| + 1..] == v[|l| + 2..];
    }
  }

  /** The lines are what stands between line breaks: nothing is lost, and nothing is made up. */
  lemma {:induction false} LinesAreExact(v: string, l: string)
    ensures l in Lines(v) <==> exists p: nat :: IsLineAt(v, p, l)
  {
    FirstLine(v);
    var h := Lines(v)[0];
    if |h| < |v| {
      var rest := v[|h| + 1..];
      LinesAreExact(rest, l);
      assert Lines(v) == [h] + Lines(rest);
      forall p: nat ensures IsLineAt(rest, p, l) <==> IsLineAt(v, p + |h| + 1, l) {
        LaterLine(v, |h| + 1, p, l);
      }
      forall p: nat | IsLineAt(v, p, l) && p <= |h| ensures l == h {
        OneFirstLine(v, h, l, p);
      }
      if exists p: nat :: IsLineAt(v, p, l) {
        var p: nat :| IsLineAt(v, p, l);
        assert p > |h| ==> IsLineAt(rest, p - |h| - 1, l);
      }
    } else {
      assert Lines(v) == [h];
      forall p: nat | IsLineAt(v, p, l) ensures l == h {
        OneFirstLine(v, h, l, p);
      }
    }
  }

  lemma LaterLine(v: string, n: nat, p: nat, l: string)
    requires 0 < n <= |v| && IsBreak(v[n - 1])
    ensures IsLineAt(v[n..], p, l) <==> IsLineAt(v, p + n, l)
  {
    if p + n + |l| <= |v| {
      assert v[n..][p..p + |l|] == v[p + n..p + n + |l|];
    }
  }

  lemma OneFirstLine(v: string, h: string, l: string, p: nat)
    requires IsLineAt(v, 0, h) && IsLineAt(v, p, l) && p <= |h|
    ensures l == h
  {
    LineHasNoBreak(v, 0, h);
    LineHasNoBreak(v, p, l);
    assert v[..|h|] == v[0..|h|] == h;
  }

  lemma LineHasNoBreak(v: string, p: nat, l: string)
    requires IsLineAt(v, p, l)
    ensures forall i | p <= i < p + |l| :: !IsBreak(v[i])
  {
    forall i | p <= i < p + |l| ensures !IsBreak(v[i]) {
      assert v[i] == v[p..p + |l|][i - p];
    }
  }

  /** Neither end is white space. */
  predicate Trim(s: string) {
    s != "" ==> !IsSpace(s[0]) && !IsSpace(s[|s| - 1])
  }

  predicate Blank(s: string) {
    forall i | 0 <= i < |s| :: IsSpace(s[i])
  }

  /** A text is stripped of the white space around it, and of nothing else. */
  lemma {:induction false} StrippedIsExact(before: string, f: string, after: string)
    requires Blank(before) && Blank(after) && Trim(f)
    ensures Stripped(before + f + after) == f
    decreases |before| + |after|
  {
    var s := before + f + after;
    if before != "" {
      assert s[0] == before[0] && s[1..] == before[1..] + f + after;
      StrippedIsExact(before[1..], f, after);
    } else if after != "" {
      var n := |after| - 1;
      assert s[|s| - 1] == after[n] && s[..|s| - 1] == before + f + after[..n];
      if f == "" {
        assert s[0] == after[0] && s[1..] == after[1..] == "" + f + after[1..];
        StrippedIsExact("", f, after[1..]);
      } else {
        assert s[0] == f[0];
        StrippedIsExact(before, f, after[..n]);
      }
    } else {
      assert s == f;
    }
  }

  /** How the stripped text stands in the text. */
  lemma {:induction false} StrippedStands(s: string) returns (before: string, after: string)
    ensures s == before + Stripped(s) + after && Blank(before) && Blank(after) && Trim(Stripped(s))
  {
    hide IsSpace;
    if s != "" && IsSpace(s[0]) {
      var b, a := StrippedStands(s[1..]);
      before, after := [s[0]] + b, a;
      assert s == [s[0]] + s[1..] && Stripped(s) == Stripped(s[1..]);
    } else if s != "" && IsSpace(s[|s| - 1]) {
      var b, a := StrippedStands(s[..|s| - 1]);
      before, after := b, a + [s[|s| - 1]];
      assert s == s[..|s| - 1] + [s[|s| - 1]] && Stripped(s) == Stripped(s[..|s| - 1]);
    } else {
      before, after := "", "";
    }
  }

  /** `f` is in `v` with only white space between it and the line breaks around it. */
  ghost predicate FillsALine(v: string, f: string) {
    exists p: nat, before, after :: IsLineAt(v, p, before + f + after) && Blank(before) && Blank(after)
  }

  /** Which texts are masked: the secrets of four characters or more, and what fills a line of a secret
      in eight characters or more that start and end with no white space. */
  lemma MasksAre(values: set<string>, f: string)
    ensures Fragment(values, f) <==>
      || (|f| >= 4 && f in values)
      || (|f| >= 8 && Trim(f) && exists v | v in values :: FillsALine(v, f))
  {
    forall v | v in values && |f| >= 8
      ensures LongLine(Lines(v), |Lines(v)|, f) <==> Trim(f) && FillsALine(v, f)
    {
      LongLineIs(v, f);
    }
    if exists v | v in values :: FillsALine(v, f) {
      var v :| v in values && FillsALine(v, f);
      assert |f| >= 8 && Trim(f) ==> FragmentOf(v, f);
    }
    if |f| >= 4 && f in values {
      assert FragmentOf(f, f);
    }
  }

  lemma LongLineIs(v: string, f: string)
    requires |f| >= 8
    ensures LongLine(Lines(v), |Lines(v)|, f) <==> Trim(f) && FillsALine(v, f)
  {
    if LongLine(Lines(v), |Lines(v)|, f) {
      var i :| 0 <= i < |Lines(v)| && f == Stripped(Lines(v)[i]);
      var l := Lines(v)[i];
      LinesAreExact(v, l);
      var p: nat :| IsLineAt(v, p, l);
      var before, after := StrippedStands(l);
      assert IsLineAt(v, p, before + f + after);
    }
    if Trim(f) && FillsALine(v, f) {
      var p: nat, before, after :| IsLineAt(v, p, before + f + after) && Blank(before) && Blank(after);
      LinesAreExact(v, before + f + after);
      StrippedIsExact(before, f, after);
      var i :| 0 <= i < |Lines(v)| && Lines(v)[i] == before + f + after;
    }
  }

  // ------------------------------------------------------------------ completeness

  predicate Starless(v: string) {
    '*' !in v
  }

  /** Masking cannot write the end of this text: it has no mask text in it and ends without star. */
  predicate Unforged(u: string) {
    (u != "" ==> u[|u| - 1] != '*') && !Occurs("***", u)
  }

  /** A mask no redaction can bring back: no star at either end, no mask text inside. */
  predicate Harmless(v: string) {
    v != "" && v[0] != '*' && Unforged(v)
  }

  lemma TailIsUnforged(u: string)
    requires Unforged(u) && u != ""
    ensures Unforged(u[1..])
  {
    forall p | 0 <= p <= |u[1..]| ensures !("***" <= u[1..][p..]) {
      assert u[1..][p..] == u[p + 1..];
    }
  }

  lemma MaskIsForged(r: string, u: string)
    requires u != "" && u <= "***" + r
    ensures !Unforged(u)
  {
    var t := "***" + r;
    assert t[..3] == "***";
    if |u| <= 3 {
      assert u[|u| - 1] == t[|u| - 1] == '*';
    } else {
      assert u[0..][..3] == t[..3];
      assert "***" <= u[0..];
    }
  }

  /** A replacement brings no such text about: where the output starts with it, the input did. */
  lemma {:induction false} PrefixIsCopied(u: string, v: string, s: string)
    requires Unforged(u) && u <= Replaced(s, v)
    ensures u <= s
  {
    if u != "" {
      if Hits(Masking(v), s) {
        MaskIsForged(Replaced(s[|v|..], v), u);
      } else {
        TailIsUnforged(u);
        assert Replaced(s, v)[1..] == Replaced(s[1..], v) && u[0] == s[0];
        PrefixIsCopied(u[1..], v, s[1..]);
        assert u == [u[0]] + u[1..] && s == [s[0]] + s[1..];
      }
    }
  }

  /** After a replacement a harmless text is absent if it was absent before, or is the one replaced. */
  lemma {:induction false} ReplacedIsFree(u: string, v: string, line: string)
    requires Harmless(u) && (u == v || !Occurs(u, line))
    ensures !Occurs(u, Replaced(line, v))
  {
    var m, out := Masking(v), Replaced(line, v);
    if line != "" {
      var n := if Hits(m, line) then |v| else 1;
      forall p | 0 <= p <= |line[n..]| && u <= line[n..][p..] ensures u == v {
        assert line[n..][p..] == line[p + n..];
      }
      ReplacedIsFree(u, v, line[n..]);
      var rest := Replaced(line[n..], v);
      var head := if Hits(m, line) then "***" else [line[0]];
      assert out == head + rest;
      forall p | 0 <= p <= |out| ensures !(u <= out[p..]) {
        if p >= |head| {
          assert out[p..] == rest[p - |head|..];
        } else if Hits(m, line) {
          assert out[p] == '*';
        } else if u <= out {
          assert out[0..] == out && line[0..] == line;
          PrefixIsCopied(u, v, line);
        }
      }
    }
  }

  predicate AllGone(line: string, masks: seq<string>) {
    forall v | v in masks :: !Occurs(v, Redacted(line, masks))
  }

  /** A harmless mask is gone once it was applied, and no other mask brings it back. */
  lemma {:induction false} HarmlessIsGone(line: string, masks: seq<string>, u: string)
    requires u in masks && Harmless(u)
    ensures !Occurs(u, Redacted(line, masks))
  {
    var n := |masks| - 1;
    if u != masks[n] {
      assert u in masks[..n];
      HarmlessIsGone(line, masks[..n], u);
    }
    ReplacedIsFree(u, masks[n], Redacted(line, masks[..n]));
  }

  /** Whatever the line, and in whatever order they are applied, no harmless mask is left in it. */
  lemma RedactionIsComplete(line: string, masks: seq<string>)
    requires forall v | v in masks :: Harmless(v)
    ensures AllGone(line, masks)
  {
    forall v | v in masks ensures !Occurs(v, Redacted(line, masks)) {
      HarmlessIsGone(line, masks, v);
    }
  }

  lemma PartOccurs(u: string, v: string, line: string)
    requires Occurs(u, v) && Occurs(v, line)
    ensures Occurs(u, line)
  {
    var p :| 0 <= p <= |v| && u <= v[p..];
    var q :| 0 <= q <= |line| && v <= line[q..];
    assert line[q..][..|v|] == v && line[q + p..][..|u|] == v[p..][..|u|];
    assert u <= line[q + p..];
  }

  /** Some harmless mask of the list is part of `v`. */
  predicate Covered(masks: seq<string>, v: string) {
    exists u | u in masks :: Harmless(u) && Occurs(u, v)
  }

  lemma CoveredIsGone(line: string, masks: seq<string>, v: string)
    requires Covered(masks, v)
    ensures !Occurs(v, Redacted(line, masks))
  {
    var u :| u in masks && Harmless(u) && Occurs(u, v);
    HarmlessIsGone(line, masks, u);
    if Occurs(v, Redacted(line, masks)) {
      PartOccurs(u, v, Redacted(line, masks));
    }
  }

  /** For one list less is enough: a mask that contains a harmless one disappears with it, as the mask
      `"*abcd"` does behind which `"abcd"` is applied. */
  lemma PartsAreEnough(line: string, masks: seq<string>)
    requires forall v | v in masks :: Covered(masks, v)
    ensures AllGone(line, masks)
  {
    forall v | v in masks ensures !Occurs(v, Redacted(line, masks)) {
      CoveredIsGone(line, masks, v);
    }
  }

  // ------------------------------------------------------------------ and only for harmless masks

  lemma ShortIsCopied(v: string, s: string)
    requires |s| < |v|
    ensures Replaced(s, v) == s
  {
    AbsentIsCopied(v, s);
  }

  /** What the replacement of the first occurrence of `v`, at `k`, leaves of the line. */
  lemma FirstIsMasked(v: string, line: string, k: nat)
    requires v != "" && k + |v| <= |line| && line[k..k + |v|] == v
    requires forall p | 0 <= p < k :: !(v <= line[p..])
    ensures Replaced(line, v) == line[..k] + "***" + Replaced(line[k + |v|..], v)
  {
    var m := Masking(v);
    CopiedBefore(m, line, k);
    var rest := line[k..];
    assert rest[..|v|] == v && v <= rest && rest[|v|..] == line[k + |v|..];
    assert Sub(m, rest) == "***" + Replaced(line[k + |v|..], v);
  }

  /** A leading star: what is left of the mask completes the mask text. */
  lemma LeadingStar(v: string)
    requires v != "" && v[0] == '*'
    ensures Occurs(v, Replaced(v + v[1..], v))
  {
    var line := v + v[1..];
    assert line[0..|v|] == v && line[|v|..] == v[1..];
    FirstIsMasked(v, line, 0);
    ShortIsCopied(v, v[1..]);
    var out := Replaced(line, v);
    assert out == "***" + v[1..];
    assert out[2..] == v;
  }

  /** A match before the end of the first copy would have a star where the mask begins. */
  lemma EarlyMatch(v: string, k: nat, p: nat)
    requires k == |v| - 1 && p < k && v <= (v[..k] + v)[p..]
    ensures v[0] == v[k]
  {
    var line := v[..k] + v;
    assert v[0] == line[p..][0] == v[p];
    assert v[k] == line[p..][k] == v[p];
  }

  lemma TrailingStar(v: string)
    requires v != "" && v[0] != '*' && v[|v| - 1] == '*'
    ensures Occurs(v, Replaced(v[..|v| - 1] + v, v))
  {
    var k := |v| - 1;
    var line := v[..k] + v;
    forall p | 0 <= p < k ensures !(v <= line[p..]) {
      if v <= line[p..] {
        EarlyMatch(v, k, p);
      }
    }
    assert line[k..k + |v|] == v && line[k + |v|..] == "";
    FirstIsMasked(v, line, k);
    var out := Replaced(line, v);
    assert out == v[..k] + "***";
    assert out[0..][..|v|] == v[..k] + ['*'] == v;
    assert v <= out[0..];
  }

  predicate StarsAt(v: string, p: nat) {
    p + 3 <= |v| && v[p] == '*' && v[p + 1] == '*' && v[p + 2] == '*'
  }

  /** The mask in place of its own mask text at `q`. */
  function Spliced(v: string, q: nat): string
    requires q + 3 <= |v|
  {
    v[..q] + v + v[q + 3..]
  }

  /** A match before the first mask text would put a mask text there. */
  lemma EarlyStars(v: string, q: nat, p: nat)
    requires StarsAt(v, q) && p < q && v <= Spliced(v, q)[p..]
    ensures StarsAt(v, p)
  {
    var line := Spliced(v, q);
    assert line[p..][q] == line[p + q] && line[p..][q + 1] == line[p + q + 1];
    assert v[p + 0] == v[q + 0] && v[p + 1] == v[q + 1] && v[p + 2] == v[q + 2];
  }

  lemma NoEarlyMatch(v: string, q: nat)
    requires StarsAt(v, q) && forall p | 0 <= p < q :: !StarsAt(v, p)
    ensures forall p | 0 <= p < q :: !(v <= Spliced(v, q)[p..])
  {
    forall p | 0 <= p < q ensures !(v <= Spliced(v, q)[p..]) {
      if v <= Spliced(v, q)[p..] {
        EarlyStars(v, q, p);
      }
    }
  }

  lemma SplicedParts(v: string, q: nat)
    requires q + 3 <= |v|
    ensures
      var line := Spliced(v, q);
      && q + |v| <= |line| && line[..q] == v[..q]
      && line[q..q + |v|] == v && line[q + |v|..] == v[q + 3..]
  {
  }

  lemma AroundStars(v: string, q: nat)
    requires StarsAt(v, q)
    ensures v[..q] + "***" + v[q + 3..] == v
  {
    assert v[q..q + 3] == "***";
    assert v == v[..q] + v[q..q + 3] + v[q + 3..];
  }

  lemma OccursInItself(v: string)
    ensures Occurs(v, v)
  {
    assert v <= v[0..];
  }

  /** The mask text inside: the line with the mask in place of its own first mask text. */
  lemma InnerStars(v: string, q: nat)
    requires StarsAt(v, q) && forall p | 0 <= p < q :: !StarsAt(v, p)
    ensures Occurs(v, Replaced(Spliced(v, q), v))
  {
    NoEarlyMatch(v, q);
    SplicedParts(v, q);
    FirstIsMasked(v, Spliced(v, q), q);
    ShortIsCopied(v, v[q + 3..]);
    AroundStars(v, q);
    OccursInItself(v);
  }

  /** The first mask text inside `v`. */
  lemma FirstStars(v: string, p: nat) returns (q: nat)
    requires StarsAt(v, p)
    ensures StarsAt(v, q) && forall i | 0 <= i < q :: !StarsAt(v, i)
  {
    if i :| 0 <= i < p && StarsAt(v, i) {
      q := FirstStars(v, i);
    } else {
      q := p;
    }
  }

  /** For each other mask there is a line whose redaction spells it. */
  lemma HarmfulLine(v: string) returns (line: string)
    requires !Harmless(v)
    ensures !AllGone(line, [v])
  {
    if v == "" {
      line := "";
      assert v <= Redacted(line, [v])[0..];
    } else if v[0] == '*' {
      line := v + v[1..];
      LeadingStar(v);
    } else if v[|v| - 1] == '*' {
      line := v[..|v| - 1] + v;
      TrailingStar(v);
    } else {
      var p :| 0 <= p <= |v| && "***" <= v[p..];
      assert v[p] == v[p..][0] && v[p + 1] == v[p..][1] && v[p + 2] == v[p..][2];
      var q := FirstStars(v, p);
      line := Spliced(v, q);
      InnerStars(v, q);
    }
    assert [v][..0] == [] && Redacted(line, [v]) == Replaced(line, v);
    assert v in [v];
  }

  /** Only masks of `allowed` are applied. */
  predicate Drawn(masks: seq<string>, allowed: set<string>) {
    forall v | v in masks :: v in allowed
  }

  /** The masks of `allowed`, in any order and number, disappear from every line exactly when each
      of them is harmless.  The list that the worker applies is one of these. */
  lemma RedactionIsCompleteIff(allowed: set<string>)
    ensures (forall line, masks | Drawn(masks, allowed) :: AllGone(line, masks))
       <==> (forall v | v in allowed :: Harmless(v))
  {
    if forall v | v in allowed :: Harmless(v) {
      forall line, masks | Drawn(masks, allowed) ensures AllGone(line, masks) {
        RedactionIsComplete(line, masks);
      }
    } else {
      var v :| v in allowed && !Harmless(v);
      var line := HarmfulLine(v);
      assert Drawn([v], allowed);
    }
  }

  lemma MaskTextIsStarry(v: string)
    requires Occurs("***", v)
    ensures '*' in v
  {
    var p :| 0 <= p <= |v| && "***" <= v[p..];
    assert v[p] == v[p..][0] == '*';
  }

  lemma StarlessIsHarmless(v: string)
    requires v != "" && Starless(v)
    ensures Harmless(v)
  {
    if Occurs("***", v) {
      MaskTextIsStarry(v);
    }
  }

  /** From the secrets to the line: no secret of four or more characters, and no long line of a
      secret, is readable after redaction. */
  method RedactSecrets(values: set<string>, line: string) returns (r: string)
    ensures (forall f | Fragment(values, f) :: Harmless(f)) ==> forall f | Fragment(values, f) :: !Occurs(f, r)
    ensures (forall v | v in values :: Starless(v)) ==> forall f | Fragment(values, f) :: !Occurs(f, r)
  {
    var masks := SelectMasks(values);
    r := Redact(line, masks);
    if forall v | v in values :: Starless(v) {
      forall f | f in masks ensures Harmless(f) {
        FragmentsAreStarless(values, f);
        StarlessIsHarmless(f);
      }
    }
    if forall f | Fragment(values, f) :: Harmless(f) {
      RedactionIsComplete(line, masks);
    }
  }

  lemma FragmentsAreStarless(values: set<string>, f: string)
    requires Fragment(values, f) && forall v | v in values :: Starless(v)
    ensures Starless(f)
  {
    var v :| v in values && FragmentOf(v, f);
    if f != v {
      var i :| 0 <= i < |Lines(v)| && f == Stripped(Lines(v)[i]);
      LinesAreStarless(v, i);
      StrippedIsStarless(Lines(v)[i]);
    }
  }

  lemma {:induction false} LinesAreStarless(v: string, i: nat)
    requires Starless(v) && i < |Lines(v)|
    ensures Starless(Lines(v)[i])
  {
    if v != "" {
      if i > 0 {
        LinesAreStarless(v[1..], if IsBreak(v[0]) then i - 1 else i);
      } else if !IsBreak(v[0]) {
        LinesAreStarless(v[1..], 0);
      }
    }
  }

  lemma {:induction false} StrippedIsStarless(s: string)
    requires Starless(s)
    ensures Starless(Stripped(s))
  {
    if s == "" {
    } else if IsSpace(s[0]) {
      StrippedIsStarless(s[1..]);
    } else if IsSpace(s[|s| - 1]) {
      StrippedIsStarless(s[..|s| - 1]);
    }
  }

  /** With a star in a mask the claim fails: hiding one secret spells another. */
  lemma StarsBreakRedaction()
    ensures
      var masks, line := ["x***y", "abcd"], "xabcdy";
      LongestFirst(masks) && Redacted(line, masks) == "x***y" && Occurs(masks[0], Redacted(line, masks))
  {
    var line, u, v := "xabcdy", "x***y", "abcd";
    AbsentFromLine(u, line);
    assert [u, v][..1] == [u] && [u][..0] == [];
    assert Redacted(line, [u]) == line;
    MaskedInside(v, line);
    assert Redacted(line, [u, v]) == u;
    assert u <= Redacted(line, [u, v])[0..];
  }

  lemma MaskedInside(v: string, line: string)
    requires v == "abcd" && line == "xabcdy"
    ensures Replaced(line, v) == "x***y"
  {
    var m := Masking(v);
    assert |v| == 4 && v[0] == 'a' && line[0] == 'x';
    assert !Hits(m, line) && !Hits(m, "y") && "y"[1..] == "";
    assert Sub(m, "y") == "y";
    var rest := v + "y";
    assert line[1..] == rest && rest[|v|..] == "y" && v <= rest;
    assert Sub(m, rest) == "***" + "y";
    assert Replaced(line, v) == "x" + ("***" + "y");
  }

  lemma AbsentFromLine(u: string, line: string)
    requires u == "x***y" && line == "xabcdy"
    ensures Replaced(line, u) == line
  {
    forall p | 0 <= p <= |line| ensures !(u <= line[p..]) {
      assert p < 2 ==> line[p..][1] != u[1];
    }
    AbsentIsCopied(u, line);
  }
}
