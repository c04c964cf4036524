/** Left-to-right substitution: at each position the pattern either matches a stretch of text,
    which is replaced and skipped, or one character is copied. */
module Scanner {
  /** What a pattern says about the start of a text. */
  datatype Match = NoMatch | Hit(len: nat, text: string)

  type Pattern = string -> Match

  predicate Hits(m: Pattern, s: string) {
    m(s).Hit? && 0 < m(s).len <= |s|
  }

  function Sub(m: Pattern, s: string): string {
    if s == "" then ""
    else if Hits(m, s) then m(s).text + Sub(m, s[m(s).len..])
    else [s[0]] + Sub(m, s[1..])
  }

  /** No stretch of `s` matches. */
  ghost predicate Clean(m: Pattern, s: string) {
    forall p | 0 <= p <= |s| :: !Hits(m, s[p..])
  }

  /** A text in which nothing matches is copied. */
  lemma {:induction false} CleanIsCopied(m: Pattern, s: string)
    requires Clean(m, s)
    ensures Sub(m, s) == s
  {
    if s != "" {
      assert s[0..] == s;
      assert !Hits(m, s);
      forall p | 0 <= p <= |s[1..]| ensures !Hits(m, s[1..][p..]) {
        assert s[1..][p..] == s[p + 1..];
      }
      CleanIsCopied(m, s[1..]);
    }
  }

  /** Before the first match the text is copied. */
  lemma {:induction false} CopiedBefore(m: Pattern, s: string, k: nat)
    requires k <= |s| && forall p | 0 <= p < k :: !Hits(m, s[p..])
    ensures Sub(m, s) == s[..k] + Sub(m, s[k..])
  {
    if k > 0 {
      assert s[0..] == s;
      forall p | 0 <= p < k - 1 ensures !Hits(m, s[1..][p..]) {
        assert s[1..][p..] == s[p + 1..];
      }
      CopiedBefore(m, s[1..], k - 1);
      assert s[1..][k - 1..] == s[k..];
      assert s[..k] == [s[0]] + s[1..][..k - 1];
    } else {
      assert s[..k] == "" && s[k..] == s;
    }
  }

  /** No match starts in `x` and depends on what follows. */
  ghost predicate Apart(m: Pattern, x: string, y: string) {
    forall p | 0 <= p < |x| ::
      && (Hits(m, (x + y)[p..]) <==> Hits(m, x[p..]))
      && (Hits(m, x[p..]) ==> m((x + y)[p..]) == m(x[p..]))
  }

  /** Texts that do not run together are replaced one after the other. */
  lemma {:induction false} SubSplits(m: Pattern, x: string, y: string)
    requires Apart(m, x, y)
    ensures Sub(m, x + y) == Sub(m, x) + Sub(m, y)
  {
    if x == "" {
      assert x + y == y;
    } else {
      assert x[0..] == x && (x + y)[0..] == x + y;
      var n := if Hits(m, x) then m(x).len else 1;
      assert (x + y)[n..] == x[n..] + y;
      forall p | 0 <= p < |x[n..]|
        ensures (x[n..] + y)[p..] == (x + y)[p + n..] && x[n..][p..] == x[p + n..]
      {
      }
      SubSplits(m, x[n..], y);
    }
  }

  /** A match at the start is replaced, and the rest after it. */
  lemma SubOfHit(m: Pattern, t: string, y: string)
    requires Hits(m, t + y) && m(t + y).len == |t|
    ensures Sub(m, t + y) == m(t + y).text + Sub(m, y)
  {
    assert (t + y)[|t|..] == y;
  }

  /** A match between two texts is replaced where it stands, if the text before does not run into it. */
  lemma SubAround(m: Pattern, x: string, t: string, y: string)
    requires Apart(m, x, t + y) && Hits(m, t + y) && m(t + y).len == |t|
    ensures Sub(m, x + t + y) == Sub(m, x) + m(t + y).text + Sub(m, y)
  {
    hide Apart, Hits, Sub;
    SubSplits(m, x, t + y);
    SubOfHit(m, t, y);
    assert x + t + y == x + (t + y);
  }

  /** Up to the first `mark` the output is copied, when every replacement starts with one. */
  lemma {:induction false} CopiedUpToMark(m: Pattern, mark: char, s: string, k: nat)
    requires forall t: string | Hits(m, t) :: m(t).text != "" && m(t).text[0] == mark
    requires k <= |Sub(m, s)| && mark !in Sub(m, s)[..k]
    ensures k <= |s| && s[..k] == Sub(m, s)[..k]
  {
    if k > 0 {
      assert Sub(m, s)[0] == Sub(m, s)[..k][0];
      assert !Hits(m, s);
      var rest := Sub(m, s[1..]);
      assert Sub(m, s) == [s[0]] + rest;
      assert rest[..k - 1] == Sub(m, s)[..k][1..];
      CopiedUpToMark(m, mark, s[1..], k - 1);
      assert s[..k] == [s[0]] + s[1..][..k - 1];
    }
  }

  /** The pattern cannot match across or inside what it inserts. */
  ghost predicate Sealed(m: Pattern, mark: char) {
    && (forall t: string | Hits(m, t) ::
          && m(t).text != "" && m(t).text[0] == mark && mark !in t[..m(t).len]
          && forall p: nat, r: string | p < |m(t).text| :: !Hits(m, m(t).text[p..] + r))
    && (forall t: string, u: string | Hits(m, t) && m(t).len <= |u| && u[..m(t).len] == t[..m(t).len] :: Hits(m, u))
  }

  /** After one pass nothing matches any more. */
  lemma {:induction false} NothingLeft(m: Pattern, mark: char, s: string)
    requires Sealed(m, mark)
    ensures Clean(m, Sub(m, s))
  {
    var out := Sub(m, s);
    if s == "" {
    } else if Hits(m, s) {
      var text, rest := m(s).text, s[m(s).len..];
      NothingLeft(m, mark, rest);
      forall p | 0 <= p <= |out| ensures !Hits(m, out[p..]) {
        if p < |text| {
          assert out[p..] == text[p..] + Sub(m, rest);
        } else {
          assert out[p..] == Sub(m, rest)[p - |text|..];
        }
      }
    } else {
      NothingLeft(m, mark, s[1..]);
      forall p | 0 <= p <= |out| ensures !Hits(m, out[p..]) {
        if p > 0 {
          assert out[p..] == Sub(m, s[1..])[p - 1..];
        } else {
          assert out[0..] == out;
          if Hits(m, out) {
            CopiedUpToMark(m, mark, s, m(out).len);
            assert false;
          }
        }
      }
    }
  }

  /** One pass is enough. */
  lemma OncePasses(m: Pattern, mark: char, s: string)
    requires Sealed(m, mark)
    ensures Clean(m, Sub(m, s)) && Sub(m, Sub(m, s)) == Sub(m, s)
  {
    NothingLeft(m, mark, s);
    CleanIsCopied(m, Sub(m, s));
  }

  // ------------------------------------------------------------------ character classes

  predicate IsSpace(c: char) {
    ('\t' <= c <= '\r') || ('\U{1C}' <= c <= ' ') || c == '\U{85}' || c == '\U{A0}' || c == '\U{1680}'
    || ('\U{2000}' <= c <= '\U{200A}') || c == '\U{2028}' || c == '\U{2029}' || c == '\U{202F}'
    || c == '\U{205F}' || c == '\U{3000}'
  }

  predicate IsWord(c: char) {
    ('a' <= c <= 'z') || ('A' <= c <= 'Z') || ('0' <= c <= '9') || c == '_'
  }

  /** The end of the longest stretch of characters of a class. */
  function Skip(s: string, i: nat, cls: char -> bool): (k: nat)
    requires i <= |s|
    ensures i <= k <= |s|
    ensures forall j | i <= j < k :: cls(s[j])
    ensures k < |s| ==> !cls(s[k])
    decreases |s| - i
  {
    if i < |s| && cls(s[i]) then Skip(s, i + 1, cls) else i
  }

  /** The two texts agree on their first `n` characters. */
  predicate Agree(s: string, t: string, n: nat) {
    n <= |s| && n <= |t| && forall j | 0 <= j < n :: s[j] == t[j]
  }

  /** The stretch depends on nothing after its end. */
  lemma {:induction false} SkipIsLocal(s: string, t: string, i: nat, cls: char -> bool)
    requires i <= |s| && Agree(s, t, Skip(s, i, cls))
    requires Skip(s, i, cls) < |t| && !cls(t[Skip(s, i, cls)])
    ensures Skip(t, i, cls) == Skip(s, i, cls)
    decreases |s| - i
  {
    if i < Skip(s, i, cls) {
      SkipIsLocal(s, t, i + 1, cls);
    }
  }

  predicate StartsAt(s: string, i: nat, w: string) {
    i + |w| <= |s| && s[i..i + |w|] == w
  }

  lemma StartIsLocal(s: string, t: string, i: nat, w: string, n: nat)
    requires Agree(s, t, n) && i + |w| <= n
    ensures StartsAt(s, i, w) <==> StartsAt(t, i, w)
  {
    assert s[i..i + |w|] == t[i..i + |w|];
  }
}
