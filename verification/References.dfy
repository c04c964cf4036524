/** References to secrets and variables in texts: masking them for display, resolving them for use. */
module References {
  import opened Rows
  import opened Scanner

  /** A reference: its namespace, its name, and the length of its text. */
  datatype Ref = Ref(len: nat, secret: bool, name: string)

  // `{{`, spaces, `secrets.` or `variable.`, a name, spaces, `}}`: where each part ends.

  function SpaceEnd(t: string): (i: nat)
    requires StartsAt(t, 0, "{{")
    ensures 2 <= i <= |t|
  {
    Skip(t, 2, IsSpace)
  }

  predicate Namespaced(t: string) {
    StartsAt(t, 0, "{{") && (StartsAt(t, SpaceEnd(t), "secrets.") || StartsAt(t, SpaceEnd(t), "variable."))
  }

  function NameStart(t: string): (j: nat)
    requires Namespaced(t)
    ensures SpaceEnd(t) < j <= |t|
  {
    SpaceEnd(t) + if StartsAt(t, SpaceEnd(t), "secrets.") then 8 else 9
  }

  function NameEnd(t: string): (k: nat)
    requires Namespaced(t)
    ensures NameStart(t) <= k <= |t|
  {
    Skip(t, NameStart(t), IsWord)
  }

  function Close(t: string): (e: nat)
    requires Namespaced(t)
    ensures NameEnd(t) <= e <= |t|
  {
    Skip(t, NameEnd(t), IsSpace)
  }

  predicate IsRef(t: string) {
    Namespaced(t) && NameStart(t) < NameEnd(t) && StartsAt(t, Close(t), "}}")
  }

  function Parse(t: string): (r: Option<Ref>)
    ensures r.Some? ==> 4 < r.value.len <= |t| && (forall c | c in r.value.name :: IsWord(c))
  {
    if !IsRef(t) then None
    else Some(Ref(Close(t) + 2, StartsAt(t, SpaceEnd(t), "secrets."), t[NameStart(t)..NameEnd(t)]))
  }

  function Shown(r: Ref): string {
    (if r.secret then "<secret " else "<variable ") + r.name + ">"
  }

  function MaskMatch(t: string): Match {
    match Parse(t) case None => NoMatch case Some(r) => Hit(r.len, Shown(r))
  }

  function Masks(): Pattern {
    (t: string) => MaskMatch(t)
  }

  function MaskSecrets(text: string): string {
    Sub(Masks(), text)
  }

  /** The value of a reference, or the reference itself when there is none. */
  function ResolveMatch(t: string, lookup: (bool, string) -> string): Match {
    match Parse(t)
    case None => NoMatch
    case Some(r) => Hit(r.len, if lookup(r.secret, r.name) != "" then lookup(r.secret, r.name) else t[..r.len])
  }

  function Resolves(lookup: (bool, string) -> string): Pattern {
    (t: string) => ResolveMatch(t, lookup)
  }

  function ResolveSecrets(text: string, lookup: (bool, string) -> string): string {
    Sub(Resolves(lookup), text)
  }

  // ------------------------------------------------------------------ the pattern

  lemma NamespaceIsLocal(t: string, u: string)
    requires IsRef(t) && Agree(t, u, Close(t) + 2)
    ensures Namespaced(u) && SpaceEnd(u) == SpaceEnd(t) && NameStart(u) == NameStart(t)
    ensures StartsAt(t, SpaceEnd(t), "secrets.") <==> StartsAt(u, SpaceEnd(u), "secrets.")
  {
    var n, i := Close(t) + 2, SpaceEnd(t);
    StartIsLocal(t, u, 0, "{{", n);
    var w := if StartsAt(t, i, "secrets.") then "secrets." else "variable.";
    assert t[i] == t[i..i + |w|][0] == w[0];
    SkipIsLocal(t, u, 2, IsSpace);
    StartIsLocal(t, u, i, w, n);
    assert u[i] == w[0];
    assert StartsAt(u, i, "secrets.") ==> u[i] == u[i..i + 8][0] == 's';
  }

  lemma NameIsLocal(t: string, u: string)
    requires IsRef(t) && Agree(t, u, Close(t) + 2) && Namespaced(u) && NameStart(u) == NameStart(t)
    ensures NameEnd(u) == NameEnd(t) && Close(u) == Close(t)
  {
    var j, k, e := NameStart(t), NameEnd(t), Close(t);
    assert t[e] == t[e..e + 2][0] == '}';
    assert k < e ==> IsSpace(t[k]);
    SkipIsLocal(t, u, j, IsWord);
    SkipIsLocal(t, u, k, IsSpace);
  }

  /** A reference is recognised by its own text alone. */
  lemma RefIsLocal(t: string, u: string)
    requires IsRef(t) && Agree(t, u, Close(t) + 2)
    ensures IsRef(u) && Parse(u) == Parse(t)
  {
    NamespaceIsLocal(t, u);
    NameIsLocal(t, u);
    StartIsLocal(t, u, Close(t), "}}", Close(t) + 2);
    assert t[NameStart(t)..NameEnd(t)] == u[NameStart(t)..NameEnd(t)];
  }

  predicate RefChar(c: char) {
    IsSpace(c) || IsWord(c) || c == '{' || c == '}' || c == '.'
  }

  lemma WordsAreRefChars(w: string, t: string, i: nat)
    requires StartsAt(t, i, w) && (w == "secrets." || w == "variable." || w == "{{" || w == "}}")
    ensures forall p | i <= p < i + |w| :: RefChar(t[p])
  {
    forall p | i <= p < i + |w| ensures RefChar(t[p]) {
      assert t[p] == t[i..i + |w|][p - i] == w[p - i];
    }
  }

  lemma RefChars(t: string)
    requires IsRef(t)
    ensures forall p | 0 <= p < Close(t) + 2 :: RefChar(t[p])
  {
    var i := SpaceEnd(t);
    WordsAreRefChars("{{", t, 0);
    WordsAreRefChars(if StartsAt(t, i, "secrets.") then "secrets." else "variable.", t, i);
    WordsAreRefChars("}}", t, Close(t));
  }

  lemma ShownIsNoRef(r: Ref, p: nat, rest: string)
    requires p < |Shown(r)| && forall c | c in r.name :: IsWord(c)
    ensures !IsRef(Shown(r)[p..] + rest)
  {
    var s := Shown(r);
    var t := s[p..] + rest;
    var head := if r.secret then "<secret " else "<variable ";
    assert s == head + r.name + ">";
    assert s[p] != '{' by {
      if p < |head| {
        assert s[p] == head[p];
      } else if p < |head| + |r.name| {
        assert s[p] == r.name[p - |head|] && s[p] in r.name;
      }
    }
    assert t[0] == s[p];
    assert !StartsAt(t, 0, "{{") by {
      assert |t| >= 2 ==> t[0..2][0] == t[0];
    }
  }

  lemma MaskIsSealed(t: string)
    requires IsRef(t)
    ensures var h := MaskMatch(t); h.text[0] == '<' && '<' !in t[..h.len]
    ensures var h := MaskMatch(t); forall p: nat, r: string | p < |h.text| :: !IsRef(h.text[p..] + r)
  {
    RefChars(t);
    forall p: nat, r: string | p < |MaskMatch(t).text| ensures !IsRef(MaskMatch(t).text[p..] + r) {
      ShownIsNoRef(Parse(t).value, p, r);
    }
  }

  lemma MasksHit(t: string)
    ensures Hits(Masks(), t) <==> Parse(t).Some?
  {
  }

  lemma MasksAreSealed()
    ensures Sealed(Masks(), '<')
  {
    var m := Masks();
    forall t: string | Hits(m, t)
      ensures m(t).text != "" && m(t).text[0] == '<' && '<' !in t[..m(t).len]
      ensures forall p: nat, r: string | p < |m(t).text| :: !Hits(m, m(t).text[p..] + r)
    {
      MaskIsSealed(t);
    }
    forall t: string, u: string | Hits(m, t) && m(t).len <= |u| && u[..m(t).len] == t[..m(t).len]
      ensures Hits(m, u)
    {
      assert forall p | 0 <= p < m(t).len :: t[p] == t[..m(t).len][p] && u[p] == u[..m(t).len][p];
      RefIsLocal(t, u);
    }
  }

  // ------------------------------------------------------------------ references in a text

  predicate AllOf(s: string, cls: char -> bool) {
    forall c | c in s :: cls(c)
  }

  function Space(secret: bool): string {
    if secret then "secrets." else "variable."
  }

  /** A reference as it is written: in double braces, with white space around it or not. */
  function Written(before: string, secret: bool, name: string, after: string): string {
    "{{" + before + Space(secret) + name + after + "}}"
  }

  predicate WellWritten(before: string, name: string, after: string) {
    AllOf(before, IsSpace) && AllOf(after, IsSpace) && name != "" && AllOf(name, IsWord)
  }

  lemma {:induction false} SkipTo(t: string, i: nat, k: nat, cls: char -> bool)
    requires i <= k < |t| && (forall j | i <= j < k :: cls(t[j])) && !cls(t[k])
    ensures Skip(t, i, cls) == k
    decreases k - i
  {
    if i < k {
      SkipTo(t, i + 1, k, cls);
    }
  }

  /** A stretch of one class is skipped. */
  lemma SkipsStretch(t: string, head: string, s: string, rest: string, cls: char -> bool)
    requires t == head + s + rest && AllOf(s, cls) && rest != "" && !cls(rest[0])
    ensures Skip(t, |head|, cls) == |head| + |s|
  {
    forall j | |head| <= j < |head| + |s| ensures cls(t[j]) {
      assert t[j] == s[j - |head|] && s[j - |head|] in s;
    }
    assert t[|head| + |s|] == rest[0];
    SkipTo(t, |head|, |head| + |s|, cls);
  }

  lemma PieceStarts(t: string, head: string, w: string, rest: string)
    requires t == head + w + rest
    ensures StartsAt(t, |head|, w)
  {
  }

  lemma StartChar(t: string, i: nat, w: string)
    requires StartsAt(t, i, w) && w != ""
    ensures t[i] == w[0]
  {
    assert t[i] == t[i..i + |w|][0];
  }

  /** Up to the name. */
  lemma WrittenNamespace(t: string, before: string, secret: bool, rest: string)
    requires AllOf(before, IsSpace) && t == "{{" + before + (Space(secret) + rest)
    ensures Namespaced(t) && SpaceEnd(t) == 2 + |before| && NameStart(t) == 2 + |before| + |Space(secret)|
    ensures StartsAt(t, SpaceEnd(t), "secrets.") <==> secret
  {
    hide Skip, AllOf;
    var i := 2 + |before|;
    assert t == "" + "{{" + (before + (Space(secret) + rest));
    PieceStarts(t, "", "{{", before + (Space(secret) + rest));
    SkipsStretch(t, "{{", before, Space(secret) + rest, IsSpace);
    assert t == ("{{" + before) + Space(secret) + rest;
    PieceStarts(t, "{{" + before, Space(secret), rest);
    StartChar(t, i, Space(secret));
    if StartsAt(t, i, "secrets.") {
      StartChar(t, i, "secrets.");
    }
  }

  /** From the name on. */
  lemma WrittenName(t: string, head: string, name: string, after: string, y: string)
    requires t == head + name + (after + ("}}" + y)) && name != "" && AllOf(name, IsWord) && AllOf(after, IsSpace)
    requires Namespaced(t) && NameStart(t) == |head|
    ensures NameEnd(t) == |head| + |name| && Close(t) == |head| + |name| + |after| && StartsAt(t, Close(t), "}}")
    ensures t[NameStart(t)..NameEnd(t)] == name
  {
    var rest := after + ("}}" + y);
    assert rest[0] == if after != "" then after[0] else '}';
    assert after != "" ==> after[0] in after;
    SkipsStretch(t, head, name, rest, IsWord);
    assert t == (head + name) + after + ("}}" + y);
    SkipsStretch(t, head + name, after, "}}" + y, IsSpace);
    assert t == (head + name + after) + "}}" + y;
    PieceStarts(t, head + name + after, "}}", y);
  }

  lemma WrittenSpelled(before: string, secret: bool, name: string, after: string, y: string)
    ensures
      var t := Written(before, secret, name, after) + y;
      && t == "{{" + before + (Space(secret) + (name + (after + ("}}" + y))))
      && t == ("{{" + before + Space(secret)) + name + (after + ("}}" + y))
      && |t| - |y| == 2 + |before| + |Space(secret)| + |name| + |after| + 2
  {
  }

  /** What is written as a reference is one, whatever follows. */
  lemma WrittenIsRef(before: string, secret: bool, name: string, after: string, y: string)
    requires WellWritten(before, name, after)
    ensures
      var ref := Written(before, secret, name, after);
      Parse(ref + y) == Some(Ref(|ref|, secret, name)) && (ref + y)[..|ref|] == ref && StartsAt(ref + y, 0, "{{")
  {
    hide AllOf, Skip, IsSpace, IsWord, StartsAt, Written;
    var t := Written(before, secret, name, after) + y;
    var head, rest := "{{" + before + Space(secret), name + (after + ("}}" + y));
    WrittenSpelled(before, secret, name, after, y);
    WrittenNamespace(t, before, secret, rest);
    WrittenName(t, head, name, after, y);
  }

  lemma PartsAreWritten(t: string, i: nat, j: nat, k: nat, e: nat, secret: bool)
    requires 2 <= i <= j <= k <= e && StartsAt(t, 0, "{{") && StartsAt(t, i, Space(secret)) && StartsAt(t, e, "}}")
    requires j == i + |Space(secret)|
    ensures t[..e + 2] == Written(t[2..i], secret, t[j..k], t[k..e])
  {
    assert t[..e + 2] == t[0..2] + t[2..i] + t[i..j] + t[j..k] + t[k..e] + t[e..e + 2];
  }

  /** And nothing else is one. */
  lemma RefIsWritten(t: string)
    requires Parse(t).Some?
    ensures
      var r, before, after := Parse(t).value, t[2..SpaceEnd(t)], t[NameEnd(t)..Close(t)];
      WellWritten(before, r.name, after) && t[..r.len] == Written(before, r.secret, r.name, after)
  {
    hide Skip, Written;
    PartsAreWritten(t, SpaceEnd(t), NameStart(t), NameEnd(t), Close(t), StartsAt(t, SpaceEnd(t), "secrets."));
  }

  /** After its first two characters a reference has no opening brace. */
  lemma OneOpening(t: string, p: nat)
    requires IsRef(t) && 2 <= p < Close(t) + 2
    ensures t[p] != '{'
  {
    var i, e := SpaceEnd(t), Close(t);
    var ns := if StartsAt(t, i, "secrets.") then "secrets." else "variable.";
    if i <= p < i + |ns| {
      assert t[p] == t[i..i + |ns|][p - i] == ns[p - i];
    } else if e <= p {
      assert t[p] == t[e..e + 2][p - e];
    }
  }

  lemma ThreeBraces(t: string)
    requires |t| > 2 && t[2] == '{'
    ensures !IsRef(t)
  {
    if IsRef(t) {
      assert SpaceEnd(t) == 2;
      StartChar(t, 2, if StartsAt(t, 2, "secrets.") then "secrets." else "variable.");
      assert false;
    }
  }

  /** A text does not run into a reference that follows it. */
  lemma NoRefAcross(x: string, ref: string, p: nat)
    requires p < |x| && StartsAt(ref, 0, "{{") && IsRef((x + ref)[p..])
    ensures Close((x + ref)[p..]) + 2 <= |x| - p
  {
    var t, q := (x + ref)[p..], |x| - p;
    if Close(t) + 2 > q {
      assert t[q] == ref[0] == ref[0..2][0] && t[q + 1] == ref[1] == ref[0..2][1];
      if q >= 2 {
        OneOpening(t, q);
      } else {
        ThreeBraces(t);
      }
      assert false;
    }
  }

  lemma SameRef(x: string, ref: string, p: nat)
    requires p < |x| && StartsAt(ref, 0, "{{")
    ensures Parse((x + ref)[p..]) == Parse(x[p..])
    ensures Parse(x[p..]).Some? ==> (x + ref)[p..][..Parse(x[p..]).value.len] == x[p..][..Parse(x[p..]).value.len]
  {
    var t, u := (x + ref)[p..], x[p..];
    assert t == u + ref;
    if IsRef(u) {
      RefIsLocal(u, t);
    } else if IsRef(t) {
      NoRefAcross(x, ref, p);
      RefIsLocal(t, u);
    }
  }

  lemma ResolvesApart(x: string, ref: string, lookup: (bool, string) -> string)
    requires StartsAt(ref, 0, "{{")
    ensures Apart(Resolves(lookup), x, ref)
  {
    forall p | 0 <= p < |x| ensures ResolveMatch((x + ref)[p..], lookup) == ResolveMatch(x[p..], lookup) {
      SameRef(x, ref, p);
    }
  }

  lemma MasksApart(x: string, ref: string)
    requires StartsAt(ref, 0, "{{")
    ensures Apart(Masks(), x, ref)
  {
    forall p | 0 <= p < |x| ensures MaskMatch((x + ref)[p..]) == MaskMatch(x[p..]) {
      SameRef(x, ref, p);
    }
  }

  /** Wherever a reference is written, and whatever stands around it, it resolves to the value that its
      namespace has for its name, or stays as it is when there is none.  The value is not looked into. */
  lemma ReferenceResolves(x: string, before: string, secret: bool, name: string, after: string, y: string,
                          lookup: (bool, string) -> string)
    requires WellWritten(before, name, after)
    ensures
      var ref := Written(before, secret, name, after);
      ResolveSecrets(x + ref + y, lookup)
        == ResolveSecrets(x, lookup) + (if lookup(secret, name) != "" then lookup(secret, name) else ref)
           + ResolveSecrets(y, lookup)
  {
    hide Apart, Sub, Written, Parse, AllOf;
    var ref, m := Written(before, secret, name, after), Resolves(lookup);
    WrittenIsRef(before, secret, name, after, y);
    ResolvesApart(x, ref + y, lookup);
    SubAround(m, x, ref, y);
  }

  /** And it is shown as the namespace and the name, without the value. */
  lemma ReferenceIsMasked(x: string, before: string, secret: bool, name: string, after: string, y: string)
    requires WellWritten(before, name, after)
    ensures
      MaskSecrets(x + Written(before, secret, name, after) + y)
        == MaskSecrets(x) + (if secret then "<secret " + name + ">" else "<variable " + name + ">") + MaskSecrets(y)
  {
    hide Apart, Sub, Written, Parse, AllOf;
    var ref, m := Written(before, secret, name, after), Masks();
    WrittenIsRef(before, secret, name, after, y);
    MasksApart(x, ref + y);
    SubAround(m, x, ref, y);
  }

  // ------------------------------------------------------------------ theorems

  /** No reference is readable in a masked text, and masking twice is masking once. */
  lemma MaskingIsComplete(text: string)
    ensures forall p | 0 <= p <= |MaskSecrets(text)| :: Parse(MaskSecrets(text)[p..]).None?
    ensures MaskSecrets(MaskSecrets(text)) == MaskSecrets(text)
  {
    MasksAreSealed();
    var out := MaskSecrets(text);
    OncePasses(Masks(), '<', text);
    forall p | 0 <= p <= |out| ensures Parse(out[p..]).None? {
      assert !Hits(Masks(), out[p..]);
      MasksHit(out[p..]);
    }
  }

  /** A text without references is neither masked nor resolved. */
  lemma WithoutReferences(text: string, lookup: (bool, string) -> string)
    requires forall p | 0 <= p <= |text| :: Parse(text[p..]).None?
    ensures MaskSecrets(text) == text && ResolveSecrets(text, lookup) == text
  {
    CleanIsCopied(Masks(), text);
    CleanIsCopied(Resolves(lookup), text);
  }

  /** Where nothing is known, resolving leaves the text alone. */
  lemma {:induction false} UnknownIsKept(text: string, lookup: (bool, string) -> string)
    requires forall ns, name :: lookup(ns, name) == ""
    ensures ResolveSecrets(text, lookup) == text
  {
    if text != "" {
      var m := Resolves(lookup);
      var n := if Hits(m, text) then m(text).len else 1;
      UnknownIsKept(text[n..], lookup);
      assert text == text[..n] + text[n..];
    }
  }

  /** A masked text and a resolved text show the same literal parts: masking commutes with
      resolving what is left, which is nothing. */
  lemma MaskedIsResolved(text: string, lookup: (bool, string) -> string)
    ensures ResolveSecrets(MaskSecrets(text), lookup) == MaskSecrets(text)
  {
    MaskingIsComplete(text);
    WithoutReferences(MaskSecrets(text), lookup);
  }
}
