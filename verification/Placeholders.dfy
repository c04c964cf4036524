/** Filling the placeholders of a block template. */
module Placeholders {
  import opened Rows
  import opened Scanner

  type Values = map<string, string>

  predicate IsIndent(c: char) {
    IsSpace(c) && c != '\n'
  }

  // ------------------------------------------------------------------ lines

  function Split(v: string): (ls: seq<string>)
    ensures |ls| > 0
  {
    if v == "" then [""]
    else if v[0] == '\n' then [""] + Split(v[1..])
    else var rest := Split(v[1..]); [[v[0]] + rest[0]] + rest[1..]
  }

  function Join(sep: string, ls: seq<string>): string
    requires |ls| > 0
  {
    if |ls| == 1 then ls[0] else ls[0] + sep + Join(sep, ls[1..])
  }

  lemma {:induction false} SplitJoin(v: string)
    ensures Join("\n", Split(v)) == v
    ensures forall i | 0 <= i < |Split(v)| :: '\n' !in Split(v)[i]
  {
    if v != "" {
      SplitJoin(v[1..]);
      var rest := Split(v[1..]);
      if v[0] == '\n' {
        assert Split(v)[1..] == rest;
      } else {
        assert Split(v)[1..] == rest[1..];
      }
    }
  }

  lemma {:induction false} SplitFirst(x: string, y: string)
    requires '\n' !in x
    ensures Split(x + "\n" + y) == [x] + Split(y)
    ensures Split(x) == [x]
  {
    if x == "" {
      assert x + "\n" + y == "\n" + y && ("\n" + y)[1..] == y;
    } else {
      var t := x + "\n" + y;
      assert t[0] == x[0] && t[1..] == x[1..] + "\n" + y;
      SplitFirst(x[1..], y);
      assert Split(t) == [[x[0]] + x[1..]] + Split(y);
      assert [x[0]] + x[1..] == x;
    }
  }

  // ------------------------------------------------------------------ substitution

  /** The value with its continuation lines moved to the column of the placeholder; an unknown
      key leaves only the indent. */
  function Filled(indent: string, key: string, flat: Values): string {
    if key !in flat then indent
    else if '\n' in flat[key] then indent + Join("\n" + indent, Split(flat[key]))
    else indent + flat[key]
  }

  function Brace(t: string): (i: nat)
    ensures i <= |t|
  {
    Skip(t, 0, IsIndent)
  }

  function KeyEnd(t: string): (k: nat)
    requires Brace(t) < |t|
    ensures Brace(t) < k <= |t|
  {
    Skip(t, Brace(t) + 1, IsWord)
  }

  /** An indent, and a word in braces. */
  predicate StartsField(t: string) {
    && Brace(t) < |t| && t[Brace(t)] == '{'
    && Brace(t) + 1 < KeyEnd(t) < |t| && t[KeyEnd(t)] == '}'
  }

  function FieldMatch(t: string, flat: Values): Match {
    if StartsField(t) then Hit(KeyEnd(t) + 1, Filled(t[..Brace(t)], t[Brace(t) + 1..KeyEnd(t)], flat)) else NoMatch
  }

  function Field(flat: Values): Pattern {
    (t: string) => FieldMatch(t, flat)
  }

  function Substitute(template: string, flat: Values): string {
    Sub(Field(flat), template)
  }

  // ------------------------------------------------------------------ one pass, and text is kept

  /** What a template consists of, whatever the values are. */
  datatype Token = Text(c: char) | Slot(indent: string, key: string)

  function FirstToken(t: string): Token
    requires t != ""
  {
    if StartsField(t) then Slot(t[..Brace(t)], t[Brace(t) + 1..KeyEnd(t)]) else Text(t[0])
  }

  function FirstLength(t: string): (n: nat)
    requires t != ""
    ensures 0 < n <= |t|
  {
    if StartsField(t) then KeyEnd(t) + 1 else 1
  }

  function Tokens(t: string): seq<Token> {
    if t == "" then [] else [FirstToken(t)] + Tokens(t[FirstLength(t)..])
  }

  function Source(ts: seq<Token>): string {
    if ts == [] then ""
    else SourceOf(ts[0]) + Source(ts[1..])
  }

  function Rendered(ts: seq<Token>, flat: Values): string {
    if ts == [] then ""
    else (match ts[0] case Text(c) => [c] case Slot(indent, key) => Filled(indent, key, flat)) + Rendered(ts[1..], flat)
  }

  function SourceOf(k: Token): string {
    match k case Text(c) => [c] case Slot(indent, key) => indent + "{" + key + "}"
  }

  lemma FirstSpells(t: string)
    requires t != ""
    ensures SourceOf(FirstToken(t)) == t[..FirstLength(t)]
  {
    if StartsField(t) {
      var i, k := Brace(t), KeyEnd(t);
      assert t[..k + 1] == t[..i] + [t[i]] + t[i + 1..k] + [t[k]];
    }
  }

  lemma SourceCons(k: Token, ts: seq<Token>)
    ensures Source([k] + ts) == SourceOf(k) + Source(ts)
  {
    assert ([k] + ts)[1..] == ts;
  }

  /** One token more. */
  lemma TokenSpells(t: string, rest: string, ts: seq<Token>)
    requires t != "" && rest == t[FirstLength(t)..] && Source(ts) == rest
    ensures Source([FirstToken(t)] + ts) == t
  {
    SourceCons(FirstToken(t), ts);
    FirstSpells(t);
    assert t == t[..FirstLength(t)] + rest;
  }

  /** The tokens spell the template out. */
  lemma {:induction false} TokensSpellTemplate(t: string)
    ensures Source(Tokens(t)) == t
  {
    if t != "" {
      var rest := t[FirstLength(t)..];
      TokensSpellTemplate(rest);
      TokenSpells(t, rest, Tokens(rest));
    }
  }

  /** Only words in braces, with the white space before them, are placeholders. */
  lemma {:induction false} SlotsAreWords(t: string, i: nat)
    requires i < |Tokens(t)| && Tokens(t)[i].Slot?
    ensures Tokens(t)[i].key != "" && (forall c | c in Tokens(t)[i].key :: IsWord(c))
    ensures forall c | c in Tokens(t)[i].indent :: IsIndent(c)
  {
    if i > 0 {
      assert Tokens(t)[i] == Tokens(t[FirstLength(t)..])[i - 1];
      SlotsAreWords(t[FirstLength(t)..], i - 1);
    } else {
      FirstIsWord(t);
    }
  }

  lemma FirstIsWord(t: string)
    requires t != "" && FirstToken(t).Slot?
    ensures FirstToken(t).key != "" && (forall c | c in FirstToken(t).key :: IsWord(c))
    ensures forall c | c in FirstToken(t).indent :: IsIndent(c)
  {
  }

  /** The template is read once: its tokens do not depend on the values, every character that is
      no placeholder is kept, and each value goes in as it is and is not looked at again. */
  lemma {:induction false} OnePass(t: string, flat: Values)
    ensures Substitute(t, flat) == Rendered(Tokens(t), flat)
  {
    if t != "" {
      var n := FirstLength(t);
      OnePass(t[n..], flat);
      assert Hits(Field(flat), t) <==> StartsField(t);
      assert Tokens(t)[1..] == Tokens(t[n..]);
    }
  }

  // ------------------------------------------------------------------ line by line

  /** A placeholder never reaches over the end of its line. */
  lemma FieldEndsOnLine(x: string, y: string, flat: Values)
    ensures FieldMatch(x + "\n" + y, flat) == FieldMatch(x, flat)
  {
    hide Filled, IsSpace;
    var t := x + "\n" + y;
    assert Agree(x, t, |x|) && t[|x|] == '\n';
    SkipIsLocal(x, t, 0, IsIndent);
    var i := Brace(x);
    assert Brace(t) == i;
    if i < |x| && x[i] == '{' {
      SkipIsLocal(x, t, i + 1, IsWord);
      assert x[..i] == t[..i] && x[i + 1..KeyEnd(x)] == t[i + 1..KeyEnd(x)];
    }
  }

  lemma FirstStep(m: Pattern, x: string, y: string, n: nat, head: string)
    requires x != "" && m(x + "\n" + y) == m(x)
    requires n == (if Hits(m, x) then m(x).len else 1) && head == (if Hits(m, x) then m(x).text else [x[0]])
    requires m(x).Hit? ==> m(x).len <= |x|
    ensures Sub(m, x + "\n" + y) == head + Sub(m, x[n..] + "\n" + y)
    ensures Sub(m, x) == head + Sub(m, x[n..])
  {
    var t := x + "\n" + y;
    assert t[n..] == x[n..] + "\n" + y;
    assert t[0] == x[0];
  }

  lemma Regroup(a: string, b: string, c: string, d: string)
    ensures a + (b + c + d) == a + b + c + d
  {
  }

  /** Filling a template is filling its lines. */
  lemma {:induction false} LineByLine(x: string, y: string, flat: Values)
    ensures Substitute(x + "\n" + y, flat) == Substitute(x, flat) + "\n" + Substitute(y, flat)
    decreases |x|
  {
    var m, t := Field(flat), x + "\n" + y;
    FieldEndsOnLine(x, y, flat);
    if x == "" {
      assert t == "\n" + y && t[1..] == y;
      assert !Hits(m, t);
    } else {
      var n := if Hits(m, x) then m(x).len else 1;
      var head := if Hits(m, x) then m(x).text else [x[0]];
      LineByLine(x[n..], y, flat);
      FirstStep(m, x, y, n, head);
      Regroup(head, Sub(m, x[n..]), "\n", Sub(m, y));
    }
  }

  lemma AloneMatches(indent: string, key: string, flat: Values)
    requires forall c | c in indent :: IsIndent(c)
    requires key != "" && forall c | c in key :: IsWord(c)
    ensures
      var t := indent + "{" + key + "}";
      FieldMatch(t, flat) == Hit(|t|, Filled(indent, key, flat))
  {
    var t := indent + "{" + key + "}";
    var i, k := |indent|, |indent| + 1 + |key|;
    assert t[..i] == indent && t[i] == '{' && t[i + 1..k] == key && t[k] == '}';
    forall j | 0 <= j < i ensures IsIndent(t[j]) {
      assert t[j] == indent[j] && indent[j] in indent;
    }
    forall j | i + 1 <= j < k ensures IsWord(t[j]) {
      assert t[j] == key[j - i - 1] && key[j - i - 1] in key;
    }
    SkipAll(t, 0, i, IsIndent);
    SkipAll(t, i + 1, k, IsWord);
  }

  /** A placeholder alone on its line, as the whole template. */
  lemma AloneIsFilled(indent: string, key: string, flat: Values)
    requires forall c | c in indent :: IsIndent(c)
    requires key != "" && forall c | c in key :: IsWord(c)
    ensures Substitute(indent + "{" + key + "}", flat) == Filled(indent, key, flat)
  {
    AloneMatches(indent, key, flat);
    AllMatched(Field(flat), indent + "{" + key + "}");
  }

  lemma AllMatched(m: Pattern, t: string)
    requires t != "" && m(t).Hit? && m(t).len == |t|
    ensures Sub(m, t) == m(t).text
  {
    assert t[|t|..] == "";
  }

  lemma {:induction false} SkipAll(t: string, i: nat, k: nat, cls: char -> bool)
    requires i <= k < |t| && (forall j | i <= j < k :: cls(t[j])) && !cls(t[k])
    ensures Skip(t, i, cls) == k
    decreases k - i
  {
    if i < k {
      SkipAll(t, i + 1, k, cls);
    }
  }

  /** The lines of a filled placeholder, with the indent taken off, are the lines of the value. */
  lemma {:induction false} IndentedLines(indent: string, ls: seq<string>)
    requires |ls| > 0 && '\n' !in indent && forall i | 0 <= i < |ls| :: '\n' !in ls[i]
    ensures Split(indent + Join("\n" + indent, ls)) == seq(|ls|, i requires 0 <= i < |ls| => indent + ls[i])
  {
    var out := seq(|ls|, i requires 0 <= i < |ls| => indent + ls[i]);
    if |ls| == 1 {
      SplitFirst(indent + ls[0], "");
      assert out == [indent + ls[0]];
    } else {
      var tail := indent + Join("\n" + indent, ls[1..]);
      IndentedLines(indent, ls[1..]);
      assert indent + Join("\n" + indent, ls) == (indent + ls[0]) + "\n" + tail;
      SplitFirst(indent + ls[0], tail);
      assert out == [indent + ls[0]] + seq(|ls| - 1, i requires 0 <= i < |ls| - 1 => indent + ls[1..][i]);
    }
  }

  /** The text above a line, and below it; `None` when the line is the first, or the last. */
  function Above(x: Option<string>): string {
    if x.Some? then x.value + "\n" else ""
  }

  function Below(y: Option<string>): string {
    if y.Some? then "\n" + y.value else ""
  }

  function FilledText(x: Option<string>, flat: Values): Option<string> {
    if x.Some? then Some(Substitute(x.value, flat)) else None
  }

  lemma BlockLines(indent: string, key: string, flat: Values)
    requires (forall c | c in indent :: IsIndent(c)) && key in flat
    ensures |Split(Filled(indent, key, flat))| == |Split(flat[key])|
    ensures forall i | 0 <= i < |Split(flat[key])| ::
      Split(Filled(indent, key, flat))[i] == indent + Split(flat[key])[i]
  {
    SplitJoin(flat[key]);
    if '\n' !in flat[key] {
      SplitFirst(flat[key], "");
    }
    IndentedLines(indent, Split(flat[key]));
  }

  lemma BelowIsFilled(line: string, after: Option<string>, flat: Values)
    ensures Substitute(line + Below(after), flat) == Substitute(line, flat) + Below(FilledText(after, flat))
  {
    if after.Some? {
      assert line + Below(after) == line + "\n" + after.value;
      LineByLine(line, after.value, flat);
    } else {
      assert line + Below(after) == line;
    }
  }

  lemma AboveIsFilled(before: Option<string>, rest: string, flat: Values)
    ensures Substitute(Above(before) + rest, flat) == Above(FilledText(before, flat)) + Substitute(rest, flat)
  {
    if before.Some? {
      LineByLine(before.value, rest, flat);
    } else {
      assert Above(before) + rest == rest;
    }
  }

  /** A placeholder alone on its line becomes exactly the lines of its value, each behind the
      placeholder's indent, between the filled lines before and after it, if there are any. */
  lemma AloneOnItsLine(before: Option<string>, indent: string, key: string, after: Option<string>, flat: Values)
    requires forall c | c in indent :: IsIndent(c)
    requires key in flat && key != "" && forall c | c in key :: IsWord(c)
    ensures
      var block := Filled(indent, key, flat);
      && Substitute(Above(before) + (indent + "{" + key + "}" + Below(after)), flat)
         == Above(FilledText(before, flat)) + (block + Below(FilledText(after, flat)))
      && |Split(block)| == |Split(flat[key])|
      && forall i | 0 <= i < |Split(block)| :: Split(block)[i] == indent + Split(flat[key])[i]
  {
    var line := indent + "{" + key + "}";
    AboveIsFilled(before, line + Below(after), flat);
    BelowIsFilled(line, after, flat);
    AloneIsFilled(indent, key, flat);
    BlockLines(indent, key, flat);
  }

  // ------------------------------------------------------------------ anywhere in a text

  /** What a placeholder leaves: its indent, then the value with every line on the column of the first;
      of an unknown key the indent alone. */
  predicate Fills(indent: string, key: string, flat: Values, text: string) {
    if key in flat then
      && |Split(text)| == |Split(flat[key])|
      && forall i | 0 <= i < |Split(text)| :: Split(text)[i] == indent + Split(flat[key])[i]
    else text == indent
  }

  /** A text ends in front of the white space of the placeholder behind it. */
  predicate EndsBefore(x: string) {
    x != "" ==> !IsIndent(x[|x| - 1])
  }

  /** A field that is not closed in a text is not closed by a placeholder behind it. */
  lemma NotClosedLater(u: string, rest: string, flat: Values)
    requires u != "" && EndsBefore(u) && rest != "" && !IsWord(rest[0]) && rest[0] != '}'
    ensures FieldMatch(u + rest, flat) == FieldMatch(u, flat)
  {
    hide Filled, IsSpace;
    var t, i := u + rest, Brace(u);
    assert Agree(u, t, |u|) && t[|u|] == rest[0];
    assert i < |u|;
    SkipIsLocal(u, t, 0, IsIndent);
    if u[i] == '{' {
      SkipIsLocal(u, t, i + 1, IsWord);
      assert u[..i] == t[..i];
      if KeyEnd(u) < |u| {
        assert u[i + 1..KeyEnd(u)] == t[i + 1..KeyEnd(u)];
      }
    }
  }

  lemma FieldsApart(x: string, rest: string, flat: Values)
    requires EndsBefore(x) && rest != "" && !IsWord(rest[0]) && rest[0] != '}'
    ensures Apart(Field(flat), x, rest)
  {
    forall p | 0 <= p < |x| ensures FieldMatch((x + rest)[p..], flat) == FieldMatch(x[p..], flat) {
      assert (x + rest)[p..] == x[p..] + rest;
      NotClosedLater(x[p..], rest, flat);
    }
  }

  lemma MatchesBefore(indent: string, key: string, y: string, flat: Values)
    requires forall c | c in indent :: IsIndent(c)
    requires key != "" && forall c | c in key :: IsWord(c)
    ensures
      var t := indent + "{" + key + "}";
      FieldMatch(t + y, flat) == Hit(|t|, Filled(indent, key, flat))
  {
    var t := indent + "{" + key + "}";
    AloneMatches(indent, key, flat);
    MatchIsLocal(t, y, flat);
  }

  lemma MatchIsLocal(t: string, y: string, flat: Values)
    requires StartsField(t)
    ensures FieldMatch(t + y, flat) == FieldMatch(t, flat)
  {
    hide Filled;
    var u, i, k := t + y, Brace(t), KeyEnd(t);
    assert Agree(t, u, |t|);
    SkipIsLocal(t, u, 0, IsIndent);
    SkipIsLocal(t, u, i + 1, IsWord);
    assert t[..i] == u[..i] && t[i + 1..k] == u[i + 1..k];
  }

  lemma FilledFills(indent: string, key: string, flat: Values)
    requires forall c | c in indent :: IsIndent(c)
    ensures Fills(indent, key, flat, Filled(indent, key, flat))
  {
    if key in flat {
      BlockLines(indent, key, flat);
    }
  }

  /** Wherever a placeholder stands, the value of its key takes its place, line by line on its column,
      and the texts before and behind it are filled as if they stood alone. */
  lemma FilledAnywhere(x: string, indent: string, key: string, y: string, flat: Values) returns (text: string)
    requires EndsBefore(x) && forall c | c in indent :: IsIndent(c)
    requires key != "" && forall c | c in key :: IsWord(c)
    ensures Fills(indent, key, flat, text)
    ensures Substitute(x + (indent + "{" + key + "}") + y, flat) == Substitute(x, flat) + text + Substitute(y, flat)
  {
    var t := indent + "{" + key + "}";
    text := Filled(indent, key, flat);
    FilledFills(indent, key, flat);
    MatchesBefore(indent, key, y, flat);
    assert (t + y)[0] == if indent == "" then '{' else indent[0];
    assert indent != "" ==> indent[0] in indent;
    FieldsApart(x, t + y, flat);
    SubAround(Field(flat), x, t, y);
  }
}
