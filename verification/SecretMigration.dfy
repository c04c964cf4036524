/** The start-up migration that moves literal credentials out of template recipes into the
    owner's secret store. */
module SecretMigration {
  import opened Rows
  import opened Scanner
  import opened References

  datatype Value = Text(text: string) | NotText(value: int)

  /** A well-formed placement: the sensitive names of its block, and its inputs. */
  datatype Placed = Placed(sensitive: set<string>, inputs: map<string, Value>)

  /** `owner` is absent for templates of the installation; `stem` is `TPL` and the row id. */
  datatype Template = Template(owner: Option<nat>, stem: string, placed: seq<Placed>)

  /** A secret belongs to an owner, or to the whole installation. */
  datatype SecretKey = SecretKey(owner: Option<nat>, name: string)

  type Secrets = map<SecretKey, string>

  // ------------------------------------------------------------------ references to secrets

  /** The text is one complete `{{ secrets.NAME }}`. */
  predicate IsSecretRef(t: string) {
    IsRef(t) && Parse(t).value.secret && Parse(t).value.len == |t|
  }

  function RefTo(name: string): string {
    "{{ secrets." + name + " }}"
  }

  predicate AllWord(s: string) {
    forall c | c in s :: IsWord(c)
  }

  lemma RefToIsWritten(name: string)
    ensures RefTo(name) == Written(" ", true, name, " ") + "" == Written(" ", true, name, " ")
  {
  }

  /** The reference the migration writes is recognised, and names the secret. */
  lemma RefToIsRef(name: string)
    requires name != "" && AllWord(name)
    ensures IsSecretRef(RefTo(name)) && Parse(RefTo(name)) == Some(Ref(|RefTo(name)|, true, name))
  {
    hide Parse, Written;
    RefToIsWritten(name);
    assert WellWritten(" ", name, " ");
    WrittenIsRef(" ", true, name, " ", "");
    WholeRef(RefTo(name));
  }

  lemma WholeRef(t: string)
    requires Parse(t).Some? && Parse(t).value.secret && Parse(t).value.len == |t|
    ensures IsSecretRef(t)
  {
  }

  // ------------------------------------------------------------------ names

  function Sanitised(s: string): (r: string)
    ensures |r| == |s| && AllWord(r)
    ensures forall i | 0 <= i < |s| :: IsWord(s[i]) && !('a' <= s[i] <= 'z') ==> r[i] == s[i]
    ensures forall i | 0 <= i < |s| :: 'a' <= s[i] <= 'z' ==> r[i] as int == s[i] as int - 32
    ensures forall i | 0 <= i < |s| :: !IsWord(s[i]) ==> r[i] == '_'
  {
    if s == "" then ""
    else [if 'a' <= s[0] <= 'z' then s[0] - 'a' + 'A' else if IsWord(s[0]) then s[0] else '_'] + Sanitised(s[1..])
  }

  function Decimal(n: nat): (r: string)
    ensures r != "" && AllWord(r)
  {
    if n < 10 then ['0' + n as char] else Decimal(n / 10) + ['0' + (n % 10) as char]
  }

  function Number(s: string): int {
    if s == "" then 0 else 10 * Number(s[..|s| - 1]) + (s[|s| - 1] as int - '0' as int)
  }

  lemma {:induction false} DecimalReads(n: nat)
    ensures Number(Decimal(n)) == n
  {
    if n >= 10 {
      DecimalReads(n / 10);
      assert Decimal(n)[..|Decimal(n)| - 1] == Decimal(n / 10);
    } else {
      assert Decimal(n)[..0] == "";
    }
  }

  /** The `k`-th candidate: the base name, then the base name with a counter from 2. */
  function Candidate(base: string, k: nat): string {
    if k <= 1 then base else base + "_" + Decimal(k)
  }

  lemma CandidatesDiffer(base: string, k: nat, l: nat)
    requires 1 <= k < l
    ensures Candidate(base, k) != Candidate(base, l)
  {
    DecimalReads(k);
    DecimalReads(l);
    var x, y := Candidate(base, k), Candidate(base, l);
    assert y[|base| + 1..] == Decimal(l);
    assert k > 1 ==> x[|base| + 1..] == Decimal(k);
  }

  function NamesOf(secrets: Secrets, owner: Option<nat>): set<string> {
    set k | k in secrets && k.owner == owner :: k.name
  }

  /** The first candidate that is free in the owner's store. */
  predicate FirstFree(secrets: Secrets, owner: Option<nat>, base: string, k: nat) {
    && 1 <= k && SecretKey(owner, Candidate(base, k)) !in secrets
    && forall l | 1 <= l < k :: SecretKey(owner, Candidate(base, l)) in secrets
  }

  /** Counts up until the name is free in the owner's store. */
  method FreshName(secrets: Secrets, owner: Option<nat>, base: string) returns (name: string)
    requires base != "" && AllWord(base)
    ensures SecretKey(owner, name) !in secrets && name != "" && AllWord(name)
    ensures exists k: nat :: FirstFree(secrets, owner, base, k) && name == Candidate(base, k)
  {
    name := base;
    var counter := 2;
    ghost var tried: set<string> := {};
    while SecretKey(owner, name) in secrets
      invariant counter >= 2 && name == Candidate(base, counter - 1) && name != "" && AllWord(name)
      invariant tried <= NamesOf(secrets, owner) && |tried| == counter - 2
      invariant forall x | x in tried :: exists k :: 1 <= k < counter - 1 && x == Candidate(base, k)
      invariant forall k | 1 <= k < counter - 1 :: SecretKey(owner, Candidate(base, k)) in secrets
      decreases |NamesOf(secrets, owner)| - |tried|
    {
      forall x | x in tried ensures x != name {
        var k :| 1 <= k < counter - 1 && x == Candidate(base, k);
        CandidatesDiffer(base, k, counter - 1);
      }
      assert SecretKey(owner, name).name in NamesOf(secrets, owner);
      tried := tried + {name};
      Within(tried, NamesOf(secrets, owner));
      name := base + "_" + Decimal(counter);
      counter := counter + 1;
    }
    assert FirstFree(secrets, owner, base, counter - 1);
  }

  lemma {:induction false} Within(a: set<string>, b: set<string>)
    requires a <= b
    ensures |a| <= |b|
    decreases a
  {
    if a != {} {
      var x :| x in a;
      Within(a - {x}, b - {x});
    }
  }

  // ------------------------------------------------------------------ the migration

  /** A literal credential. */
  predicate Literal(v: Value) {
    v.Text? && v.text != "" && !IsSecretRef(v.text)
  }

  predicate IsLiteral(p: Placed, n: string) {
    n in p.sensitive && n in p.inputs && Literal(p.inputs[n])
  }

  predicate Extends(s: Secrets, s': Secrets) {
    forall k | k in s :: k in s' && s'[k] == s[k]
  }

  /** A name made of the base name, with or without a counter. */
  ghost predicate NamedAfter(base: string, name: string) {
    exists k: nat :: 1 <= k && name == Candidate(base, k)
  }

  /** The base name of an input of a template. */
  function BaseName(t: Template, n: string): (base: string)
    ensures base != "" && AllWord(base)
  {
    Sanitised(t.stem + "_" + n)
  }

  /** The value is left alone, or was a literal and is now a reference to a new secret of the
      owner, named after the input, that holds it. */
  ghost predicate Moved(v: Value, v': Value, owner: Option<nat>, base: string, s: Secrets, s': Secrets) {
    if !Literal(v) then v' == v
    else
      && v'.Text? && IsSecretRef(v'.text)
      && var k := SecretKey(owner, Parse(v'.text).value.name);
      k !in s && k in s' && s'[k] == v.text && NamedAfter(base, k.name)
  }

  ghost predicate InputMigrated(p: Placed, p': Placed, n: string, t: Template, s: Secrets, s': Secrets)
    requires n in p.inputs && n in p'.inputs
  {
    if n in p.sensitive then Moved(p.inputs[n], p'.inputs[n], t.owner, BaseName(t, n), s, s')
    else p'.inputs[n] == p.inputs[n]
  }

  ghost predicate PlacedMigrated(p: Placed, p': Placed, t: Template, s: Secrets, s': Secrets) {
    && p'.sensitive == p.sensitive && p'.inputs.Keys == p.inputs.Keys
    && forall n | n in p.inputs :: InputMigrated(p, p', n, t, s, s')
  }

  ghost predicate TemplateMigrated(t: Template, t': Template, s: Secrets, s': Secrets) {
    && t'.owner == t.owner && t'.stem == t.stem && |t'.placed| == |t.placed|
    && forall i | 0 <= i < |t.placed| :: PlacedMigrated(t.placed[i], t'.placed[i], t, s, s')
  }

  /** The secret that took the literal of input `n`. */
  predicate TookLiteral(p: Placed, inputs: map<string, Value>, n: string, owner: Option<nat>, k: SecretKey) {
    && IsLiteral(p, n) && n in inputs && inputs[n].Text? && IsSecretRef(inputs[n].text)
    && k == SecretKey(owner, Parse(inputs[n].text).value.name)
  }

  predicate OfPlaced(p: Placed, p': Placed, owner: Option<nat>, k: SecretKey) {
    exists n | n in p.inputs :: TookLiteral(p, p'.inputs, n, owner, k)
  }

  predicate OfTemplate(t: Template, placed: seq<Placed>, k: SecretKey) {
    exists b | 0 <= b < |t.placed| && b < |placed| :: OfPlaced(t.placed[b], placed[b], t.owner, k)
  }

  /** Every new secret took a literal of the inputs that are done, of the placements, of the templates. */

  predicate InputsAccount(p: Placed, inputs: map<string, Value>, left: set<string>, owner: Option<nat>,
                          s: Secrets, s': Secrets)
  {
    forall k | k in s' && k !in s :: exists n | n in p.inputs && n !in left :: TookLiteral(p, inputs, n, owner, k)
  }

  predicate PlacedAccount(t: Template, placed: seq<Placed>, s: Secrets, s': Secrets) {
    forall k | k in s' && k !in s :: OfTemplate(t, placed, k)
  }

  predicate TemplatesAccount(ts: seq<Template>, ts': seq<Template>, s: Secrets, s': Secrets) {
    forall k | k in s' && k !in s :: exists i | 0 <= i < |ts| && i < |ts'| :: OfTemplate(ts[i], ts'[i].placed, k)
  }

  lemma InputAccounts(
      p: Placed, inputs: map<string, Value>, left: set<string>, owner: Option<nat>, s: Secrets, s1: Secrets,
      s2: Secrets, name: string, v: Value)
    requires InputsAccount(p, inputs, left, owner, s, s1) && name in left && IsLiteral(p, name)
    requires v.Text? && IsSecretRef(v.text) && s2.Keys == s1.Keys + {SecretKey(owner, Parse(v.text).value.name)}
    ensures InputsAccount(p, inputs[name := v], left - {name}, owner, s, s2)
  {
    hide IsSecretRef, Parse;
    forall k | k in s2 && k !in s
      ensures exists n | n in p.inputs && n !in left - {name} :: TookLiteral(p, inputs[name := v], n, owner, k)
    {
      if k in s1 {
        var n :| n in p.inputs && n !in left && TookLiteral(p, inputs, n, owner, k);
        assert TookLiteral(p, inputs[name := v], n, owner, k);
      } else {
        assert TookLiteral(p, inputs[name := v], name, owner, k);
      }
    }
  }

  lemma PlacementAccounts(t: Template, placed: seq<Placed>, p: Placed, s: Secrets, s1: Secrets, s2: Secrets)
    requires PlacedAccount(t, placed, s, s1) && |placed| < |t.placed|
    requires forall k | k in s2 && k !in s1 :: OfPlaced(t.placed[|placed|], p, t.owner, k)
    ensures PlacedAccount(t, placed + [p], s, s2)
  {
    hide OfPlaced;
    forall k | k in s2 && k !in s ensures OfTemplate(t, placed + [p], k) {
      var b := if k in s1 then
        var b :| 0 <= b < |placed| && OfPlaced(t.placed[b], placed[b], t.owner, k); b
      else |placed|;
      assert OfPlaced(t.placed[b], (placed + [p])[b], t.owner, k);
    }
  }

  lemma TemplateAccounts(ts: seq<Template>, ts': seq<Template>, t: Template, s: Secrets, s1: Secrets, s2: Secrets)
    requires TemplatesAccount(ts, ts', s, s1) && |ts'| < |ts| && PlacedAccount(ts[|ts'|], t.placed, s1, s2)
    ensures TemplatesAccount(ts, ts' + [t], s, s2)
  {
    hide OfTemplate;
    forall k | k in s2 && k !in s
      ensures exists i | 0 <= i < |ts| && i < |ts' + [t]| :: OfTemplate(ts[i], (ts' + [t])[i].placed, k)
    {
      var i := if k in s1 then
        var i :| 0 <= i < |ts'| && OfTemplate(ts[i], ts'[i].placed, k); i
      else |ts'|;
      assert OfTemplate(ts[i], (ts' + [t])[i].placed, k);
    }
  }

  predicate Clean(p: Placed) {
    forall n | n in p.sensitive :: !IsLiteral(p, n)
  }

  ghost predicate AllClean(ts: seq<Template>) {
    forall i, k | 0 <= i < |ts| && 0 <= k < |ts[i].placed| :: Clean(ts[i].placed[k])
  }

  lemma StaysMoved(v: Value, v': Value, owner: Option<nat>, base: string, s: Secrets, s1: Secrets, s2: Secrets)
    requires Moved(v, v', owner, base, s, s1) && Extends(s1, s2)
    ensures Moved(v, v', owner, base, s, s2)
  {
  }

  /** One literal goes to a new secret; a reference to it takes its place. */
  method MoveLiteral(v: Value, owner: Option<nat>, base: string, ghost first: Secrets, secrets: Secrets)
    returns (v': Value, secrets': Secrets)
    requires Literal(v) && base != "" && AllWord(base) && Extends(first, secrets)
    ensures Moved(v, v', owner, base, first, secrets') && !Literal(v') && Extends(secrets, secrets')
    ensures secrets'.Keys == secrets.Keys + {SecretKey(owner, Parse(v'.text).value.name)}
  {
    var secret := FreshName(secrets, owner, base);
    RefToIsRef(secret);
    secrets' := secrets[SecretKey(owner, secret) := v.text];
    v' := Text(RefTo(secret));
  }

  /** All sensitive inputs but those of `left` are done. */
  ghost predicate Halfway(
      p: Placed, inputs: map<string, Value>, left: set<string>, t: Template, s: Secrets, s': Secrets)
  {
    && left <= p.sensitive && inputs.Keys == p.inputs.Keys && Extends(s, s')
    && (forall n | n in inputs && (n in left || n !in p.sensitive) :: inputs[n] == p.inputs[n])
    && (forall n | n in inputs && n in p.sensitive - left ::
          Moved(p.inputs[n], inputs[n], t.owner, BaseName(t, n), s, s') && !Literal(inputs[n]))
    && (Clean(p) ==> inputs == p.inputs && s' == s)
  }

  lemma OneMoved(
      p: Placed, inputs: map<string, Value>, left: set<string>, t: Template, s: Secrets, s1: Secrets,
      s2: Secrets, name: string, v: Value)
    requires Halfway(p, inputs, left, t, s, s1) && Extends(s1, s2)
    requires name in left && name in inputs && Literal(inputs[name])
    requires Moved(inputs[name], v, t.owner, BaseName(t, name), s, s2) && !Literal(v)
    ensures Halfway(p, inputs[name := v], left - {name}, t, s, s2)
  {
    assert IsLiteral(p, name);
    forall n | n in inputs && n in p.sensitive - left
      ensures Moved(p.inputs[n], inputs[n], t.owner, BaseName(t, n), s, s2) {
      StaysMoved(p.inputs[n], inputs[n], t.owner, BaseName(t, n), s, s1, s2);
    }
  }

  method MigratePlaced(p: Placed, t: Template, secrets: Secrets) returns (p': Placed, secrets': Secrets)
    ensures Extends(secrets, secrets') && PlacedMigrated(p, p', t, secrets, secrets') && Clean(p')
    ensures forall k | k in secrets' && k !in secrets :: OfPlaced(p, p', t.owner, k)
    ensures Clean(p) ==> p' == p && secrets' == secrets
  {
    var inputs := p.inputs;
    secrets' := secrets;
    var left := p.sensitive;
    while left != {}
      invariant Halfway(p, inputs, left, t, secrets, secrets')
      invariant InputsAccount(p, inputs, left, t.owner, secrets, secrets')
      decreases left
    {
      var name :| name in left;
      if name in inputs && Literal(inputs[name]) {
        ghost var before := secrets';
        var v;
        v, secrets' := MoveLiteral(inputs[name], t.owner, BaseName(t, name), secrets, secrets');
        InputAccounts(p, inputs, left, t.owner, secrets, before, secrets', name, v);
        OneMoved(p, inputs, left, t, secrets, before, secrets', name, v);
        inputs := inputs[name := v];
      }
      left := left - {name};
    }
    p' := Placed(p.sensitive, inputs);
  }

  /** Later migrations keep what earlier ones established. */
  lemma StaysMigrated(p: Placed, p': Placed, t: Template, s: Secrets, s1: Secrets, s2: Secrets)
    requires PlacedMigrated(p, p', t, s, s1) && Extends(s1, s2)
    ensures PlacedMigrated(p, p', t, s, s2)
  {
  }

  /** What was new to the later store was new to the earlier one. */
  lemma WasNew(p: Placed, p': Placed, t: Template, s0: Secrets, s: Secrets, s': Secrets)
    requires PlacedMigrated(p, p', t, s, s') && Extends(s0, s)
    ensures PlacedMigrated(p, p', t, s0, s')
  {
  }

  method MigrateTemplate(t: Template, secrets: Secrets) returns (t': Template, secrets': Secrets)
    ensures Extends(secrets, secrets') && TemplateMigrated(t, t', secrets, secrets')
    ensures PlacedAccount(t, t'.placed, secrets, secrets')
    ensures forall k | 0 <= k < |t'.placed| :: Clean(t'.placed[k])
    ensures (forall k | 0 <= k < |t.placed| :: Clean(t.placed[k])) ==> t' == t && secrets' == secrets
  {
    hide OfPlaced, InputMigrated, Clean;
    secrets' := secrets;
    var placed, i := [], 0;
    while i < |t.placed|
      invariant i <= |t.placed| && |placed| == i && Extends(secrets, secrets')
      invariant forall k | 0 <= k < i ::
        PlacedMigrated(t.placed[k], placed[k], t, secrets, secrets') && Clean(placed[k])
      invariant PlacedAccount(t, placed, secrets, secrets')
      invariant (forall k | 0 <= k < |t.placed| ::
        Clean(t.placed[k])) ==> placed == t.placed[..i] && secrets' == secrets
    {
      ghost var before := secrets';
      var p;
      p, secrets' := MigratePlaced(t.placed[i], t, secrets');
      forall k | 0 <= k < i ensures PlacedMigrated(t.placed[k], placed[k], t, secrets, secrets') {
        StaysMigrated(t.placed[k], placed[k], t, secrets, before, secrets');
      }
      WasNew(t.placed[i], p, t, secrets, before, secrets');
      PlacementAccounts(t, placed, p, secrets, before, secrets');
      placed := placed + [p];
      i := i + 1;
    }
    t' := t.(placed := placed);
  }

  /** A migration step reads the same from an earlier store on, and up to a later one. */
  lemma TemplateStays(t: Template, t': Template, s0: Secrets, s: Secrets, s': Secrets, s1: Secrets)
    requires TemplateMigrated(t, t', s, s') && Extends(s0, s) && Extends(s', s1)
    ensures TemplateMigrated(t, t', s0, s1)
  {
    forall j | 0 <= j < |t.placed| ensures PlacedMigrated(t.placed[j], t'.placed[j], t, s0, s1) {
      WasNew(t.placed[j], t'.placed[j], t, s0, s, s');
      StaysMigrated(t.placed[j], t'.placed[j], t, s0, s', s1);
    }
  }

  /** Every literal of every template is moved, and nothing else changes; a second run finds
      nothing to do. */
  method MigrateAll(ts: seq<Template>, secrets: Secrets) returns (ts': seq<Template>, secrets': Secrets)
    ensures Extends(secrets, secrets') && |ts'| == |ts|
    ensures forall i | 0 <= i < |ts| :: TemplateMigrated(ts[i], ts'[i], secrets, secrets')
    ensures TemplatesAccount(ts, ts', secrets, secrets')
    ensures AllClean(ts')
    ensures AllClean(ts) ==> ts' == ts && secrets' == secrets
  {
    hide OfTemplate, PlacedMigrated, Clean;
    secrets' := secrets;
    ts' := [];
    var i := 0;
    while i < |ts|
      invariant i <= |ts| && |ts'| == i && Extends(secrets, secrets')
      invariant forall k | 0 <= k < i :: TemplateMigrated(ts[k], ts'[k], secrets, secrets')
      invariant TemplatesAccount(ts, ts', secrets, secrets')
      invariant AllClean(ts')
      invariant AllClean(ts) ==> ts' == ts[..i] && secrets' == secrets
    {
      ghost var before := secrets';
      var t;
      t, secrets' := MigrateTemplate(ts[i], secrets');
      forall k | 0 <= k < i ensures TemplateMigrated(ts[k], ts'[k], secrets, secrets') {
        TemplateStays(ts[k], ts'[k], secrets, secrets, before, secrets');
      }
      TemplateStays(ts[i], t, secrets, before, secrets', secrets');
      TemplateAccounts(ts, ts', t, secrets, before, secrets');
      ts' := ts' + [t];
      i := i + 1;
    }
  }

  // ------------------------------------------------------------------ the meaning is kept

  /** How references resolve for an owner: own secrets first, then, if allowed, global ones. */
  function SecretOf(s: Secrets, owner: nat, allowGlobal: bool, name: string): string {
    if SecretKey(Some(owner), name) in s then s[SecretKey(Some(owner), name)]
    else if allowGlobal && SecretKey(None, name) in s then s[SecretKey(None, name)]
    else ""
  }

  function Lookup(s: Secrets, variables: map<string, string>, owner: nat, allowGlobal: bool): (bool, string) -> string {
    (secret: bool, name: string) =>
      if secret then SecretOf(s, owner, allowGlobal, name) else if name in variables then variables[name] else ""
  }

  predicate NoReferences(t: string) {
    forall p | 0 <= p <= |t| :: Parse(t[p..]).None?
  }

  /** A complete reference resolves to the value of its secret. */
  lemma RefResolves(t: string, lookup: (bool, string) -> string)
    requires IsSecretRef(t) && lookup(true, Parse(t).value.name) != ""
    ensures ResolveSecrets(t, lookup) == lookup(true, Parse(t).value.name)
  {
    var m := Resolves(lookup);
    assert m(t) == Hit(|t|, lookup(true, Parse(t).value.name));
    assert Hits(m, t) && t[|t|..] == "";
    assert Sub(m, t) == m(t).text + Sub(m, t[|t|..]);
  }

  /** For the owner of a template a migrated input resolves to the very literal that was stored,
      provided the literal held no reference itself. */
  lemma MeaningIsKept(
      t: Template, t': Template, s: Secrets, s': Secrets, variables: map<string, string>,
      allowGlobal: bool, i: nat, n: string)
    requires TemplateMigrated(t, t', s, s') && t.owner.Some? && i < |t.placed|
    requires n in t.placed[i].inputs && IsLiteral(t.placed[i], n) && NoReferences(t.placed[i].inputs[n].text)
    ensures n in t'.placed[i].inputs && t'.placed[i].inputs[n].Text?
    ensures
      ResolveSecrets(t'.placed[i].inputs[n].text, Lookup(s', variables, t.owner.value, allowGlobal))
      == ResolveSecrets(t.placed[i].inputs[n].text, Lookup(s, variables, t.owner.value, allowGlobal))
  {
    var p, p' := t.placed[i], t'.placed[i];
    assert PlacedMigrated(p, p', t, s, s');
    assert InputMigrated(p, p', n, t, s, s');
    RefResolves(p'.inputs[n].text, Lookup(s', variables, t.owner.value, allowGlobal));
    WithoutReferences(p.inputs[n].text, Lookup(s, variables, t.owner.value, allowGlobal));
  }

  /** The migration added a secret of this name to this store. */
  predicate NewlyNamed(s: Secrets, s': Secrets, owner: Option<nat>, name: string) {
    SecretKey(owner, name) !in s && SecretKey(owner, name) in s'
  }

  /** Which references of other texts still resolve as before: all of them, except that a new secret
      of the owner shadows a global one, and a new global one answers where there was none. */
  lemma OldReferencesAreKept(s: Secrets, s': Secrets, owner: nat, allowGlobal: bool, name: string)
    requires Extends(s, s')
    ensures SecretOf(s', owner, allowGlobal, name) == SecretOf(s, owner, allowGlobal, name)
      <==> if NewlyNamed(s, s', Some(owner), name) then
             s'[SecretKey(Some(owner), name)] == SecretOf(s, owner, allowGlobal, name)
           else if SecretKey(Some(owner), name) !in s && allowGlobal && NewlyNamed(s, s', None, name) then
             s'[SecretKey(None, name)] == ""
           else true
  {
  }
}
