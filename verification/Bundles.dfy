/** Portable template bundles: what export leaves out, and why an imported template exports to the
    same bundle again. */
module Bundles {
  import opened Rows

  /** A stored value: empty, one complete deployer secret reference, or anything else. */
  datatype Value = Blank | Reference(secret: string) | Literal(value: nat)

  /** `sensitive` are the password and secret fields; `rest` stands for the other properties. */
  datatype Field = Field(name: string, sensitive: bool, default: Option<Value>, rest: nat)

  datatype Block = Block(builtin: bool, schema: seq<Field>, body: nat)

  type Blocks = map<string, Block>

  /** Absent properties are `None`; `extra` stands for properties that are no part of a bundle. */
  datatype Placed = Placed(ref: string, pid: string, name: Option<string>,
                           inputs: Option<map<string, Value>>, ask: Option<seq<string>>, extra: nat)

  datatype Section = Section(id: Option<string>, name: Option<string>, blocks: seq<Placed>, extra: nat)

  datatype Template = Template(meta: nat, recipe: seq<Section>)

  datatype Bundle = Bundle(meta: nat, recipe: seq<Section>, custom: Blocks)

  // ------------------------------------------------------------------ schemas

  function PortableField(f: Field): Field {
    if f.sensitive && !(f.default.Some? && f.default.value.Reference?) then f.(default := None) else f
  }

  function PortableSchema(s: seq<Field>): seq<Field> {
    seq(|s|, i requires 0 <= i < |s| => PortableField(s[i]))
  }

  function Names(s: seq<Field>): set<string> {
    set i | 0 <= i < |s| :: s[i].name
  }

  function SensitiveNames(s: seq<Field>): set<string> {
    set i | 0 <= i < |s| && s[i].sensitive :: s[i].name
  }

  // ------------------------------------------------------------------ one placement

  function InputsOf(p: Placed): map<string, Value> {
    if p.inputs.Some? then p.inputs.value else map[]
  }

  function Listed(ask: Option<seq<string>>): seq<string> {
    if ask.Some? then ask.value else []
  }

  function AskOf(p: Placed): seq<string> {
    Listed(p.ask)
  }

  /** First occurrences, in order. */
  function Distinct(s: seq<string>): (r: seq<string>)
    ensures forall x :: x in r <==> x in s
  {
    if s == [] then []
    else
      var before := Distinct(s[..|s| - 1]);
      assert s == s[..|s| - 1] + [s[|s| - 1]];
      if s[|s| - 1] in before then before else before + [s[|s| - 1]]
  }

  /** A sensitive input that is no reference is not exported, and asked for at deploy time. */
  predicate Withheld(p: Placed, s: seq<Field>, n: string) {
    n in SensitiveNames(s) && n in InputsOf(p) && !InputsOf(p)[n].Reference?
  }

  /** The inputs that are exported: known ones that are not withheld. */
  function Portable(p: Placed, s: seq<Field>): map<string, Value> {
    map n | n in InputsOf(p) && n in Names(s) && !Withheld(p, s, n) :: InputsOf(p)[n]
  }

  /** What becomes of one placement: known inputs without the withheld ones, the withheld names
      on the ask list, and nothing else touched. */
  ghost predicate Exports(p: Placed, q: Placed, s: seq<Field>) {
    && q == p.(inputs := q.inputs, ask := q.ask, extra := 0)
    && q.inputs == Some(Portable(p, s))
    && ((forall n | n in InputsOf(p) :: !Withheld(p, s, n)) ==> q.ask == p.ask)
    && ((exists n :: Withheld(p, s, n)) ==> q.ask.Some? && Distinct(AskOf(p)) <= q.ask.value)
    && (forall n :: n in AskOf(q) <==> n in AskOf(p) || Withheld(p, s, n))
  }

  /** The ask list after the names of `withheld` were put on it one by one. */
  function AskWith(ask: Option<seq<string>>, withheld: seq<string>): Option<seq<string>> {
    if withheld == [] then ask
    else
      var before := AskWith(ask, withheld[..|withheld| - 1]);
      Some(Distinct(Listed(before) + [withheld[|withheld| - 1]]))
  }

  lemma {:induction false} AskWithMembers(ask: Option<seq<string>>, withheld: seq<string>)
    ensures forall n :: n in Listed(AskWith(ask, withheld)) <==> n in Listed(ask) || n in withheld
  {
    if withheld != [] {
      var n := |withheld| - 1;
      AskWithMembers(ask, withheld[..n]);
      assert withheld == withheld[..n] + [withheld[n]];
    }
  }

  lemma {:induction false} AskWithPrefix(ask: Option<seq<string>>, withheld: seq<string>)
    requires withheld != []
    ensures Distinct(Listed(ask)) <= Listed(AskWith(ask, withheld))
  {
    var n := |withheld| - 1;
    var list := Listed(AskWith(ask, withheld[..n]));
    DistinctAppends(list, withheld[n]);
    if n > 0 {
      AskWithPrefix(ask, withheld[..n]);
      DistinctKeeps(Listed(ask), list);
    }
  }

  method ExportPlaced(p: Placed, s: seq<Field>) returns (q: Placed)
    ensures Exports(p, q, s)
  {
    var known, left := Names(s), SensitiveNames(s);
    var inputs := map n | n in InputsOf(p) && n in known :: InputsOf(p)[n];
    var ask := p.ask;
    ghost var withheld: seq<string> := [];
    while left != {}
      invariant left <= SensitiveNames(s) && ask == AskWith(p.ask, withheld)
      invariant forall n :: n in inputs <==> n in InputsOf(p) && n in known && n !in withheld
      invariant forall n | n in inputs :: inputs[n] == InputsOf(p)[n]
      invariant forall n :: n in withheld <==> Withheld(p, s, n) && n !in left
      decreases left
    {
      var name :| name in left;
      left := left - {name};
      if name in inputs && !inputs[name].Reference? {
        inputs := inputs - {name};
        ask := Some(Distinct(Listed(ask) + [name]));
        assert (withheld + [name])[..|withheld|] == withheld;
        withheld := withheld + [name];
      }
    }
    q := p.(inputs := Some(inputs), ask := ask, extra := 0);
    WithholdingExports(p, q, s, withheld);
  }

  lemma InputsExport(p: Placed, inputs: map<string, Value>, s: seq<Field>, withheld: seq<string>)
    requires forall n :: n in inputs <==> n in InputsOf(p) && n in Names(s) && n !in withheld
    requires forall n | n in inputs :: inputs[n] == InputsOf(p)[n]
    requires forall n :: n in withheld <==> Withheld(p, s, n)
    ensures inputs == Portable(p, s)
  {
    forall n ensures n in inputs <==> n in Portable(p, s) {
    }
  }

  lemma WithholdingExports(p: Placed, q: Placed, s: seq<Field>, withheld: seq<string>)
    requires q == p.(inputs := q.inputs, ask := AskWith(p.ask, withheld), extra := 0) && q.inputs.Some?
    requires forall n :: n in q.inputs.value <==> n in InputsOf(p) && n in Names(s) && n !in withheld
    requires forall n | n in q.inputs.value :: q.inputs.value[n] == InputsOf(p)[n]
    requires forall n :: n in withheld <==> Withheld(p, s, n)
    ensures Exports(p, q, s)
  {
    AskExports(p, s, withheld);
    InputsExport(p, q.inputs.value, s, withheld);
  }

  lemma AskExports(p: Placed, s: seq<Field>, withheld: seq<string>)
    requires forall n :: n in withheld <==> Withheld(p, s, n)
    ensures
      var ask := AskWith(p.ask, withheld);
      && ((forall n | n in InputsOf(p) :: !Withheld(p, s, n)) ==> ask == p.ask)
      && ((exists n :: Withheld(p, s, n)) ==> ask.Some? && Distinct(AskOf(p)) <= ask.value)
      && (forall n :: n in Listed(ask) <==> n in AskOf(p) || Withheld(p, s, n))
  {
    AskWithMembers(p.ask, withheld);
    if withheld != [] {
      AskWithPrefix(p.ask, withheld);
      assert withheld[0] in withheld;
    }
  }

  lemma DistinctAppends(s: seq<string>, n: string)
    ensures Distinct(s) <= Distinct(s + [n])
  {
    assert (s + [n])[..|s + [n]| - 1] == s;
  }

  /** Distinct lists stay as they are, so a distinct prefix survives. */
  lemma {:induction false} DistinctKeeps(s: seq<string>, t: seq<string>)
    requires Distinct(s) <= t
    ensures Distinct(s) <= Distinct(t)
    decreases |t|
  {
    if |Distinct(s)| < |t| {
      assert Distinct(s) <= t[..|t| - 1];
      DistinctKeeps(s, t[..|t| - 1]);
    } else {
      assert t == Distinct(s);
      DistinctTwice(s);
      assert Distinct(t) == Distinct(Distinct(s));
    }
  }

  lemma DistinctOfNew(before: seq<string>, last: string)
    requires Distinct(before) == before && last !in before
    ensures Distinct(before + [last]) == before + [last]
  {
    assert (before + [last])[..|before + [last]| - 1] == before;
  }

  lemma {:induction false} DistinctTwice(s: seq<string>)
    ensures Distinct(Distinct(s)) == Distinct(s)
  {
    if s != [] {
      var last := s[|s| - 1];
      var before := Distinct(s[..|s| - 1]);
      DistinctTwice(s[..|s| - 1]);
      if last !in before {
        DistinctOfNew(before, last);
      }
    }
  }

  // ------------------------------------------------------------------ the rule on sensitive inputs

  /** What saving and importing demand: a sensitive input is a deployer secret reference, or it
      is empty and asked for. */
  predicate RuleFor(p: Placed, s: seq<Field>, n: string) {
    n in SensitiveNames(s) ==>
      || (n in InputsOf(p) && InputsOf(p)[n].Reference?)
      || ((n !in InputsOf(p) || InputsOf(p)[n].Blank?) && n in AskOf(p))
  }

  ghost predicate Rule(p: Placed, s: seq<Field>) {
    forall n :: RuleFor(p, s, n)
  }

  lemma PortableKeepsNames(s: seq<Field>)
    ensures Names(PortableSchema(s)) == Names(s) && SensitiveNames(PortableSchema(s)) == SensitiveNames(s)
    ensures SensitiveNames(s) <= Names(s)
  {
    var t := PortableSchema(s);
    assert forall i | 0 <= i < |s| :: t[i].name == s[i].name && t[i].sensitive == s[i].sensitive;
    forall n ensures n in Names(t) <==> n in Names(s) {
      if n in Names(s) {
        var i :| 0 <= i < |s| && s[i].name == n;
        assert t[i].name == n;
      }
    }
    forall n ensures n in SensitiveNames(t) <==> n in SensitiveNames(s) {
      if n in SensitiveNames(s) {
        var i :| 0 <= i < |s| && s[i].sensitive && s[i].name == n;
        assert t[i].name == n && t[i].sensitive;
      }
    }
  }

  /** The exported placement passes the rule exactly when every sensitive input was stored in
      some form or asked for. */
  lemma ExportPassesRuleIff(p: Placed, q: Placed, s: seq<Field>)
    requires Exports(p, q, s)
    ensures Rule(q, s) <==> forall n | n in SensitiveNames(s) :: n in InputsOf(p) || n in AskOf(p)
  {
    PortableKeepsNames(s);
    forall n | n in SensitiveNames(s) ensures RuleFor(q, s, n) <==> n in InputsOf(p) || n in AskOf(p) {
    }
    assert (forall n :: RuleFor(q, s, n)) <==> (forall n | n in SensitiveNames(s) :: RuleFor(q, s, n));
  }

  /** A placement that could be saved passes the rule after export. */
  lemma SavedExportsPass(p: Placed, q: Placed, s: seq<Field>)
    requires Rule(p, s) && Exports(p, q, s)
    ensures Rule(q, s) && Rule(q, PortableSchema(s))
  {
    forall n | n in SensitiveNames(s) ensures n in InputsOf(p) || n in AskOf(p) {
      assert RuleFor(p, s, n);
    }
    ExportPassesRuleIff(p, q, s);
    PortableKeepsNames(s);
    forall n ensures RuleFor(q, PortableSchema(s), n) {
      assert RuleFor(q, s, n);
    }
  }

  // ------------------------------------------------------------------ whole templates

  ghost predicate SameShape(r: seq<Section>, r': seq<Section>) {
    |r'| == |r| && forall si | 0 <= si < |r| :: |r'[si].blocks| == |r[si].blocks|
  }

  function OrEmpty(t: Option<string>): string {
    if t.Some? then t.value else ""
  }

  predicate RefsKnown(r: seq<Section>, blocks: Blocks) {
    forall si, bi | 0 <= si < |r| && 0 <= bi < |r[si].blocks| :: r[si].blocks[bi].ref in blocks
  }

  predicate Uses(r: seq<Section>, key: string) {
    exists si, bi | 0 <= si < |r| && 0 <= bi < |r[si].blocks| :: r[si].blocks[bi].ref == key
  }

  ghost predicate SectionExports(s: Section, s': Section, blocks: Blocks) {
    && s'.id == Some(OrEmpty(s.id)) && s'.name == Some(OrEmpty(s.name)) && s'.extra == 0
    && |s'.blocks| == |s.blocks|
    && forall bi | 0 <= bi < |s.blocks| ::
         s.blocks[bi].ref in blocks && Exports(s.blocks[bi], s'.blocks[bi], blocks[s.blocks[bi].ref].schema)
  }

  /** A custom block is exported as it is stored, but that a sensitive default which is no
      deployer reference is left out. */
  ghost predicate SameButSensitiveDefaults(stored: Block, exported: Block) {
    && !exported.builtin && exported.body == stored.body && |exported.schema| == |stored.schema|
    && forall i | 0 <= i < |stored.schema| ::
         var f, g := stored.schema[i], exported.schema[i];
         && g.name == f.name && g.sensitive == f.sensitive && g.rest == f.rest
         && (!f.sensitive ==> g.default == f.default)
         && (f.sensitive && f.default.Some? && f.default.value.Reference? ==> g.default == f.default)
         && (f.sensitive && !(f.default.Some? && f.default.value.Reference?) ==> g.default == None)
  }

  lemma ExportedBlock(stored: Block, exported: Block)
    ensures SameButSensitiveDefaults(stored, exported)
      <==> exported == Block(false, PortableSchema(stored.schema), stored.body)
  {
    var s := PortableSchema(stored.schema);
    if SameButSensitiveDefaults(stored, exported) {
      forall i | 0 <= i < |s| ensures exported.schema[i] == PortableField(stored.schema[i]) {
        assert exported.schema[i].default == PortableField(stored.schema[i]).default;
      }
      assert exported.schema == s;
    }
  }

  ghost predicate ExportsTo(t: Template, blocks: Blocks, b: Bundle) {
    && RefsKnown(t.recipe, blocks) && b.meta == t.meta && SameShape(t.recipe, b.recipe)
    && (forall si | 0 <= si < |t.recipe| :: SectionExports(t.recipe[si], b.recipe[si], blocks))
    && (forall k :: k in b.custom <==> Uses(t.recipe, k) && k in blocks && !blocks[k].builtin)
    && (forall k | k in b.custom :: SameButSensitiveDefaults(blocks[k], b.custom[k]))
  }

  /** Who exports: the template's owner, an administrator; and which blocks belong to others, or
      have a schema that is not valid. */
  datatype Exporter = Exporter(owner: bool, admin: bool, foreign: set<string>, broken: set<string>)

  datatype Export = Exported(bundle: Bundle) | NoTemplate | NoBlock | BrokenBlock | ForeignBlock

  /** A block that stops the export: its schema is broken, or it is a custom block of somebody else. */
  predicate Stops(e: Exporter, blocks: Blocks, k: string)
    requires k in blocks
  {
    k in e.broken || (!blocks[k].builtin && k in e.foreign && !e.admin)
  }

  ghost predicate Exportable(e: Exporter, t: Template, blocks: Blocks) {
    && (e.owner || e.admin) && RefsKnown(t.recipe, blocks)
    && forall k | k in blocks && Uses(t.recipe, k) ::
         k !in e.broken && (blocks[k].builtin || k !in e.foreign || e.admin)
  }

  /** Export is refused to strangers, for missing or broken blocks, and for custom blocks of others;
      otherwise it goes placement by placement. */
  method ExportTemplate(e: Exporter, t: Template, blocks: Blocks) returns (r: Export)
    ensures r.Exported? <==> Exportable(e, t, blocks)
    ensures r.Exported? ==> ExportsTo(t, blocks, r.bundle)
    ensures r == BrokenBlock ==> exists k :: k in blocks && Uses(t.recipe, k) && k in e.broken
    ensures r == ForeignBlock ==> exists k :: k in blocks && Uses(t.recipe, k) && !blocks[k].builtin && k in e.foreign
    ensures r == NoBlock ==> !RefsKnown(t.recipe, blocks)
    ensures r == NoTemplate <==> !e.owner && !e.admin
  {
    if !e.owner && !e.admin {
      return NoTemplate;
    }
    if !RefsKnown(t.recipe, blocks) {
      return NoBlock;
    }
    if k :| k in blocks && Uses(t.recipe, k) && Stops(e, blocks, k) {
      return if k in e.broken then BrokenBlock else ForeignBlock;
    }
    var recipe, si := [], 0;
    while si < |t.recipe|
      invariant si <= |t.recipe| && |recipe| == si
      invariant forall k | 0 <= k < si :: SectionExports(t.recipe[k], recipe[k], blocks)
    {
      var section := ExportSection(t.recipe[si], blocks);
      recipe := recipe + [section];
      si := si + 1;
    }
    var custom := map k | k in blocks && Uses(t.recipe, k) && !blocks[k].builtin
      :: Block(false, PortableSchema(blocks[k].schema), blocks[k].body);
    r := Exported(Bundle(t.meta, recipe, custom));
    forall k | k in custom ensures SameButSensitiveDefaults(blocks[k], custom[k]) {
      ExportedBlock(blocks[k], custom[k]);
    }
  }

  method ExportSection(s: Section, blocks: Blocks) returns (s': Section)
    requires forall bi | 0 <= bi < |s.blocks| :: s.blocks[bi].ref in blocks
    ensures SectionExports(s, s', blocks)
  {
    var placed, bi := [], 0;
    while bi < |s.blocks|
      invariant bi <= |s.blocks| && |placed| == bi
      invariant forall k | 0 <= k < bi :: Exports(s.blocks[k], placed[k], blocks[s.blocks[k].ref].schema)
    {
      var q := ExportPlaced(s.blocks[bi], blocks[s.blocks[bi].ref].schema);
      placed := placed + [q];
      bi := bi + 1;
    }
    s' := Section(Some(OrEmpty(s.id)), Some(OrEmpty(s.name)), placed, 0);
  }

  // What an exported bundle holds, field by field and placement by placement.

  predicate Declares(s: seq<Field>, n: string) {
    exists i | 0 <= i < |s| :: s[i].name == n
  }

  predicate DeclaresSensitive(s: seq<Field>, n: string) {
    exists i | 0 <= i < |s| :: s[i].name == n && s[i].sensitive
  }

  /** An input is exported when its block still declares it, unless it is sensitive and no deployer
      reference; what is exported has the stored value. */
  lemma PlacementIsExported(t: Template, blocks: Blocks, b: Bundle, si: nat, bi: nat)
    requires ExportsTo(t, blocks, b) && si < |t.recipe| && bi < |t.recipe[si].blocks|
    ensures si < |b.recipe| && bi < |b.recipe[si].blocks| && t.recipe[si].blocks[bi].ref in blocks
    ensures
      var p, q := t.recipe[si].blocks[bi], b.recipe[si].blocks[bi];
      var stored, s := if p.inputs.Some? then p.inputs.value else map[], blocks[p.ref].schema;
      && q.ref == p.ref && q.pid == p.pid && q.name == p.name && q.inputs.Some?
      && (forall n :: n in q.inputs.value <==>
            n in stored && Declares(s, n) && (DeclaresSensitive(s, n) ==> stored[n].Reference?))
      && (forall n | n in q.inputs.value :: q.inputs.value[n] == stored[n])
  {
    var p, q := t.recipe[si].blocks[bi], b.recipe[si].blocks[bi];
    assert SectionExports(t.recipe[si], b.recipe[si], blocks);
    var s := blocks[p.ref].schema;
    assert forall n :: n in Names(s) <==> Declares(s, n);
    assert forall n :: n in SensitiveNames(s) <==> DeclaresSensitive(s, n);
  }

  /** What saving a template checks: every block is there, and the rule holds everywhere. */
  ghost predicate Saved(t: Template, blocks: Blocks) {
    && RefsKnown(t.recipe, blocks)
    && forall si, bi | 0 <= si < |t.recipe| && 0 <= bi < |t.recipe[si].blocks| ::
         Rule(t.recipe[si].blocks[bi], blocks[t.recipe[si].blocks[bi].ref].schema)
  }

  predicate LiteralDefault(f: Field) {
    f.sensitive && f.default.Some? && f.default.value.Literal?
  }

  /** What importing a bundle checks: no unused custom block, no missing built-in one, no literal
      default of a sensitive field, and the rule everywhere. */
  ghost predicate Importable(b: Bundle, blocks: Blocks) {
    && (forall k | k in b.custom :: Uses(b.recipe, k))
    && (forall k | k in b.custom :: forall f | f in b.custom[k].schema :: !LiteralDefault(f))
    && forall si, bi | 0 <= si < |b.recipe| && 0 <= bi < |b.recipe[si].blocks| ::
         PlacementImportable(b.recipe[si].blocks[bi], b, blocks)
  }

  ghost predicate PlacementImportable(q: Placed, b: Bundle, blocks: Blocks) {
    if q.ref in b.custom then Rule(q, b.custom[q.ref].schema)
    else q.ref in blocks && blocks[q.ref].builtin && Rule(q, blocks[q.ref].schema)
  }

  lemma SavedPlacementIsImportable(t: Template, blocks: Blocks, b: Bundle, si: nat, bi: nat)
    requires Saved(t, blocks) && ExportsTo(t, blocks, b) && si < |t.recipe| && bi < |t.recipe[si].blocks|
    ensures PlacementImportable(b.recipe[si].blocks[bi], b, blocks)
  {
    var p, q := t.recipe[si].blocks[bi], b.recipe[si].blocks[bi];
    assert SectionExports(t.recipe[si], b.recipe[si], blocks);
    assert Uses(t.recipe, p.ref) && q.ref == p.ref;
    SavedExportsPass(p, q, blocks[p.ref].schema);
    if p.ref in b.custom {
      ExportedBlock(blocks[p.ref], b.custom[p.ref]);
    }
  }

  lemma CustomIsUsed(t: Template, blocks: Blocks, b: Bundle, k: string)
    requires ExportsTo(t, blocks, b) && k in b.custom
    ensures Uses(b.recipe, k)
  {
    var si, bi :| 0 <= si < |t.recipe| && 0 <= bi < |t.recipe[si].blocks| && t.recipe[si].blocks[bi].ref == k;
    assert SectionExports(t.recipe[si], b.recipe[si], blocks);
    assert b.recipe[si].blocks[bi].ref == k;
  }

  lemma PortableHasNoLiteral(s: seq<Field>)
    ensures forall f | f in PortableSchema(s) :: !LiteralDefault(f)
  {
  }

  /** A template that could be saved exports to a bundle that can be imported. */
  lemma SavedIsImportable(t: Template, blocks: Blocks, b: Bundle)
    requires Saved(t, blocks) && ExportsTo(t, blocks, b)
    ensures Importable(b, blocks)
  {
    forall k | k in b.custom ensures Uses(b.recipe, k) && forall f | f in b.custom[k].schema :: !LiteralDefault(f) {
      CustomIsUsed(t, blocks, b, k);
      ExportedBlock(blocks[k], b.custom[k]);
      PortableHasNoLiteral(blocks[k].schema);
    }
    forall si, bi | 0 <= si < |b.recipe| && 0 <= bi < |b.recipe[si].blocks|
      ensures PlacementImportable(b.recipe[si].blocks[bi], b, blocks)
    {
      SavedPlacementIsImportable(t, blocks, b, si, bi);
    }
  }

  /** Missing names and ask lists are filled with their defaults when a bundle is read. */
  function Defaulted(q: Placed): Placed {
    q.(name := Some(OrEmpty(q.name)), inputs := Some(InputsOf(q)), ask := Some(AskOf(q)), extra := 0)
  }

  function NewKey(renamed: map<string, string>, k: string): string {
    if k in renamed then renamed[k] else k
  }

  function Imported(q: Placed, renamed: map<string, string>): Placed {
    Defaulted(q).(ref := NewKey(renamed, q.ref))
  }

  function ImportedSection(s: Section, renamed: map<string, string>): Section {
    Section(Some(OrEmpty(s.id)), Some(OrEmpty(s.name)),
            seq(|s.blocks|, bi requires 0 <= bi < |s.blocks| => Imported(s.blocks[bi], renamed)), 0)
  }

  function ImportedRecipe(r: seq<Section>, renamed: map<string, string>): seq<Section> {
    seq(|r|, si requires 0 <= si < |r| => ImportedSection(r[si], renamed))
  }

  /** A placement is imported with its address, its inputs and its questions; only the key of a custom
      block is new. */
  lemma PlacementIsImported(r: seq<Section>, renamed: map<string, string>, si: nat, bi: nat)
    requires si < |r| && bi < |r[si].blocks|
    ensures si < |ImportedRecipe(r, renamed)| == |r|
    ensures bi < |ImportedRecipe(r, renamed)[si].blocks| == |r[si].blocks|
    ensures
      var q, m := r[si].blocks[bi], ImportedRecipe(r, renamed)[si].blocks[bi];
      && m.pid == q.pid && m.name == Some(if q.name.Some? then q.name.value else "")
      && m.inputs == Some(if q.inputs.Some? then q.inputs.value else map[])
      && m.ask == Some(if q.ask.Some? then q.ask.value else [])
      && (q.ref in renamed ==> m.ref == renamed[q.ref]) && (q.ref !in renamed ==> m.ref == q.ref)
  {
  }

  /** Sections keep their texts in export and in import; absent ones are empty. */
  lemma SectionsKeepTheirTexts(t: Template, blocks: Blocks, b: Bundle, renamed: map<string, string>, si: nat)
    requires ExportsTo(t, blocks, b) && si < |t.recipe|
    ensures |b.recipe| == |t.recipe| == |ImportedRecipe(b.recipe, renamed)|
    ensures
      var s, s', m := t.recipe[si], b.recipe[si], ImportedRecipe(b.recipe, renamed)[si];
      && |s'.blocks| == |s.blocks| == |m.blocks|
      && m.id == s'.id && (s.id.Some? ==> s'.id == s.id) && (s.id.None? ==> s'.id == Some(""))
      && m.name == s'.name && (s.name.Some? ==> s'.name == s.name) && (s.name.None? ==> s'.name == Some(""))
  {
    assert SectionExports(t.recipe[si], b.recipe[si], blocks);
  }

  /** A key for every custom block, none of them in use. */
  ghost predicate FreshKeys(b: Bundle, blocks: Blocks, renamed: map<string, string>) {
    && renamed.Keys == b.custom.Keys
    && (forall k | k in renamed :: renamed[k] !in blocks)
    && (forall k, l | k in renamed && l in renamed && renamed[k] == renamed[l] :: k == l)
  }

  /** The block table with the imported blocks. */
  ghost predicate Extended(b: Bundle, blocks: Blocks, blocks': Blocks, renamed: map<string, string>) {
    && (forall k | k in blocks :: k in blocks' && blocks'[k] == blocks[k])
    && (forall k | k in renamed :: renamed[k] in blocks' && k in b.custom && blocks'[renamed[k]] == b.custom[k])
  }

  lemma PortableTwice(s: seq<Field>)
    ensures PortableSchema(PortableSchema(s)) == PortableSchema(s)
  {
  }

  /** Nothing is withheld a second time. */
  lemma ExportOfImport(p: Placed, q: Placed, q2: Placed, s: seq<Field>, s': seq<Field>, renamed: map<string, string>)
    requires Exports(p, q, s) && (s' == s || s' == PortableSchema(s))
    requires Exports(Imported(q, renamed), q2, s')
    ensures q2 == Imported(q, renamed)
  {
    var m := Imported(q, renamed);
    PortableKeepsNames(s);
    forall n | n in InputsOf(m) ensures !Withheld(m, s', n) && n in Names(s') {
      assert n in InputsOf(q) && InputsOf(q)[n] == InputsOf(p)[n];
    }
    assert q2.inputs.value == InputsOf(m);
  }

  /** A block that exports as custom after the import was custom before. */
  lemma NewCustomIsOld(
      t: Template, blocks: Blocks, b: Bundle, renamed: map<string, string>, blocks': Blocks, k: string,
      si: nat, bi: nat)
    requires ExportsTo(t, blocks, b) && FreshKeys(b, blocks, renamed) && Extended(b, blocks, blocks', renamed)
    requires si < |t.recipe| && bi < |t.recipe[si].blocks|
    requires NewKey(renamed, t.recipe[si].blocks[bi].ref) == k && k in blocks' && !blocks'[k].builtin
    ensures t.recipe[si].blocks[bi].ref in b.custom && renamed[t.recipe[si].blocks[bi].ref] == k
  {
    assert Uses(t.recipe, t.recipe[si].blocks[bi].ref);
  }

  lemma RefsAreRenamed(t: Template, blocks: Blocks, b: Bundle, renamed: map<string, string>, si: nat, bi: nat)
    requires ExportsTo(t, blocks, b) && si < |t.recipe| && bi < |t.recipe[si].blocks|
    ensures
      var r := ImportedRecipe(b.recipe, renamed);
      && si < |r| && bi < |r[si].blocks|
      && r[si].blocks[bi] == Imported(b.recipe[si].blocks[bi], renamed)
      && r[si].blocks[bi].ref == NewKey(renamed, t.recipe[si].blocks[bi].ref)
  {
  }

  lemma CustomIsSame(
      t: Template, blocks: Blocks, b: Bundle, renamed: map<string, string>, blocks': Blocks, b2: Bundle)
    requires ExportsTo(t, blocks, b) && FreshKeys(b, blocks, renamed) && Extended(b, blocks, blocks', renamed)
    requires ExportsTo(Template(b.meta, ImportedRecipe(b.recipe, renamed)), blocks', b2)
    ensures forall k | k in b.custom :: renamed[k] in b2.custom && b2.custom[renamed[k]] == b.custom[k]
    ensures forall k | k in b2.custom :: exists l :: l in b.custom && renamed[l] == k
  {
    var r1 := ImportedRecipe(b.recipe, renamed);
    forall k | k in b.custom ensures renamed[k] in b2.custom && b2.custom[renamed[k]] == b.custom[k] {
      var si, bi :| 0 <= si < |t.recipe| && 0 <= bi < |t.recipe[si].blocks| && t.recipe[si].blocks[bi].ref == k;
      RefsAreRenamed(t, blocks, b, renamed, si, bi);
      assert Uses(r1, renamed[k]);
      ExportedBlock(blocks[k], b.custom[k]);
      ExportedBlock(b.custom[k], b2.custom[renamed[k]]);
      PortableTwice(blocks[k].schema);
    }
    forall k | k in b2.custom ensures exists l :: l in b.custom && renamed[l] == k {
      var si, bi :| 0 <= si < |r1| && 0 <= bi < |r1[si].blocks| && r1[si].blocks[bi].ref == k;
      RefsAreRenamed(t, blocks, b, renamed, si, bi);
      NewCustomIsOld(t, blocks, b, renamed, blocks', k, si, bi);
    }
  }

  /** Export, import, export: the same bundle, up to the fresh keys of custom blocks and defaults
      for what was absent. */
  lemma ReexportIsSame(
      t: Template, blocks: Blocks, b: Bundle, renamed: map<string, string>, blocks': Blocks, b2: Bundle)
    requires ExportsTo(t, blocks, b) && FreshKeys(b, blocks, renamed) && Extended(b, blocks, blocks', renamed)
    requires ExportsTo(Template(b.meta, ImportedRecipe(b.recipe, renamed)), blocks', b2)
    ensures b2.meta == b.meta && b2.recipe == ImportedRecipe(b.recipe, renamed)
    ensures forall k | k in b.custom :: renamed[k] in b2.custom && b2.custom[renamed[k]] == b.custom[k]
    ensures forall k | k in b2.custom :: exists l :: l in b.custom && renamed[l] == k
  {
    var r1 := ImportedRecipe(b.recipe, renamed);
    forall si | 0 <= si < |r1| ensures b2.recipe[si] == r1[si] {
      forall bi | 0 <= bi < |r1[si].blocks| ensures b2.recipe[si].blocks[bi] == r1[si].blocks[bi] {
        PlacementIsSame(t, blocks, b, renamed, blocks', b2, si, bi);
      }
      assert b2.recipe[si].blocks == r1[si].blocks;
    }
    CustomIsSame(t, blocks, b, renamed, blocks', b2);
  }

  lemma PlacementIsSame(
      t: Template, blocks: Blocks, b: Bundle, renamed: map<string, string>, blocks': Blocks, b2: Bundle,
      si: nat, bi: nat)
    requires ExportsTo(t, blocks, b) && FreshKeys(b, blocks, renamed) && Extended(b, blocks, blocks', renamed)
    requires ExportsTo(Template(b.meta, ImportedRecipe(b.recipe, renamed)), blocks', b2)
    requires si < |b.recipe| && bi < |b.recipe[si].blocks|
    ensures si < |b2.recipe| && bi < |b2.recipe[si].blocks|
    ensures b2.recipe[si].blocks[bi] == Imported(b.recipe[si].blocks[bi], renamed)
  {
    var r1 := ImportedRecipe(b.recipe, renamed);
    var p, q := t.recipe[si].blocks[bi], b.recipe[si].blocks[bi];
    var k := p.ref;
    assert r1[si].blocks[bi] == Imported(q, renamed);
    assert Uses(t.recipe, k);
    assert q.ref == k;
    var s' := blocks'[NewKey(renamed, k)].schema;
    if k in renamed {
      ExportedBlock(blocks[k], b.custom[k]);
    } else {
      assert s' == blocks[k].schema;
    }
    ExportOfImport(p, q, b2.recipe[si].blocks[bi], blocks[k].schema, s', renamed);
  }
}
