/** From accepted deploy-time answers to the recipe of the execution plan. */
module DeployInputs {
  import opened Rows
  import opened Scanner
  import opened Placement

  /** One field of a block's input schema. */
  datatype Field = Field(kind: string, options: Option<seq<string>>)

  /** The fields of each known block, by name. */
  type Schemas = map<string, map<string, Field>>

  function FieldsOf(b: Block, schemas: Schemas): map<string, Field>
    requires b.Placed?
  {
    if b.ref in schemas then schemas[b.ref] else map[]
  }

  predicate IsToggle(kind: string) {
    kind == "bool" || kind == "boolean" || kind == "toggle"
  }

  predicate IsList(kind: string) {
    kind == "tags" || kind == "list"
  }

  /** The types that must end up with a text. */
  predicate IsTextual(kind: string) {
    kind == "text" || kind == "secret" || kind == "password"
  }

  predicate HasControl(s: string) {
    exists c | c in s :: c < ' ' || c == '\U{7F}'
  }

  predicate NonBlankText(s: string) {
    exists c | c in s :: !IsSpace(c)
  }

  /** A stored value that is not empty, false or zero, and does not print as white space. */
  predicate NonBlank(v: Value) {
    match v
    case Text(s) => NonBlankText(s)
    case Flag(on) => on
    case Items(items) => items != []
    case Number(n) => n != 0
  }

  /** An answer of the right type: no control characters outside code, and no blank text. */
  predicate Acceptable(f: Field, v: Value) {
    if IsToggle(f.kind) then v.Flag?
    else if IsList(f.kind) then v.Items?
    else
      && v.Text?
      && (f.kind == "select" ==> f.options.Some? && v.text in f.options.value)
      && (f.kind != "code" ==> !HasControl(v.text))
      && (IsTextual(f.kind) ==> NonBlankText(v.text))
  }

  /** What is required of one asked name. */
  predicate NameOk(b: Block, fields: map<string, Field>, answers: map<string, Value>, name: string)
    requires b.Placed?
  {
    name in fields ==>
      if name in answers then Acceptable(fields[name], answers[name])
      else IsTextual(fields[name].kind) ==> InputOf(b, name).Some? && NonBlank(InputOf(b, name).value)
  }

  function AnswersAt(t: map<Key, Answers>, k: Key): Answers {
    if k in t then t[k] else Given(map[])
  }

  predicate BlockOk(b: Block, fields: map<string, Field>, a: Answers)
    requires b.Placed?
  {
    && a.Given?
    && (forall n | n in a.values :: n in b.ask)
    && (forall n | n in b.ask :: NameOk(b, fields, a.values, n))
  }

  /** The answers kept for one block: those to asked fields that still exist. */
  function Kept(b: Block, fields: map<string, Field>, a: Answers): map<string, Value>
    requires b.Placed? && a.Given?
  {
    map n | n in a.values && n in b.ask && n in fields :: a.values[n]
  }

  ghost predicate Valid(r: Recipe, schemas: Schemas, t: map<Key, Answers>) {
    && (forall k | k in t :: AsksAt(r, k))
    && (forall k | AsksAt(r, k) :: PositionOk(r, schemas, t, k))
  }

  predicate PositionOk(r: Recipe, schemas: Schemas, t: map<Key, Answers>, k: Key)
    requires AsksAt(r, k)
  {
    BlockOk(BlockAt(r, k.section, k.block), FieldsOf(BlockAt(r, k.section, k.block), schemas), AnswersAt(t, k))
  }

  function KeptAt(r: Recipe, schemas: Schemas, t: map<Key, Answers>, k: Key): map<string, Value> {
    if AsksAt(r, k) && AnswersAt(t, k).Given?
    then Kept(BlockAt(r, k.section, k.block), FieldsOf(BlockAt(r, k.section, k.block), schemas), AnswersAt(t, k))
    else map[]
  }

  /** An answer of the wrong type, outside the options, with a control character, or blank. */
  predicate WrongAnswer(f: Field, v: Value) {
    if f.kind in {"bool", "boolean", "toggle"} then !v.Flag?
    else if f.kind in {"tags", "list"} then !v.Items?
    else
      || !v.Text?
      || (f.kind == "select" && (f.options.None? || v.text !in f.options.value))
      || (f.kind != "code" && exists i | 0 <= i < |v.text| :: v.text[i] < ' ' || v.text[i] == '\U{7F}')
      || (f.kind in {"text", "secret", "password"} && forall i | 0 <= i < |v.text| :: IsSpace(v.text[i]))
  }

  /** Nothing is stored that could stand in for a missing answer. */
  predicate NothingStored(b: Block, name: string) {
    match InputOf(b, name)
    case None => true
    case Some(Text(s)) => forall i | 0 <= i < |s| :: IsSpace(s[i])
    case Some(v) => v == Flag(false) || v == Items([]) || v == Number(0)
  }

  /** Why the answers to one block are refused. */
  predicate Refusable(b: Block, fields: map<string, Field>, a: Answers)
    requires b.Placed?
  {
    || a.NotMapping?
    || (exists n | n in a.values :: n !in b.ask)
    || (exists n | n in b.ask && n in fields ::
          if n in a.values then WrongAnswer(fields[n], a.values[n])
          else fields[n].kind in {"text", "secret", "password"} && NothingStored(b, n))
  }

  lemma WrongIsNotAcceptable(f: Field, v: Value)
    ensures Acceptable(f, v) <==> !WrongAnswer(f, v)
  {
    if v.Text? {
      assert forall i | 0 <= i < |v.text| :: v.text[i] in v.text;
      assert HasControl(v.text) <==> exists i | 0 <= i < |v.text| :: v.text[i] < ' ' || v.text[i] == '\U{7F}';
      assert NonBlankText(v.text) <==> exists i | 0 <= i < |v.text| :: !IsSpace(v.text[i]);
    }
  }

  lemma StoredIsBlank(b: Block, name: string)
    ensures (InputOf(b, name).Some? && NonBlank(InputOf(b, name).value)) <==> !NothingStored(b, name)
  {
    if InputOf(b, name).Some? && InputOf(b, name).value.Text? {
      var s := InputOf(b, name).value.text;
      assert NonBlankText(s) <==> exists i | 0 <= i < |s| :: !IsSpace(s[i]);
    }
  }

  /** The answers to a block are refused for one of these reasons, and for no other. */
  lemma RefusedIff(b: Block, fields: map<string, Field>, a: Answers)
    requires b.Placed?
    ensures !BlockOk(b, fields, a) <==> Refusable(b, fields, a)
  {
    if a.Given? {
      forall n | n in fields ensures
        NameOk(b, fields, a.values, n) <==>
          !(if n in a.values then WrongAnswer(fields[n], a.values[n])
            else fields[n].kind in {"text", "secret", "password"} && NothingStored(b, n))
      {
        StoredIsBlank(b, n);
        if n in a.values {
          WrongIsNotAcceptable(fields[n], a.values[n]);
        }
      }
    }
  }

  // ------------------------------------------------------------------ validation

  method ValidateBlock(b: Block, fields: map<string, Field>, a: Answers) returns (r: Result<map<string, Value>>)
    requires b.Placed?
    ensures r.Ok? <==> BlockOk(b, fields, a)
    ensures r.Ok? ==> r.value == Kept(b, fields, a)
  {
    if a.NotMapping? {
      return ValueError;
    }
    if exists n | n in a.values :: n !in b.ask {
      return ValueError;
    }
    var out: map<string, Value> := map[];
    var i := 0;
    while i < |b.ask|
      invariant i <= |b.ask|
      invariant forall n | n in b.ask[..i] :: NameOk(b, fields, a.values, n)
      invariant forall n :: n in out <==> n in a.values && n in fields && n in b.ask[..i]
      invariant forall n | n in out :: out[n] == a.values[n]
    {
      var name := b.ask[i];
      assert b.ask[..i + 1] == b.ask[..i] + [name];
      if name in fields {
        var field := fields[name];
        if name in a.values {
          if !Acceptable(field, a.values[name]) {
            assert !NameOk(b, fields, a.values, name);
            return ValueError;
          }
          out := out[name := a.values[name]];
        } else if IsTextual(field.kind) {
          var stored := InputOf(b, name);
          if stored.None? || !NonBlank(stored.value) {
            assert !NameOk(b, fields, a.values, name);
            return ValueError;
          }
        }
      }
      i := i + 1;
    }
    assert b.ask[..|b.ask|] == b.ask;
    assert out == Kept(b, fields, a);
    r := Ok(out);
  }

  /** Accepts exactly the valid answers, and keeps them under their positions. */
  method ValidateDeployInputs(r: Recipe, schemas: Schemas, supplied: map<Key, Answers>)
    returns (res: Result<map<Key, Answers>>)
    ensures !UniqueIds(r) ==> res == ValueError
    ensures UniqueIds(r) ==> exists a, t :: Aliasing(r, a) && Resolved(a, supplied, t)
                                            && (res.Ok? <==> t.Ok? && Valid(r, schemas, t.value))
                                            && (res.Ok? ==> Cleaned(r, schemas, t.value, res.value))
  {
    var positional := PositionalDeployInputs(r, supplied);
    if positional.ValueError? {
      return ValueError;
    }
    var t := positional.value;
    res := ValidatePositions(r, schemas, t);
  }

  ghost predicate Cleaned(r: Recipe, schemas: Schemas, t: map<Key, Answers>, out: map<Key, Answers>) {
    && (forall k :: k in out <==> KeptAt(r, schemas, t, k) != map[])
    && (forall k | k in out :: out[k] == Given(KeptAt(r, schemas, t, k)))
  }

  method ValidatePosition(r: Recipe, schemas: Schemas, t: map<Key, Answers>, k: Key)
    returns (res: Result<map<string, Value>>)
    requires AsksAt(r, k)
    ensures res.Ok? <==> PositionOk(r, schemas, t, k)
    ensures res.Ok? ==> res.value == KeptAt(r, schemas, t, k)
  {
    var b := r[k.section].blocks[k.block];
    var answers := if k in t then t[k] else Given(map[]);
    res := ValidateBlock(b, FieldsOf(b, schemas), answers);
  }

  method ValidateAll(r: Recipe, schemas: Schemas, t: map<Key, Answers>, keys: set<Key>)
    returns (res: Result<map<Key, Answers>>)
    requires forall k | k in keys :: AsksAt(r, k)
    ensures res.Ok? <==> forall k | k in keys :: PositionOk(r, schemas, t, k)
    ensures res.Ok? ==>
      && (forall k :: k in res.value <==> k in keys && KeptAt(r, schemas, t, k) != map[])
      && (forall k | k in res.value :: res.value[k] == Given(KeptAt(r, schemas, t, k)))
  {
    var out: map<Key, Answers> := map[];
    var left := keys;
    while left != {}
      invariant left <= keys
      invariant forall k | k in keys && k !in left :: PositionOk(r, schemas, t, k)
      invariant forall k :: k in out <==> k in keys && k !in left && KeptAt(r, schemas, t, k) != map[]
      invariant forall k | k in out :: out[k] == Given(KeptAt(r, schemas, t, k))
      decreases left
    {
      var k :| k in left;
      left := left - {k};
      var block := ValidatePosition(r, schemas, t, k);
      if block.ValueError? {
        return ValueError;
      }
      if block.value != map[] {
        out := out[k := Given(block.value)];
      }
    }
    res := Ok(out);
  }

  method ValidatePositions(r: Recipe, schemas: Schemas, t: map<Key, Answers>) returns (res: Result<map<Key, Answers>>)
    ensures res.Ok? <==> Valid(r, schemas, t)
    ensures res.Ok? ==> Cleaned(r, schemas, t, res.value)
  {
    var allowed := AskMap(r);
    AsksAreAsksAt(r);
    if exists k | k in t :: k !in allowed {
      return ValueError;
    }
    res := ValidateAll(r, schemas, t, allowed.Keys);
  }

  // ------------------------------------------------------------------ the plan's recipe

  /** Filling in ids touches nothing else of a block. */
  lemma WithIdsAt(r: Recipe, generated: (nat, nat) -> string, si: nat, bi: nat)
    ensures
      var b, b' := BlockAt(r, si, bi), BlockAt(WithIds(r, generated), si, bi);
      && (b.Placed? <==> b'.Placed?)
      && (b.Placed? ==> b'.ref == b.ref && b'.inputs == b.inputs && b'.ask == b.ask && b'.rest == b.rest)
      && (b.Placed? && b.pid.NoPid? ==> b'.pid == Pid(Name(generated(si, bi))))
      && (b.Placed? && !b.pid.NoPid? ==> b'.pid == b.pid)
  {
    var w := WithIds(r, generated);
    if si < |r| && r[si].Section? && bi < |r[si].blocks| {
      assert w[si].blocks[bi] == WithId(r[si].blocks[bi], generated(si, bi));
    }
  }

  /** The kept answers were resolved on the stored recipe, whose blocks need not have ids; on the
      recipe with ids filled in they resolve to themselves, and to nothing else. */
  lemma KeptKeysArePositions(
      r: Recipe, generated: (nat, nat) -> string, schemas: Schemas, t: map<Key, Answers>, out: map<Key, Answers>,
      a: map<Key, Key>, again: Result<map<Key, Answers>>)
    requires Identified(WithIds(r, generated)) && Aliasing(WithIds(r, generated), a) && Cleaned(r, schemas, t, out)
    ensures Resolved(a, out, again) <==> again == Ok(out)
  {
    PositionsAreNoIds(WithIds(r, generated), a);
    forall k | k in out ensures Resolve(a, k) == k {
      assert AsksAt(r, k);
    }
    UnaddressedResolve(a, out, again);
  }

  /** Where no key is an id, keys resolve to themselves. */
  lemma UnaddressedResolve(a: map<Key, Key>, out: map<Key, Answers>, again: Result<map<Key, Answers>>)
    requires forall k | k in out :: Resolve(a, k) == k
    ensures Resolved(a, out, again) <==> again == Ok(out)
  {
    assert Resolved(a, out, Ok(out));
    if Resolved(a, out, again) {
      OneMeaning(a, out, again, out);
    }
  }

  /** The recipe of the execution plan: ids filled in, the answers resolved again, and merged. */
  method PlanRecipe(r: Recipe, generated: (nat, nat) -> string, answers: map<Key, Answers>)
    returns (plan: Result<Recipe>)
    ensures !Identified(WithIds(r, generated)) ==> plan == ValueError
    ensures Identified(WithIds(r, generated)) ==>
      exists a, t :: Aliasing(WithIds(r, generated), a) && Resolved(a, answers, t)
                     && plan == MergedWith(WithIds(r, generated), t)
  {
    var identified := EnsurePlacementIds(r, generated);
    if identified.ValueError? {
      return ValueError;
    }
    var w := identified.value;
    var positional := PositionalDeployInputs(w, answers);
    ghost var a :| Aliasing(w, a) && Resolved(a, answers, positional);
    if positional.ValueError? {
      return ValueError;
    }
    var out := positional.value;
    plan := MergeDeployInputs(w, out);
    MergedAgain(w, a, answers, out, plan);
  }

  /** Merging resolves the resolved answers once more, which changes nothing. */
  lemma MergedAgain(
      w: Recipe, a: map<Key, Key>, answers: map<Key, Answers>, out: map<Key, Answers>, plan: Result<Recipe>)
    requires Identified(w) && Aliasing(w, a) && Resolved(a, answers, Ok(out))
    requires out == map[] ==> plan == Ok(w)
    requires out != map[] ==> exists a', t :: Aliasing(w, a') && Resolved(a', out, t) && plan == MergedWith(w, t)
    ensures plan == MergedWith(w, Ok(out))
  {
    if out == map[] {
      MergedNone(w);
    } else {
      var a', t :| Aliasing(w, a') && Resolved(a', out, t) && plan == MergedWith(w, t);
      OneAliasing(w, a, a');
      ResolvingTwiceIsOnce(w, a, answers, out);
    }
  }

  lemma OneAliasing(w: Recipe, a: map<Key, Key>, a': map<Key, Key>)
    requires Aliasing(w, a) && Aliasing(w, a')
    ensures a == a'
  {
    forall k ensures k in a <==> k in a' {
    }
  }

  /** What the answers of the user mean on the stored recipe. */
  ghost predicate Accepted(r: Recipe, schemas: Schemas, supplied: map<Key, Answers>, t: map<Key, Answers>) {
    && (exists a :: Aliasing(r, a) && Resolved(a, supplied, Ok(t)))
    && Valid(r, schemas, t)
  }

  /** From the answers of the user to the recipe of the plan: accepted answers are merged, as they
      were kept, into the recipe with its ids filled in. */
  method AdmitAnswers(r: Recipe, schemas: Schemas, supplied: map<Key, Answers>, generated: (nat, nat) -> string)
    returns (plan: Result<Recipe>)
    ensures plan.Ok? ==> exists t, out ::
      Accepted(r, schemas, supplied, t) && Cleaned(r, schemas, t, out)
      && plan.value == Merged(WithIds(r, generated), out)
    ensures plan.Ok? <==>
      UniqueIds(r) && Identified(WithIds(r, generated)) && exists t :: Accepted(r, schemas, supplied, t)
  {
    var kept := ValidateDeployInputs(r, schemas, supplied);
    if kept.ValueError? {
      if UniqueIds(r) {
        NothingAccepted(r, schemas, supplied);
      }
      return ValueError;
    }
    ghost var a, t :| Aliasing(r, a) && Resolved(a, supplied, t) && t.Ok? && Valid(r, schemas, t.value)
                      && Cleaned(r, schemas, t.value, kept.value);
    assert Accepted(r, schemas, supplied, t.value);
    plan := PlanRecipe(r, generated, kept.value);
    if Identified(WithIds(r, generated)) {
      ghost var b, again :| Aliasing(WithIds(r, generated), b) && Resolved(b, kept.value, again)
                            && plan == MergedWith(WithIds(r, generated), again);
      KeptKeysArePositions(r, generated, schemas, t.value, kept.value, b, again);
    }
  }

  /** Answers have one meaning on a recipe, so a refusal is final. */
  lemma NothingAccepted(r: Recipe, schemas: Schemas, supplied: map<Key, Answers>)
    requires exists a, t :: Aliasing(r, a) && Resolved(a, supplied, t) && !(t.Ok? && Valid(r, schemas, t.value))
    ensures forall t' :: !Accepted(r, schemas, supplied, t')
  {
    var a, t :| Aliasing(r, a) && Resolved(a, supplied, t) && !(t.Ok? && Valid(r, schemas, t.value));
    forall t' ensures !Accepted(r, schemas, supplied, t') {
      if Accepted(r, schemas, supplied, t') {
        var a' :| Aliasing(r, a') && Resolved(a', supplied, Ok(t'));
        OneAliasing(r, a, a');
        OneMeaning(a, supplied, t, t');
      }
    }
  }

  lemma OneMeaning(a: map<Key, Key>, supplied: map<Key, Answers>, t: Result<map<Key, Answers>>, t': map<Key, Answers>)
    requires Resolved(a, supplied, t) && Resolved(a, supplied, Ok(t'))
    ensures t == Ok(t')
  {
    if t.Ok? {
      assert t.value == t';
    }
  }

  // ------------------------------------------------------------------ what the plan holds

  /** The same sections, with as many blocks, and everything but their placed blocks as it was. */
  predicate SameFrame(r: Recipe, r': Recipe) {
    && |r'| == |r|
    && forall si | 0 <= si < |r| ::
         && (r[si].Opaque? ==> r'[si] == r[si])
         && (r[si].Section? ==> r'[si].Section? && r'[si].rest == r[si].rest && |r'[si].blocks| == |r[si].blocks|)
         && (r[si].Section? ==> forall bi | 0 <= bi < |r[si].blocks| ::
               !r[si].blocks[bi].Placed? ==> r'[si].blocks[bi] == r[si].blocks[bi])
  }

  /** Neither filling in ids nor merging adds, drops or moves anything. */
  lemma FrameIsKept(r: Recipe, generated: (nat, nat) -> string, t: map<Key, Answers>)
    ensures SameFrame(r, WithIds(r, generated)) && SameFrame(r, Merged(WithIds(r, generated), t))
  {
    var w := WithIds(r, generated);
    assert SameFrame(r, w) by {
      forall si, bi | 0 <= si < |r| && r[si].Section? && 0 <= bi < |r[si].blocks|
        ensures w[si].blocks[bi] == WithId(r[si].blocks[bi], generated(si, bi))
      {
      }
    }
    assert SameFrame(w, Merged(w, t)) by {
      forall si, bi | 0 <= si < |w| && w[si].Section? && 0 <= bi < |w[si].blocks|
        ensures Merged(w, t)[si].blocks[bi] == Overlaid(w[si].blocks[bi], t, At(si, bi))
      {
      }
    }
  }

  /** An input of the plan: the kept answer, or what the template stored. */
  lemma PlanInput(
      r: Recipe, generated: (nat, nat) -> string, schemas: Schemas, t: map<Key, Answers>, out: map<Key, Answers>,
      si: nat, bi: nat, name: string)
    requires Cleaned(r, schemas, t, out) && IsPlaced(r, si, bi)
    ensures
      var kept := KeptAt(r, schemas, t, At(si, bi));
      InputOf(BlockAt(Merged(WithIds(r, generated), out), si, bi), name)
        == if name in kept then Some(kept[name]) else InputOf(BlockAt(r, si, bi), name)
  {
    var w, kept := WithIds(r, generated), KeptAt(r, schemas, t, At(si, bi));
    WithIdsAt(r, generated, si, bi);
    OnlyAskedInputsChange(w, out, si, bi, name);
    if name in kept {
      assert kept != map[];
    }
  }

  /** Which answers are kept for a block whose answers were accepted. */
  lemma KeptOfValid(r: Recipe, schemas: Schemas, t: map<Key, Answers>, si: nat, bi: nat, name: string)
    requires Valid(r, schemas, t) && IsPlaced(r, si, bi) && BlockAt(r, si, bi).ask != []
    ensures
      var k, b := At(si, bi), BlockAt(r, si, bi);
      var kept, answers := KeptAt(r, schemas, t, k), AnswersAt(t, k);
      && answers.Given? && (name in answers.values ==> name in b.ask)
      && (name in kept <==> name in answers.values && name in FieldsOf(b, schemas))
      && (name in kept ==> kept[name] == answers.values[name])
      && (name in b.ask ==> NameOk(b, FieldsOf(b, schemas), answers.values, name))
  {
    assert AsksAt(r, At(si, bi)) && PositionOk(r, schemas, t, At(si, bi));
  }

  /** Accepted answers give a plan in which every asked text, secret and password field of the
      schema is filled in. */
  lemma AskedFieldsAreFilled(
      r: Recipe, generated: (nat, nat) -> string, schemas: Schemas, t: map<Key, Answers>, out: map<Key, Answers>,
      si: nat, bi: nat, name: string)
    requires Valid(r, schemas, t) && Cleaned(r, schemas, t, out) && IsPlaced(r, si, bi)
    requires
      var b := BlockAt(r, si, bi);
      name in b.ask && name in FieldsOf(b, schemas) && IsTextual(FieldsOf(b, schemas)[name].kind)
    ensures
      var v := InputOf(BlockAt(Merged(WithIds(r, generated), out), si, bi), name);
      v.Some? && NonBlank(v.value)
  {
    KeptOfValid(r, schemas, t, si, bi, name);
    PlanInput(r, generated, schemas, t, out, si, bi, name);
  }

  /** And every input that was not asked for is what the template stored. */
  lemma UnaskedInputsAreKept(
      r: Recipe, generated: (nat, nat) -> string, schemas: Schemas, t: map<Key, Answers>, out: map<Key, Answers>,
      si: nat, bi: nat, name: string)
    requires Cleaned(r, schemas, t, out) && IsPlaced(r, si, bi) && name !in BlockAt(r, si, bi).ask
    ensures InputOf(BlockAt(Merged(WithIds(r, generated), out), si, bi), name) == InputOf(BlockAt(r, si, bi), name)
  {
    PlanInput(r, generated, schemas, t, out, si, bi, name);
  }

  /** An accepted answer to a field of the schema arrives in the plan as it was given. */
  lemma AnswersArrive(
      r: Recipe, generated: (nat, nat) -> string, schemas: Schemas, t: map<Key, Answers>, out: map<Key, Answers>,
      si: nat, bi: nat, name: string)
    requires Valid(r, schemas, t) && Cleaned(r, schemas, t, out) && IsPlaced(r, si, bi)
    requires At(si, bi) in t && t[At(si, bi)].Given? && name in t[At(si, bi)].values
    requires name in FieldsOf(BlockAt(r, si, bi), schemas)
    ensures
      InputOf(BlockAt(Merged(WithIds(r, generated), out), si, bi), name) == Some(t[At(si, bi)].values[name])
  {
    assert AsksAt(r, At(si, bi));
    KeptOfValid(r, schemas, t, si, bi, name);
    PlanInput(r, generated, schemas, t, out, si, bi, name);
  }
}
