/** Stable placement addresses: answers name a placed block by id or position, and are laid over the recipe. */
module Placement {
  import opened Rows

  /** An address text: the canonical spelling of a position, or any other text. */
  datatype Key = At(section: nat, block: nat) | Name(text: string)

  datatype Pid = NoPid | NotText | Pid(key: Key)

  /** An input value: a text, a flag, a list of texts, or another JSON value. */
  datatype Value = Text(text: string) | Flag(on: bool) | Items(items: seq<string>) | Number(value: int)

  /** A placed block names its definition; `inputs` is absent when the stored value is no mapping;
      `rest` stands for the other fields. */
  datatype Block =
    | Junk
    | Placed(pid: Pid, ref: string, inputs: Option<map<string, Value>>, ask: seq<string>, rest: nat)

  /** A section that is no mapping, or whose block list is no list, holds no placed block. */
  datatype Section = Opaque(content: nat) | Section(rest: nat, blocks: seq<Block>)

  type Recipe = seq<Section>

  datatype Answers = NotMapping | Given(values: map<string, Value>)

  datatype Result<+T> = Ok(value: T) | ValueError

  // ------------------------------------------------------------------ positions

  predicate IsPlaced(r: Recipe, si: nat, bi: nat) {
    si < |r| && r[si].Section? && bi < |r[si].blocks| && r[si].blocks[bi].Placed?
  }

  function BlockAt(r: Recipe, si: nat, bi: nat): Block {
    if IsPlaced(r, si, bi) then r[si].blocks[bi] else Junk
  }

  /** The block at this position carries the id `k`; an empty id is no id. */
  predicate HasId(r: Recipe, si: nat, bi: nat, k: Key) {
    IsPlaced(r, si, bi) && BlockAt(r, si, bi).pid == Pid(k) && k != Name("")
  }

  predicate IsLetter(c: char) {
    ('a' <= c <= 'z') || ('A' <= c <= 'Z')
  }

  predicate ValidId(k: Key) {
    && k.Name? && 0 < |k.text| <= 80 && IsLetter(k.text[0])
    && forall c | c in k.text :: IsLetter(c) || ('0' <= c <= '9') || c == '_' || c == '-'
  }

  ghost predicate UniqueIds(r: Recipe) {
    forall si, bi, sj, bj, k | HasId(r, si, bi, k) && HasId(r, sj, bj, k) :: si == sj && bi == bj
  }

  /** What `ensure_placement_ids` accepts: every placed block has a valid id of its own. */
  ghost predicate Identified(r: Recipe) {
    && UniqueIds(r)
    && forall si, bi | IsPlaced(r, si, bi) :: BlockAt(r, si, bi).pid.Pid? && ValidId(BlockAt(r, si, bi).pid.key)
  }

  // ------------------------------------------------------------------ assigning ids

  /** The recipe with an id for every placed block that has none. */
  function WithIds(r: Recipe, generated: (nat, nat) -> string): Recipe {
    seq(|r|, si requires 0 <= si < |r| => SectionWithIds(r[si], si, generated))
  }

  function SectionWithIds(s: Section, si: nat, generated: (nat, nat) -> string): Section {
    if s.Opaque? then s
    else s.(blocks := seq(|s.blocks|, bi requires 0 <= bi < |s.blocks| => WithId(s.blocks[bi], generated(si, bi))))
  }

  function WithId(b: Block, generated: string): Block {
    if b.Placed? && b.pid.NoPid? then b.(pid := Pid(Name(generated))) else b
  }

  /** The blocks before position (`n`, `m`), in reading order. */
  predicate Before(si: nat, bi: nat, n: nat, m: nat) {
    si < n || (si == n && bi < m)
  }

  ghost predicate IdentifiedUpTo(r: Recipe, n: nat, m: nat, seen: set<Key>) {
    && (forall si, bi | IsPlaced(r, si, bi) && Before(si, bi, n, m) ::
          BlockAt(r, si, bi).pid.Pid? && ValidId(BlockAt(r, si, bi).pid.key) && BlockAt(r, si, bi).pid.key in seen)
    && (forall si, bi, sj, bj, k | HasId(r, si, bi, k) && HasId(r, sj, bj, k)
                                   && Before(si, bi, n, m) && Before(sj, bj, n, m) ::
          si == sj && bi == bj)
    && (forall k | k in seen :: exists si, bi :: HasId(r, si, bi, k) && Before(si, bi, n, m))
  }

  /** Up to position (`n`, `m`) the blocks are taken from `w`, from there on from `r`. */
  ghost predicate Halfway(r: Recipe, w: Recipe, out: Recipe, n: nat, m: nat) {
    && |out| == |w| == |r|
    && forall si | 0 <= si < |r| ::
         if r[si].Opaque? then out[si] == w[si] == r[si]
         else
           && w[si].Section? && w[si].rest == r[si].rest && |w[si].blocks| == |r[si].blocks|
           && out[si].Section? && out[si].rest == r[si].rest && |out[si].blocks| == |r[si].blocks|
           && forall bi | 0 <= bi < |r[si].blocks| ::
                out[si].blocks[bi] == if Before(si, bi, n, m) then w[si].blocks[bi] else r[si].blocks[bi]
  }

  predicate Unseen(p: Pid, seen: set<Key>) {
    p.Pid? && ValidId(p.key) && p.key !in seen
  }

  /** The placements of one section, in order. */
  method EnsureSection(
      recipe: Recipe, ghost w: Recipe, r: Recipe, si: nat, used: set<Key>, generated: (nat, nat) -> string)
    returns (ok: bool, out: Recipe, seen: set<Key>)
    requires w == WithIds(recipe, generated) && si < |recipe| && recipe[si].Section?
    requires Halfway(recipe, w, r, si, 0) && IdentifiedUpTo(w, si, 0, used)
    ensures ok ==> Halfway(recipe, w, out, si, |recipe[si].blocks|) && IdentifiedUpTo(w, si, |recipe[si].blocks|, seen)
    ensures !ok ==> !Identified(w)
  {
    out, seen, ok := r, used, true;
    var bi := 0;
    while bi < |recipe[si].blocks|
      invariant bi <= |recipe[si].blocks| && Halfway(recipe, w, out, si, bi)
      invariant IdentifiedUpTo(w, si, bi, seen)
    {
      var b := out[si].blocks[bi];
      Onward(recipe, w, out, si, bi);
      assert w[si].blocks[bi] == WithId(b, generated(si, bi));
      if b.Placed? && b.pid.NoPid? {
        b := b.(pid := Pid(Name(generated(si, bi))));
        out := out[si := out[si].(blocks := out[si].blocks[bi := b])];
      }
      if b.Placed? {
        if !Unseen(b.pid, seen) {
          SeenAgain(w, si, bi, seen);
          return false, out, seen;
        }
        Advance(w, si, bi, seen);
        seen := seen + {b.pid.key};
      } else {
        SkipJunk(w, si, bi, seen);
      }
      bi := bi + 1;
    }
  }

  /** Missing ids are filled in; then every id must be valid and used once. */
  method EnsurePlacementIds(recipe: Recipe, generated: (nat, nat) -> string) returns (r: Result<Recipe>)
    ensures r.Ok? <==> Identified(WithIds(recipe, generated))
    ensures r.Ok? ==> r.value == WithIds(recipe, generated)
  {
    ghost var w := WithIds(recipe, generated);
    var out := recipe;
    Departed(recipe, generated);
    var seen: set<Key> := {};
    assert IdentifiedUpTo(w, 0, 0, seen);
    var si := 0;
    while si < |recipe|
      invariant si <= |recipe| && Halfway(recipe, w, out, si, 0)
      invariant IdentifiedUpTo(w, si, 0, seen)
    {
      if recipe[si].Section? {
        var ok;
        ok, out, seen := EnsureSection(recipe, w, out, si, seen, generated);
        if !ok {
          return ValueError;
        }
      }
      NextSection(w, si, seen);
      OverSection(recipe, w, out, si);
      si := si + 1;
    }
    Arrived(recipe, w, out);
    AllIdentified(w, seen);
    r := Ok(out);
  }

  lemma AllIdentified(w: Recipe, seen: set<Key>)
    requires IdentifiedUpTo(w, |w|, 0, seen)
    ensures Identified(w)
  {
    assert forall si, bi | IsPlaced(w, si, bi) :: Before(si, bi, |w|, 0);
  }

  lemma Departed(r: Recipe, generated: (nat, nat) -> string)
    ensures Halfway(r, WithIds(r, generated), r, 0, 0)
  {
  }

  lemma Onward(r: Recipe, w: Recipe, out: Recipe, si: nat, bi: nat)
    requires Halfway(r, w, out, si, bi) && si < |r| && r[si].Section? && bi < |r[si].blocks|
    ensures out[si].blocks[bi] == r[si].blocks[bi]
    ensures Halfway(r, w, out[si := out[si].(blocks := out[si].blocks[bi := w[si].blocks[bi]])], si, bi + 1)
    ensures w[si].blocks[bi] == r[si].blocks[bi] ==> Halfway(r, w, out, si, bi + 1)
  {
  }

  lemma OverSection(r: Recipe, w: Recipe, out: Recipe, si: nat)
    requires si < |r| && Halfway(r, w, out, si, if r[si].Section? then |r[si].blocks| else 0)
    ensures Halfway(r, w, out, si + 1, 0)
  {
  }

  lemma Arrived(r: Recipe, w: Recipe, out: Recipe)
    requires Halfway(r, w, out, |r|, 0)
    ensures out == w
  {
    forall si | 0 <= si < |r| ensures out[si] == w[si] {
      if r[si].Section? {
        assert out[si].blocks == w[si].blocks;
      }
    }
  }

  /** Ids that are there are kept, so an accepted recipe is returned as it is. */
  lemma IdentifiedIsKept(r: Recipe, generated: (nat, nat) -> string)
    requires Identified(r)
    ensures WithIds(r, generated) == r
  {
    var w := WithIds(r, generated);
    forall si | 0 <= si < |r| ensures w[si] == r[si] {
      if r[si].Section? {
        forall bi | 0 <= bi < |r[si].blocks| ensures w[si].blocks[bi] == r[si].blocks[bi] {
          assert w[si].blocks[bi] == WithId(r[si].blocks[bi], generated(si, bi));
          assert IsPlaced(r, si, bi) ==> BlockAt(r, si, bi).pid.Pid? && BlockAt(r, si, bi) == r[si].blocks[bi];
        }
        assert w[si].blocks == r[si].blocks;
      }
    }
  }

  lemma SkipJunk(r: Recipe, si: nat, bi: nat, seen: set<Key>)
    requires IdentifiedUpTo(r, si, bi, seen) && !IsPlaced(r, si, bi)
    ensures IdentifiedUpTo(r, si, bi + 1, seen)
  {
    forall k | k in seen ensures exists sj, bj :: HasId(r, sj, bj, k) && Before(sj, bj, si, bi + 1) {
      var sj, bj :| HasId(r, sj, bj, k) && Before(sj, bj, si, bi);
      assert Before(sj, bj, si, bi + 1);
    }
  }

  lemma NextSection(r: Recipe, si: nat, seen: set<Key>)
    requires si < |r| && IdentifiedUpTo(r, si, if r[si].Section? then |r[si].blocks| else 0, seen)
    ensures IdentifiedUpTo(r, si + 1, 0, seen)
  {
    var m := if r[si].Section? then |r[si].blocks| else 0;
    forall k | k in seen ensures exists sj, bj :: HasId(r, sj, bj, k) && Before(sj, bj, si + 1, 0) {
      var sj, bj :| HasId(r, sj, bj, k) && Before(sj, bj, si, m);
      assert Before(sj, bj, si + 1, 0);
    }
    forall sj, bj | IsPlaced(r, sj, bj) && Before(sj, bj, si + 1, 0) ensures Before(sj, bj, si, m) {
    }
  }

  /** A refused id is one that an accepted recipe cannot have. */
  lemma SeenAgain(r: Recipe, si: nat, bi: nat, seen: set<Key>)
    requires IsPlaced(r, si, bi) && IdentifiedUpTo(r, si, bi, seen)
    requires !Unseen(BlockAt(r, si, bi).pid, seen)
    ensures !Identified(r)
  {
    var pid := BlockAt(r, si, bi).pid;
    if pid.Pid? && ValidId(pid.key) && pid.key in seen {
      var sj, bj :| HasId(r, sj, bj, pid.key) && Before(sj, bj, si, bi);
      assert HasId(r, si, bi, pid.key);
    }
  }

  lemma Advance(r: Recipe, si: nat, bi: nat, seen: set<Key>)
    requires IsPlaced(r, si, bi) && IdentifiedUpTo(r, si, bi, seen)
    requires Unseen(BlockAt(r, si, bi).pid, seen)
    ensures IdentifiedUpTo(r, si, bi + 1, seen + {BlockAt(r, si, bi).pid.key})
  {
    var k0 := BlockAt(r, si, bi).pid.key;
    assert HasId(r, si, bi, k0);
    forall sj, bj | Before(sj, bj, si, bi + 1) ensures Before(sj, bj, si, bi) || (sj == si && bj == bi) {
    }
    forall k | k in seen + {k0} ensures exists sj, bj :: HasId(r, sj, bj, k) && Before(sj, bj, si, bi + 1) {
      if k in seen {
        var sj, bj :| HasId(r, sj, bj, k) && Before(sj, bj, si, bi);
        assert Before(sj, bj, si, bi + 1);
      } else {
        assert Before(si, bi, si, bi + 1);
      }
    }
  }

  // ------------------------------------------------------------------ resolving ids to positions

  /** `a` maps exactly the ids in use to their positions. */
  ghost predicate Aliasing(r: Recipe, a: map<Key, Key>) {
    && (forall si, bi, k | HasId(r, si, bi, k) :: k in a && a[k] == At(si, bi))
    && (forall k | k in a :: a[k].At? && HasId(r, a[k].section, a[k].block, k))
  }

  ghost predicate AliasingUpTo(r: Recipe, n: nat, m: nat, a: map<Key, Key>) {
    && (forall si, bi, k | HasId(r, si, bi, k) && Before(si, bi, n, m) :: k in a && a[k] == At(si, bi))
    && (forall k | k in a ::
      a[k].At? && HasId(r, a[k].section, a[k].block, k) && Before(a[k].section, a[k].block, n, m))
  }

  method CollectAliases(r: Recipe) returns (a: Result<map<Key, Key>>)
    ensures a.Ok? <==> UniqueIds(r)
    ensures a.Ok? ==> Aliasing(r, a.value)
  {
    var aliases: map<Key, Key> := map[];
    var si := 0;
    while si < |r|
      invariant si <= |r| && AliasingUpTo(r, si, 0, aliases)
    {
      if r[si].Section? {
        var bi := 0;
        while bi < |r[si].blocks|
          invariant bi <= |r[si].blocks| && AliasingUpTo(r, si, bi, aliases)
        {
          var b := r[si].blocks[bi];
          if b.Placed? && b.pid.Pid? && b.pid.key != Name("") {
            assert HasId(r, si, bi, b.pid.key);
            if b.pid.key in aliases {
              assert HasId(r, aliases[b.pid.key].section, aliases[b.pid.key].block, b.pid.key);
              return ValueError;
            }
            aliases := aliases[b.pid.key := At(si, bi)];
          }
          bi := bi + 1;
        }
      }
      si := si + 1;
    }
    assert Aliasing(r, aliases);
    a := Ok(aliases);
  }

  function Resolve(a: map<Key, Key>, k: Key): Key {
    if k in a then a[k] else k
  }

  /** The answers under their positions; refused when two of them address one block. */
  ghost predicate Resolved(a: map<Key, Key>, supplied: map<Key, Answers>, r: Result<map<Key, Answers>>) {
    match r
    case ValueError => exists k, l | k in supplied && l in supplied :: k != l && Resolve(a, k) == Resolve(a, l)
    case Ok(out) =>
      && (forall k | k in supplied :: Resolve(a, k) in out && out[Resolve(a, k)] == supplied[k])
      && (forall p | p in out :: exists k | k in supplied :: Resolve(a, k) == p)
      && (forall k, l | k in supplied && l in supplied && Resolve(a, k) == Resolve(a, l) :: k == l)
  }

  method PositionalDeployInputs(r: Recipe, supplied: map<Key, Answers>) returns (res: Result<map<Key, Answers>>)
    ensures !UniqueIds(r) ==> res == ValueError
    ensures UniqueIds(r) ==> exists a :: Aliasing(r, a) && Resolved(a, supplied, res)
  {
    var aliases := CollectAliases(r);
    if aliases.ValueError? {
      return ValueError;
    }
    var a := aliases.value;
    var out: map<Key, Answers> := map[];
    var left := supplied.Keys;
    while left != {}
      invariant left <= supplied.Keys
      invariant forall k | k in supplied && k !in left :: Resolve(a, k) in out && out[Resolve(a, k)] == supplied[k]
      invariant forall p | p in out :: exists k | k in supplied && k !in left :: Resolve(a, k) == p
      invariant forall k, l | k in supplied && l in supplied && k !in left && l !in left
        && Resolve(a, k) == Resolve(a, l) :: k == l
      decreases left
    {
      var k :| k in left;
      var p := Resolve(a, k);
      if p in out {
        return ValueError;
      }
      ghost var before := out;
      out := out[p := supplied[k]];
      left := left - {k};
      forall q | q in out ensures exists l | l in supplied && l !in left :: Resolve(a, l) == q {
        if q != p {
          assert q in before;
        }
      }
    }
    res := Ok(out);
    assert Resolved(a, supplied, res);
  }

  // ------------------------------------------------------------------ laying answers over the recipe

  function Overlay(b: Block, values: map<string, Value>): Block
    requires b.Placed?
  {
    var base := if b.inputs.Some? then b.inputs.value else map[];
    b.(inputs := Some(base + map n | n in values && n in b.ask :: values[n]))
  }

  function Overlaid(b: Block, t: map<Key, Answers>, k: Key): Block {
    if b.Placed? && b.ask != [] && k in t && t[k].Given? then Overlay(b, t[k].values) else b
  }

  function MergedSection(s: Section, t: map<Key, Answers>, si: nat): Section {
    if s.Opaque? then s
    else s.(blocks := seq(|s.blocks|, bi requires 0 <= bi < |s.blocks| => Overlaid(s.blocks[bi], t, At(si, bi))))
  }

  /** The recipe with answers that are already under their positions. */
  function Merged(r: Recipe, t: map<Key, Answers>): Recipe {
    seq(|r|, si requires 0 <= si < |r| => MergedSection(r[si], t, si))
  }

  function MergedWith(r: Recipe, t: Result<map<Key, Answers>>): Result<Recipe> {
    if t.Ok? then Ok(Merged(r, t.value)) else ValueError
  }

  predicate AsksAt(r: Recipe, k: Key) {
    k.At? && IsPlaced(r, k.section, k.block) && r[k.section].blocks[k.block].ask != []
  }

  /** Ask-on-deploy lists, by position. */
  function Asks(r: Recipe): map<Key, seq<string>> {
    map si, bi | 0 <= si < |r| && 0 <= bi < (if r[si].Section? then |r[si].blocks| else 0)
                 && IsPlaced(r, si, bi) && r[si].blocks[bi].ask != []
      :: At(si, bi) := r[si].blocks[bi].ask
  }

  method AskMap(r: Recipe) returns (out: map<Key, seq<string>>)
    ensures out == Asks(r)
  {
    out := map[];
    var si := 0;
    while si < |r|
      invariant si <= |r|
      invariant forall k :: k in out <==> AsksAt(r, k) && Before(k.section, k.block, si, 0)
      invariant forall k | k in out :: out[k] == r[k.section].blocks[k.block].ask
    {
      if r[si].Section? {
        var bi := 0;
        while bi < |r[si].blocks|
          invariant bi <= |r[si].blocks|
          invariant forall k :: k in out <==> AsksAt(r, k) && Before(k.section, k.block, si, bi)
          invariant forall k | k in out :: out[k] == r[k.section].blocks[k.block].ask
        {
          var b := r[si].blocks[bi];
          if b.Placed? && b.ask != [] {
            out := out[At(si, bi) := b.ask];
          }
          bi := bi + 1;
        }
      }
      si := si + 1;
    }
    AsksAreAsksAt(r);
    assert forall k :: k in out <==> k in Asks(r);
  }

  lemma AsksAreAsksAt(r: Recipe)
    ensures forall k :: k in Asks(r) <==> AsksAt(r, k)
  {
    forall k ensures k in Asks(r) <==> AsksAt(r, k) {
      if AsksAt(r, k) {
        assert k == At(k.section, k.block);
      }
    }
  }

  method FillInputs(b: Block, names: seq<string>, values: map<string, Value>) returns (b': Block)
    requires b.Placed? && names == b.ask
    ensures b' == Overlay(b, values)
  {
    var base: map<string, Value> := if b.inputs.Some? then b.inputs.value else map[];
    var inputs, left := base, values.Keys;
    while left != {}
      invariant left <= values.Keys
      invariant forall n :: n in inputs <==> n in base || (n in values && n !in left && n in names)
      invariant forall n | n in inputs ::
        inputs[n] == if n in values && n !in left && n in names then values[n] else base[n]
      decreases left
    {
      var n :| n in left;
      left := left - {n};
      if n in names {
        inputs := inputs[n := values[n]];
      }
    }
    b' := b.(inputs := Some(inputs));
    assert inputs == Overlay(b, values).inputs.value;
  }

  method MergeDeployInputs(r: Recipe, supplied: map<Key, Answers>) returns (res: Result<Recipe>)
    ensures supplied == map[] ==> res == Ok(r)
    ensures supplied != map[] && !UniqueIds(r) ==> res == ValueError
    ensures supplied != map[] && UniqueIds(r) ==>
      exists a, t :: Aliasing(r, a) && Resolved(a, supplied, t) && res == MergedWith(r, t)
  {
    if supplied == map[] {
      return Ok(r);
    }
    var positional := PositionalDeployInputs(r, supplied);
    if positional.ValueError? {
      return ValueError;
    }
    var out := ApplyAnswers(r, positional.value);
    res := Ok(out);
  }

  /** Answers for unknown positions, for blocks that ask nothing, or of another shape are ignored. */
  method ApplyAnswers(r: Recipe, t: map<Key, Answers>) returns (out: Recipe)
    ensures out == Merged(r, t)
  {
    var allowed := AskMap(r);
    out := r;
    var left := t.Keys;
    ghost var done: map<Key, Answers> := map[];
    MergedNone(r);
    while left != {}
      invariant left <= t.Keys && done.Keys == t.Keys - left && (forall k | k in done :: done[k] == t[k])
      invariant out == Merged(r, done)
      decreases left
    {
      var k :| k in left;
      left := left - {k};
      ghost var was := done;
      done := done[k := t[k]];
      if k in allowed && t[k].Given? {
        assert out[k.section].blocks[k.block] == r[k.section].blocks[k.block];
        var b := FillInputs(out[k.section].blocks[k.block], allowed[k], t[k].values);
        out := out[k.section := out[k.section].(blocks := out[k.section].blocks[k.block := b])];
        MergedOne(r, was, k, t[k], out);
      } else {
        MergedSame(r, was, k, t[k]);
      }
    }
    assert done == t;
  }

  lemma MergedNone(r: Recipe)
    ensures Merged(r, map[]) == r
  {
    forall si | 0 <= si < |r| ensures MergedSection(r[si], map[], si) == r[si] {
      if r[si].Section? {
        assert MergedSection(r[si], map[], si).blocks == r[si].blocks;
      }
    }
  }

  lemma MergedSame(r: Recipe, t: map<Key, Answers>, k: Key, a: Answers)
    requires k !in t && !(k in Asks(r) && a.Given?)
    ensures Merged(r, t[k := a]) == Merged(r, t)
  {
    forall si | 0 <= si < |r| ensures MergedSection(r[si], t[k := a], si) == MergedSection(r[si], t, si) {
      if r[si].Section? {
        forall bi | 0 <= bi < |r[si].blocks|
          ensures Overlaid(r[si].blocks[bi], t[k := a], At(si, bi)) == Overlaid(r[si].blocks[bi], t, At(si, bi))
        {
          assert IsPlaced(r, si, bi) && r[si].blocks[bi].ask != [] ==> At(si, bi) in Asks(r);
        }
      }
    }
  }

  lemma MergedOne(r: Recipe, t: map<Key, Answers>, k: Key, a: Answers, out: Recipe)
    requires k in Asks(r) && k !in t && a.Given?
    requires
      var was := Merged(r, t);
      out == was[k.section := was[k.section].(blocks :=
        was[k.section].blocks[k.block := Overlay(r[k.section].blocks[k.block], a.values)])]
    ensures out == Merged(r, t[k := a])
  {
    var now := Merged(r, t[k := a]);
    forall si | 0 <= si < |r| ensures out[si] == now[si] {
      if r[si].Section? {
        forall bi | 0 <= bi < |r[si].blocks| ensures out[si].blocks[bi] == now[si].blocks[bi] {
        }
        assert out[si].blocks == now[si].blocks;
      }
    }
  }

  // ------------------------------------------------------------------ theorems

  /** A valid id starts with a letter, so a position is never taken for an id. */
  lemma PositionsAreNoIds(r: Recipe, a: map<Key, Key>)
    requires Identified(r) && Aliasing(r, a)
    ensures forall k | k in a :: k.Name? && a[k].At?
  {
    forall k | k in a ensures k.Name? {
      assert HasId(r, a[k].section, a[k].block, k);
    }
  }

  /** The answers of an accepted recipe resolve to themselves the second time. */
  lemma ResolvingTwiceIsOnce(r: Recipe, a: map<Key, Key>, supplied: map<Key, Answers>, out: map<Key, Answers>)
    requires Identified(r) && Aliasing(r, a) && Resolved(a, supplied, Ok(out))
    ensures Resolved(a, out, Ok(out))
    ensures forall again :: Resolved(a, out, again) ==> again == Ok(out)
  {
    forall p | p in out ensures Resolve(a, p) == p {
      var k :| k in supplied && Resolve(a, k) == p;
      PositionsAreNoIds(r, a);
    }
    forall again | Resolved(a, out, again) ensures again == Ok(out) {
      if again.Ok? {
        assert again.value == out;
      }
    }
  }

  /** Which answers reach a block: the ones under its id, and the ones under its position. */
  lemma ReachesById(r: Recipe, a: map<Key, Key>, supplied: map<Key, Answers>, out: map<Key, Answers>, si: nat, bi: nat)
    requires Identified(r) && Aliasing(r, a) && Resolved(a, supplied, Ok(out)) && IsPlaced(r, si, bi)
    requires forall k | k in supplied :: k.Name?
    ensures
      var id := BlockAt(r, si, bi).pid.key;
      && (At(si, bi) in out <==> id in supplied)
      && (id in supplied ==> out[At(si, bi)] == supplied[id])
  {
    var id := BlockAt(r, si, bi).pid.key;
    assert HasId(r, si, bi, id);
    if At(si, bi) in out {
      var k :| k in supplied && Resolve(a, k) == At(si, bi);
      assert k in a && HasId(r, si, bi, k);
    }
  }

  /** Answers given by id fill a block according to the block alone, wherever it stands. */
  function FilledById(b: Block, supplied: map<Key, Answers>): Block {
    if b.Placed? && b.pid.Pid? then Overlaid(b, supplied, b.pid.key) else b
  }

  lemma MergeById(r: Recipe, a: map<Key, Key>, supplied: map<Key, Answers>, out: map<Key, Answers>, si: nat, bi: nat)
    requires Identified(r) && Aliasing(r, a) && Resolved(a, supplied, Ok(out))
    requires forall k | k in supplied :: k.Name?
    ensures BlockAt(Merged(r, out), si, bi) == FilledById(BlockAt(r, si, bi), supplied)
  {
    if IsPlaced(r, si, bi) {
      ReachesById(r, a, supplied, out, si, bi);
    }
  }

  /** Each block has one id, so two ids never mean one block. */
  lemma OneIdEach(r: Recipe, a: map<Key, Key>, k: Key, l: Key)
    requires Aliasing(r, a) && k.Name? && l.Name? && Resolve(a, k) == Resolve(a, l)
    ensures k == l
  {
    if k in a && l in a {
      assert HasId(r, a[k].section, a[k].block, k) && HasId(r, a[k].section, a[k].block, l);
    }
  }

  /** Answers given by id always resolve. */
  lemma ByIdResolves(r: Recipe, a: map<Key, Key>, supplied: map<Key, Answers>, t: Result<map<Key, Answers>>)
    requires Aliasing(r, a) && Resolved(a, supplied, t)
    requires forall k | k in supplied :: k.Name?
    ensures t.Ok?
  {
    if t.ValueError? {
      var k, l :| k in supplied && l in supplied && k != l && Resolve(a, k) == Resolve(a, l);
      OneIdEach(r, a, k, l);
    }
  }

  /** Answers given by id resolve in every recipe, and commute with every reordering of sections and
      blocks: `where` tells for each position of the reordered recipe where its block stood before. */
  lemma MergeCommutesWithReordering(
      r: Recipe, r': Recipe, where: (nat, nat) -> (nat, nat), supplied: map<Key, Answers>, a: map<Key, Key>,
      a': map<Key, Key>, t: Result<map<Key, Answers>>, t': Result<map<Key, Answers>>, si: nat, bi: nat)
    requires Identified(r) && Identified(r')
    requires forall i, k :: BlockAt(r', i, k) == BlockAt(r, where(i, k).0, where(i, k).1)
    requires Aliasing(r, a) && Aliasing(r', a') && Resolved(a, supplied, t) && Resolved(a', supplied, t')
    requires forall k | k in supplied :: k.Name?
    ensures t.Ok? && t'.Ok?
    ensures BlockAt(Merged(r', t'.value), si, bi) == BlockAt(Merged(r, t.value), where(si, bi).0, where(si, bi).1)
  {
    ByIdResolves(r, a, supplied, t);
    ByIdResolves(r', a', supplied, t');
    MergeById(r', a', supplied, t'.value, si, bi);
    MergeById(r, a, supplied, t.value, where(si, bi).0, where(si, bi).1);
  }

  /** Only inputs on the addressed block's ask list change, and to the answer. */
  lemma OnlyAskedInputsChange(r: Recipe, t: map<Key, Answers>, si: nat, bi: nat, name: string)
    ensures
      var b, b' := BlockAt(r, si, bi), BlockAt(Merged(r, t), si, bi);
      && (b.Placed? <==> b'.Placed?)
      && (b.Placed? ==> b'.pid == b.pid && b'.ref == b.ref && b'.ask == b.ask && b'.rest == b.rest)
      && (b.Placed? && !(name in b.ask && At(si, bi) in t && t[At(si, bi)].Given? && name in t[At(si, bi)].values) ==>
            InputOf(b', name) == InputOf(b, name))
      && (b.Placed? && name in b.ask && At(si, bi) in t && t[At(si, bi)].Given? && name in t[At(si, bi)].values ==>
            InputOf(b', name) == Some(t[At(si, bi)].values[name]))
  {
  }

  function InputOf(b: Block, name: string): Option<Value> {
    if b.Placed? && b.inputs.Some? && name in b.inputs.value then Some(b.inputs.value[name]) else None
  }

  /** Merging keeps what addresses are made of, so the answers mean the same afterwards. */
  lemma MergeKeepsIds(r: Recipe, t: map<Key, Answers>)
    ensures forall si, bi, k :: HasId(Merged(r, t), si, bi, k) <==> HasId(r, si, bi, k)
    ensures forall a :: Aliasing(Merged(r, t), a) <==> Aliasing(r, a)
    ensures UniqueIds(Merged(r, t)) <==> UniqueIds(r)
  {
  }

  /** Merging the same answers again changes nothing. */
  lemma MergingTwiceIsOnce(r: Recipe, t: map<Key, Answers>)
    ensures Merged(Merged(r, t), t) == Merged(r, t)
  {
    var m := Merged(r, t);
    forall si | 0 <= si < |m| ensures MergedSection(m[si], t, si) == m[si] {
      if m[si].Section? {
        forall bi | 0 <= bi < |m[si].blocks|
          ensures Overlaid(m[si].blocks[bi], t, At(si, bi)) == m[si].blocks[bi]
        {
          OverlayTwice(r[si].blocks[bi], t, At(si, bi));
        }
        assert MergedSection(m[si], t, si).blocks == m[si].blocks;
      }
    }
  }

  lemma OverlayTwice(b: Block, t: map<Key, Answers>, k: Key)
    ensures Overlaid(Overlaid(b, t, k), t, k) == Overlaid(b, t, k)
  {
    if b.Placed? && b.ask != [] && k in t && t[k].Given? {
      var once := Overlay(b, t[k].values);
      assert Overlay(once, t[k].values).inputs.value == once.inputs.value;
    }
  }
}
