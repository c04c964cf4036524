/** Provenance tagging: strings that come from tenant inputs are tagged `!unsafe`, nothing else is. */
module Tagging {
  import opened Rows

  const MARKER := "__GOBLINDOCK_UNSAFE_INPUT_"

  datatype Key = TextKey(text: string) | OtherKey(value: int)

  /** A parsed document; mappings keep the order of their keys. */
  datatype Yaml =
    | Str(text: string, unsafe: bool)
    | Other(value: int)
    | List(items: seq<Yaml>)
    | Mapping(entries: seq<Entry>)

  datatype Entry = Entry(key: Key, value: Yaml)

  datatype Result<+T> = Ok(value: T) | StructureChanged

  predicate HasMarker(s: string) {
    exists p | 0 <= p <= |s| :: MARKER <= s[p..]
  }

  // ------------------------------------------------------------------ tagging

  function Keys(entries: seq<Entry>): seq<Key> {
    seq(|entries|, i requires 0 <= i < |entries| => entries[i].key)
  }

  function Tag(actual: Yaml, marked: Yaml): Result<Yaml>
    decreases actual, 1
  {
    match (actual, marked)
    case (Str(text, _), Str(m, _)) => Ok(if HasMarker(m) then Str(text, true) else actual)
    case (List(items), List(ms)) =>
      if |ms| != |items| then StructureChanged
      else (match TagItems(actual, ms, 0) case Ok(r) => Ok(List(r)) case StructureChanged => StructureChanged)
    case (Mapping(entries), Mapping(ms)) =>
      if Keys(ms) != Keys(entries) then StructureChanged
      else (match TagEntries(actual, ms, 0) case Ok(r) => Ok(Mapping(r)) case StructureChanged => StructureChanged)
    case _ => Ok(actual)
  }

  function TagItems(actual: Yaml, ms: seq<Yaml>, i: nat): (r: Result<seq<Yaml>>)
    requires actual.List? && |actual.items| == |ms| && i <= |ms|
    ensures r.Ok? ==> |r.value| == |ms| - i
    decreases actual, 0, |ms| - i
  {
    if i == |ms| then Ok([])
    else
      var first := Tag(actual.items[i], ms[i]);
      if first.StructureChanged? then StructureChanged
      else (match TagItems(actual, ms, i + 1)
            case Ok(rest) => Ok([first.value] + rest)
            case StructureChanged => StructureChanged)
  }

  function TagEntries(actual: Yaml, ms: seq<Entry>, i: nat): (r: Result<seq<Entry>>)
    requires actual.Mapping? && |actual.entries| == |ms| && i <= |ms|
    ensures r.Ok? ==> |r.value| == |ms| - i
    decreases actual, 0, |ms| - i
  {
    if i == |ms| then Ok([])
    else
      var first := Tag(actual.entries[i].value, ms[i].value);
      if first.StructureChanged? then StructureChanged
      else (match TagEntries(actual, ms, i + 1)
            case Ok(rest) => Ok([Entry(actual.entries[i].key, first.value)] + rest)
            case StructureChanged => StructureChanged)
  }

  // ------------------------------------------------------------------ positions

  datatype Step = Item(index: nat) | Value(index: nat)

  predicate CanStep(y: Yaml, s: Step) {
    match s
    case Item(i) => y.List? && i < |y.items|
    case Value(i) => y.Mapping? && i < |y.entries|
  }

  function Go(y: Yaml, s: Step): (r: Yaml)
    requires CanStep(y, s)
    ensures r < y
  {
    match s case Item(i) => y.items[i] case Value(i) => y.entries[i].value
  }

  function At(y: Yaml, path: seq<Step>): Option<Yaml>
    decreases |path|
  {
    if path == [] then Some(y)
    else if CanStep(y, path[0]) then At(Go(y, path[0]), path[1..])
    else None
  }

  /** Two aligned lists of different length, or mappings with different keys or another order. */
  predicate Mismatch(a: Yaml, m: Yaml) {
    || (a.List? && m.List? && |a.items| != |m.items|)
    || (a.Mapping? && m.Mapping? && Keys(a.entries) != Keys(m.entries))
  }

  ghost predicate MismatchAt(a: Yaml, m: Yaml, path: seq<Step>) {
    At(a, path).Some? && At(m, path).Some? && Mismatch(At(a, path).value, At(m, path).value)
  }

  // ------------------------------------------------------------------ one level

  lemma {:induction false} ItemsTagged(actual: Yaml, ms: seq<Yaml>, i: nat)
    requires actual.List? && |actual.items| == |ms| && i <= |ms|
    ensures TagItems(actual, ms, i).Ok? <==> forall k | i <= k < |ms| :: Tag(actual.items[k], ms[k]).Ok?
    ensures TagItems(actual, ms, i).Ok? ==>
      forall k | i <= k < |ms| :: TagItems(actual, ms, i).value[k - i] == Tag(actual.items[k], ms[k]).value
    decreases |ms| - i
  {
    if i < |ms| {
      ItemsTagged(actual, ms, i + 1);
    }
  }

  lemma {:induction false} EntriesTagged(actual: Yaml, ms: seq<Entry>, i: nat)
    requires actual.Mapping? && |actual.entries| == |ms| && i <= |ms|
    ensures TagEntries(actual, ms, i).Ok? <==> forall k | i <= k < |ms| :: Tag(actual.entries[k].value, ms[k].value).Ok?
    ensures TagEntries(actual, ms, i).Ok? ==>
      forall k | i <= k < |ms| :: TagEntries(actual, ms, i).value[k - i]
                                  == Entry(actual.entries[k].key, Tag(actual.entries[k].value, ms[k].value).value)
    decreases |ms| - i
  {
    if i < |ms| {
      EntriesTagged(actual, ms, i + 1);
    }
  }

  /** Tagging goes on below where both documents have the same container. */
  predicate Aligned(a: Yaml, m: Yaml) {
    !Mismatch(a, m) && ((a.List? && m.List?) || (a.Mapping? && m.Mapping?))
  }

  lemma AlignedSteps(a: Yaml, m: Yaml, s: Step)
    requires Aligned(a, m)
    ensures CanStep(a, s) <==> CanStep(m, s)
  {
    if a.Mapping? {
      assert |Keys(a.entries)| == |Keys(m.entries)|;
    }
  }

  lemma TagOneLevel(a: Yaml, m: Yaml, s: Step)
    requires Aligned(a, m) && Tag(a, m).Ok?
    ensures CanStep(Tag(a, m).value, s) <==> CanStep(a, s)
    ensures CanStep(a, s) ==>
      && CanStep(m, s) && Tag(Go(a, s), Go(m, s)).Ok?
      && Go(Tag(a, m).value, s) == Tag(Go(a, s), Go(m, s)).value
  {
    AlignedSteps(a, m, s);
    if a.List? {
      ItemsTagged(a, m.items, 0);
    } else {
      assert |Keys(a.entries)| == |Keys(m.entries)|;
      EntriesTagged(a, m.entries, 0);
    }
  }

  // ------------------------------------------------------------------ theorems

  /** The string at this position of the marked document carries a marker. */
  predicate MarkedAt(m: Yaml, path: seq<Step>) {
    At(m, path).Some? && At(m, path).value.Str? && HasMarker(At(m, path).value.text)
  }

  /** What is at a position of the result: the actual node, a string being tagged exactly when
      the marked document has a marker-bearing string there; containers and everything else are
      as they were. */
  predicate FaithfulAt(a: Yaml, m: Yaml, r: Yaml, path: seq<Step>) {
    match At(a, path)
    case None => At(r, path).None?
    case Some(Str(text, unsafe)) => At(r, path) == Some(Str(text, unsafe || MarkedAt(m, path)))
    case Some(Other(v)) => At(r, path) == Some(Other(v))
    case Some(List(items)) => At(r, path).Some? && At(r, path).value.List? && |At(r, path).value.items| == |items|
    case Some(Mapping(entries)) =>
      At(r, path).Some? && At(r, path).value.Mapping? && Keys(At(r, path).value.entries) == Keys(entries)
  }

  lemma {:induction false} TaggingIsFaithful(a: Yaml, m: Yaml, path: seq<Step>)
    requires Tag(a, m).Ok?
    ensures FaithfulAt(a, m, Tag(a, m).value, path)
    decreases |path|
  {
    var r := Tag(a, m).value;
    if path == [] {
      RootIsFaithful(a, m);
    } else if Aligned(a, m) {
      TagOneLevel(a, m, path[0]);
      if CanStep(a, path[0]) {
        TaggingIsFaithful(Go(a, path[0]), Go(m, path[0]), path[1..]);
      }
    } else {
      assert r == a || (a.Str? && m.Str?);
      NoCommonPath(a, m, path);
    }
  }

  lemma RootIsFaithful(a: Yaml, m: Yaml)
    requires Tag(a, m).Ok?
    ensures FaithfulAt(a, m, Tag(a, m).value, [])
  {
    if Aligned(a, m) {
      if a.List? {
        ItemsTagged(a, m.items, 0);
      } else {
        assert |Keys(a.entries)| == |Keys(m.entries)|;
        EntriesTagged(a, m.entries, 0);
        assert Keys(Tag(a, m).value.entries) == Keys(a.entries);
      }
    }
  }

  /** Below two different kinds of node there is no common position. */
  lemma NoCommonPath(a: Yaml, m: Yaml, path: seq<Step>)
    requires path != [] && !Aligned(a, m) && !Mismatch(a, m)
    ensures At(a, path).None? || At(m, path).None?
  {
  }

  /** A string is tagged exactly when the text in its place holds the marker prefix somewhere. */
  lemma MarkerDecides(text: string, marked: string, unsafe: bool, u: bool)
    ensures Tag(Str(text, unsafe), Str(marked, u)) ==
      Ok(Str(text, unsafe || exists x, y :: marked == x + "__GOBLINDOCK_UNSAFE_INPUT_" + y))
  {
    if p :| 0 <= p <= |marked| && MARKER <= marked[p..] {
      assert marked == marked[..p] + MARKER + marked[p + |MARKER|..];
    }
    if x, y :| marked == x + MARKER + y {
      assert MARKER <= marked[|x|..];
    }
  }

  function Erase(y: Yaml): Yaml {
    match y
    case Str(text, _) => Str(text, false)
    case Other(_) => y
    case List(items) => List(seq(|items|, i requires 0 <= i < |items| => Erase(items[i])))
    case Mapping(entries) =>
      Mapping(seq(|entries|, i requires 0 <= i < |entries| => Entry(entries[i].key, Erase(entries[i].value))))
  }

  /** Taking the tags off gives the actual document back. */
  lemma {:induction false} ErasingUndoesTagging(a: Yaml, m: Yaml)
    requires Tag(a, m).Ok? && Erase(a) == a
    ensures Erase(Tag(a, m).value) == a
    decreases a
  {
    if a.List? && m.List? {
      ItemsTagged(a, m.items, 0);
      forall i | 0 <= i < |a.items| ensures Erase(Tag(a, m).value.items[i]) == a.items[i] {
        assert a.items[i] == Erase(a).items[i];
        ErasingUndoesTagging(a.items[i], m.items[i]);
      }
    } else if a.Mapping? && m.Mapping? {
      assert |Keys(a.entries)| == |Keys(m.entries)|;
      EntriesTagged(a, m.entries, 0);
      var r := Tag(a, m).value.entries;
      forall i | 0 <= i < |a.entries| ensures r[i].key == a.entries[i].key && Erase(r[i].value) == a.entries[i].value {
        assert a.entries[i] == Erase(a).entries[i];
        ErasingUndoesTagging(a.entries[i].value, m.entries[i].value);
      }
    }
  }

  /** Tagging is refused exactly when two aligned lists differ in length or two aligned mappings
      differ in their keys or the order of them. */
  lemma TaggingFailsIff(a: Yaml, m: Yaml)
    ensures Tag(a, m).StructureChanged? <==> exists path :: MismatchAt(a, m, path)
  {
    if Tag(a, m).StructureChanged? {
      var path := FindMismatch(a, m);
    } else {
      forall path ensures !MismatchAt(a, m, path) {
        NoMismatch(a, m, path);
      }
    }
  }

  lemma {:induction false} FindMismatch(a: Yaml, m: Yaml) returns (path: seq<Step>)
    requires Tag(a, m).StructureChanged?
    ensures MismatchAt(a, m, path)
    decreases a
  {
    if Mismatch(a, m) {
      path := [];
    } else {
      var s: Step;
      if a.List? {
        ItemsTagged(a, m.items, 0);
        var k :| 0 <= k < |a.items| && Tag(a.items[k], m.items[k]).StructureChanged?;
        s := Item(k);
      } else {
        assert |Keys(a.entries)| == |Keys(m.entries)|;
        EntriesTagged(a, m.entries, 0);
        var k :| 0 <= k < |a.entries| && Tag(a.entries[k].value, m.entries[k].value).StructureChanged?;
        s := Value(k);
      }
      var rest := FindMismatch(Go(a, s), Go(m, s));
      path := [s] + rest;
      assert path[1..] == rest;
    }
  }

  lemma {:induction false} NoMismatch(a: Yaml, m: Yaml, path: seq<Step>)
    requires Tag(a, m).Ok?
    ensures !MismatchAt(a, m, path)
    decreases |path|
  {
    if path != [] {
      if Aligned(a, m) {
        TagOneLevel(a, m, path[0]);
        if CanStep(a, path[0]) {
          NoMismatch(Go(a, path[0]), Go(m, path[0]), path[1..]);
        }
      } else {
        NoCommonPath(a, m, path);
      }
    }
  }
}
