/** The base image cache on a node: only validated downloads are reused, whatever crashes in between. */
module ImageCache {
  import opened Rows

  /** A requested image: its URL, the declared checksum, and the file name derived from both. */
  datatype Source = Source(url: nat, checksum: Option<nat>, base: nat)

  /** The durable validation marker of a file. */
  datatype Mark = Untrusted | Downloaded | Verified(checksum: nat)

  /** What a volume really holds: the result of a download task that finished OK, what a failed
      one left, or something GoblinDock did not put there. */
  datatype Content = Whole(source: Source) | Partial | Foreign

  datatype Task = Task(id: nat, file: nat, source: Source)

  /** How far a call got.  `before` are the volumes present when the call began. */
  datatype Call =
    | Idle
    | Chosen(source: Source, file: nat, before: set<nat>)
    | Distrusted(source: Source, file: nat, before: set<nat>)
    | Fetching(source: Source, file: nat, before: set<nat>, task: nat)
    | Passed(source: Source, file: nat, before: set<nat>)
    | Recorded(source: Source, file: nat, before: set<nat>)
    | Failing(source: Source, file: nat, before: set<nat>)

  /** `finished` are the tasks that ended OK. */
  datatype Cache = Cache(
    marks: map<nat, Mark>, active: map<Source, nat>, volumes: map<nat, Content>,
    running: set<Task>, finished: set<nat>, nextTask: nat, call: Call)

  datatype Step =
    | Reuse(source: Source)
    | Begin(source: Source, refresh: bool, spare: nat)
    | Distrust
    | Submit
    | Finish
    | Fail
    | Discard(deletes: bool)
    | Validate
    | Return
    | Crash
    | TaskEnds(task: Task, ok: bool, leaves: bool)
    | Deleted(file: nat)
    | Appeared(file: nat)

  function ActiveFile(c: Cache, s: Source): nat {
    if s in c.active then c.active[s] else s.base
  }

  function MarkOf(s: Source): Mark {
    if s.checksum.Some? then Verified(s.checksum.value) else Downloaded
  }

  /** A present file may be reused: with a checksum only on its own validation marker, without
      one unless it is distrusted. */
  predicate Reusable(c: Cache, s: Source, f: nat) {
    && f in c.volumes
    && (s.checksum.Some? ==> f in c.marks && c.marks[f] == MarkOf(s))
    && !(f in c.marks && c.marks[f] == Untrusted)
  }

  /** A name made up for this download: nobody has used it. */
  predicate Unused(c: Cache, f: nat) {
    && f !in c.volumes && f !in c.marks
    && (forall t | t in c.running :: t.file != f)
    && (forall s | s in c.active :: c.active[s] != f)
  }

  predicate RunsOn(c: Cache, f: nat) {
    exists t | t in c.running :: t.file == f
  }

  /** The environment: a download task ends OK only on a free name and leaves existing files
      alone; nobody deletes a file that is being downloaded, and nobody else creates volumes
      under names that carry a marker or are being downloaded. */
  predicate Enabled(c: Cache, a: Step) {
    match a
    case Reuse(s) => c.call.Idle? && Reusable(c, s, ActiveFile(c, s))
    case Begin(s, refresh, spare) =>
      c.call.Idle? && Unused(c, spare) && (refresh || !Reusable(c, s, ActiveFile(c, s)))
    case Distrust => c.call.Chosen?
    case Submit => c.call.Distrusted?
    case Finish => c.call.Fetching? && c.call.task in c.finished
    case Fail => c.call.Distrusted? || c.call.Fetching?
    case Discard(_) => c.call.Failing?
    case Validate => c.call.Passed?
    case Return => c.call.Recorded?
    case Crash => true
    case TaskEnds(t, ok, _) => t in c.running && (ok ==> t.file !in c.volumes)
    case Deleted(f) => f in c.volumes && !RunsOn(c, f)
    case Appeared(f) => f !in c.volumes && f !in c.marks && !RunsOn(c, f)
  }

  function Apply(c: Cache, a: Step): Cache
    requires Enabled(c, a)
  {
    match a
    case Reuse(_) => c
    case Begin(s, refresh, spare) =>
      var f := if refresh || ActiveFile(c, s) in c.volumes then spare else ActiveFile(c, s);
      c.(call := Chosen(s, f, c.volumes.Keys))
    case Distrust =>
      c.(marks := c.marks[c.call.file := Untrusted], call := Distrusted(c.call.source, c.call.file, c.call.before))
    case Submit =>
      c.(running := c.running + {Task(c.nextTask, c.call.file, c.call.source)}, nextTask := c.nextTask + 1,
         call := Fetching(c.call.source, c.call.file, c.call.before, c.nextTask))
    case Finish => c.(call := Passed(c.call.source, c.call.file, c.call.before))
    case Fail => c.(call := Failing(c.call.source, c.call.file, c.call.before))
    case Discard(deletes) =>
      c.(volumes := if deletes then c.volumes - {c.call.file} else c.volumes, call := Idle)
    case Validate =>
      c.(marks := c.marks[c.call.file := MarkOf(c.call.source)],
         call := Recorded(c.call.source, c.call.file, c.call.before))
    case Return => c.(active := c.active[c.call.source := c.call.file], call := Idle)
    case Crash => c.(call := Idle)
    case TaskEnds(t, ok, leaves) =>
      c.(running := c.running - {t},
         finished := if ok then c.finished + {t.id} else c.finished,
         volumes := if ok then c.volumes[t.file := Whole(t.source)]
                    else if leaves && t.file !in c.volumes then c.volumes[t.file := Partial] else c.volumes)
    case Deleted(f) => c.(volumes := c.volumes - {f})
    case Appeared(f) => c.(volumes := c.volumes[f := Foreign])
  }

  /** Volumes of unknown origin may be there from the start, under names without marker. */
  predicate Init(c: Cache) {
    && c.marks == map[] && c.active == map[] && c.running == {} && c.finished == {} && c.call == Idle
    && forall f | f in c.volumes :: c.volumes[f] == Foreign
  }

  ghost predicate Run(cs: seq<Cache>, acts: seq<Step>) {
    && |cs| == |acts| + 1 && Init(cs[0])
    && forall i | 0 <= i < |acts| :: Enabled(cs[i], acts[i]) && cs[i + 1] == Apply(cs[i], acts[i])
  }

  // ------------------------------------------------------------------ the invariant

  /** A marker other than distrust is true of the volume, if it is there. */
  ghost predicate MarksAreTrue(c: Cache) {
    && (forall f | f in c.volumes && c.volumes[f] == Partial :: f in c.marks && c.marks[f] == Untrusted)
    && (forall f | f in c.volumes && f in c.marks && c.marks[f].Verified? ::
          c.volumes[f].Whole? && c.volumes[f].source.checksum == Some(c.marks[f].checksum))
  }

  /** A download that is still running cannot spoil a trusted file: it is there already. */
  ghost predicate TasksAreHarmless(c: Cache) {
    && (forall t | t in c.running :: t.id < c.nextTask && t.file in c.marks
                                     && (c.marks[t.file] == Untrusted || t.file in c.volumes))
    && (forall t, u | t in c.running && u in c.running && t.id == u.id :: t == u)
    && (forall t | t in c.running :: t.id !in c.finished)
    && (forall i | i in c.finished :: i < c.nextTask)
  }

  /** The volume of a download that finished OK. */
  ghost predicate Arrived(c: Cache, s: Source, f: nat) {
    && (f in c.volumes ==> c.volumes[f] == Whole(s))
    && (f in c.volumes || !RunsOn(c, f))
  }

  ghost predicate CallInOrder(c: Cache) {
    && (!c.call.Idle? ==> c.call.file !in c.call.before)
    && (!c.call.Idle? && !c.call.Chosen? ==> c.call.file in c.marks)
    && (c.call.Distrusted? || c.call.Fetching? || c.call.Passed? || c.call.Failing? ==>
          c.marks[c.call.file] == Untrusted)
    && (c.call.Fetching? ==>
          && c.call.task < c.nextTask
          && (Task(c.call.task, c.call.file, c.call.source) in c.running || c.call.task in c.finished
              || (forall t | t in c.running :: t.id != c.call.task))
          && (forall t | t in c.running && t.id == c.call.task :: t == Task(c.call.task, c.call.file, c.call.source))
          && (c.call.task in c.finished ==> Arrived(c, c.call.source, c.call.file)))
    && (c.call.Passed? || c.call.Recorded? ==> Arrived(c, c.call.source, c.call.file))
    && (c.call.Recorded? ==> c.marks[c.call.file] == MarkOf(c.call.source))
  }

  ghost predicate Inv(c: Cache) {
    MarksAreTrue(c) && TasksAreHarmless(c) && CallInOrder(c)
  }

  lemma StepKeepsMarks(c: Cache, a: Step)
    requires Inv(c) && Enabled(c, a)
    ensures MarksAreTrue(Apply(c, a))
  {
  }

  lemma StepKeepsTasks(c: Cache, a: Step)
    requires Inv(c) && Enabled(c, a)
    ensures TasksAreHarmless(Apply(c, a))
  {
  }

  lemma StepKeepsCall(c: Cache, a: Step)
    requires Inv(c) && Enabled(c, a)
    ensures CallInOrder(Apply(c, a))
  {
  }

  lemma {:induction false} InvAlways(cs: seq<Cache>, acts: seq<Step>, i: nat)
    requires Run(cs, acts) && i < |cs|
    ensures Inv(cs[i])
  {
    if i > 0 {
      InvAlways(cs, acts, i - 1);
      StepKeepsMarks(cs[i - 1], acts[i - 1]);
      StepKeepsTasks(cs[i - 1], acts[i - 1]);
      StepKeepsCall(cs[i - 1], acts[i - 1]);
    }
  }

  // ------------------------------------------------------------------ theorems on runs

  /** The file a step hands to its caller, if it hands one out. */
  function Returned(c: Cache, a: Step): Option<(Source, nat)> {
    match a
    case Reuse(s) => Some((s, ActiveFile(c, s)))
    case Return => if c.call.Recorded? then Some((c.call.source, c.call.file)) else None
    case _ => None
  }

  /** A request with a checksum gets only a volume whose download finished OK with that checksum. */
  lemma OnlyValidatedIsReturned(cs: seq<Cache>, acts: seq<Step>, i: nat, s: Source, f: nat)
    requires Run(cs, acts) && i < |acts| && Returned(cs[i], acts[i]) == Some((s, f))
    requires s.checksum.Some? && f in cs[i].volumes
    ensures cs[i].volumes[f].Whole? && cs[i].volumes[f].source.checksum == s.checksum
  {
    InvAlways(cs, acts, i);
    assert Enabled(cs[i], acts[i]);
  }

  /** Whatever is asked for, what a failed, cancelled or crashed download left is never returned. */
  lemma LeftoversAreNeverReturned(cs: seq<Cache>, acts: seq<Step>, i: nat, s: Source, f: nat)
    requires Run(cs, acts) && i < |acts| && Returned(cs[i], acts[i]) == Some((s, f))
    ensures f in cs[i].volumes ==> cs[i].volumes[f] != Partial
  {
    InvAlways(cs, acts, i);
    assert Enabled(cs[i], acts[i]);
  }

  /** A call deletes no volume that was there when it began. */
  lemma NothingOldIsDeleted(cs: seq<Cache>, acts: seq<Step>, i: nat, f: nat)
    requires Run(cs, acts) && i < |acts| && acts[i].Discard?
    requires f in cs[i].volumes && f in cs[i].call.before
    ensures f in cs[i + 1].volumes && cs[i + 1].volumes[f] == cs[i].volumes[f]
  {
    InvAlways(cs, acts, i);
    assert Enabled(cs[i], acts[i]);
  }

  /** A reader of an old volume is never disturbed: its content does not change while it exists. */
  lemma ContentIsStable(cs: seq<Cache>, acts: seq<Step>, i: nat, f: nat)
    requires Run(cs, acts) && i < |acts| && f in cs[i].volumes && f in cs[i + 1].volumes
    ensures cs[i + 1].volumes[f] == cs[i].volumes[f]
  {
    assert Enabled(cs[i], acts[i]);
  }

  /** The file is there under a marker that the next request for `s` trusts, and is looked for first. */
  predicate InUse(c: Cache, s: Source, f: nat) {
    && f in c.volumes && s in c.active && c.active[s] == f && f in c.marks
    && (s.checksum.Some? ==> c.marks[f] == Verified(s.checksum.value))
    && (s.checksum.None? ==> c.marks[f] != Untrusted)
    && (c.call.Idle? || c.call.file != f)
  }

  /** What ends the use of a file: its deletion, or a later successful download of the same image. */
  predicate Replaces(c: Cache, a: Step, s: Source, f: nat) {
    a == Deleted(f) || (a.Return? && c.call.Recorded? && c.call.source == s)
  }

  lemma StaysInUse(c: Cache, a: Step, s: Source, f: nat)
    requires Inv(c) && Enabled(c, a) && InUse(c, s, f) && !Replaces(c, a, s, f)
    ensures InUse(Apply(c, a), s, f)
  {
  }

  lemma ReturnedIsInUse(c: Cache)
    requires Inv(c) && Enabled(c, Return) && c.call.file in c.volumes
    ensures InUse(Apply(c, Return), c.call.source, c.call.file)
  {
  }

  lemma {:induction false} InUseUntilReplaced(
      cs: seq<Cache>, acts: seq<Step>, i: nat, k: nat, s: Source, f: nat)
    requires Run(cs, acts) && i <= k < |cs| && InUse(cs[i], s, f)
    requires forall n | i <= n < k :: !Replaces(cs[n], acts[n], s, f)
    ensures InUse(cs[k], s, f)
  {
    if i < k {
      InUseUntilReplaced(cs, acts, i, k - 1, s, f);
      InvAlways(cs, acts, k - 1);
      StaysInUse(cs[k - 1], acts[k - 1], s, f);
    }
  }

  /** A finished download is not fetched again: whatever happens in between, crashes included, the next
      request for the image gets the same file, until that is deleted or a refresh replaced it. */
  lemma DownloadIsReused(cs: seq<Cache>, acts: seq<Step>, i: nat, k: nat, s: Source, f: nat)
    requires Run(cs, acts) && i < k < |cs| && acts[i] == Return
    requires Returned(cs[i], acts[i]) == Some((s, f)) && f in cs[i].volumes
    requires (forall n | i < n < k :: !Replaces(cs[n], acts[n], s, f)) && cs[k].call.Idle?
    ensures Enabled(cs[k], Reuse(s)) && Returned(cs[k], Reuse(s)) == Some((s, f))
    ensures forall spare :: !Enabled(cs[k], Begin(s, false, spare))
  {
    InvAlways(cs, acts, i);
    assert Enabled(cs[i], acts[i]) && cs[i + 1] == Apply(cs[i], acts[i]);
    ReturnedIsInUse(cs[i]);
    InUseUntilReplaced(cs, acts, i + 1, k, s, f);
  }

  // ------------------------------------------------------------------ one call without interruption

  /** How the download of one call went. */
  datatype Download = Refused | EndedOk | EndedBadly(leaves: bool)

  function FileFor(c: Cache, s: Source, refresh: bool, spare: nat): nat {
    if refresh || ActiveFile(c, s) in c.volumes then spare else ActiveFile(c, s)
  }

  class Installation {
    var marks: map<nat, Mark>
    var active: map<Source, nat>
    var volumes: map<nat, Content>

    constructor ()
      ensures marks == map[] && active == map[] && volumes == map[]
    {
      marks, active, volumes := map[], map[], map[];
    }

    ghost predicate Shows(c: Cache)
      reads this
    {
      marks == c.marks && active == c.active && volumes == c.volumes
    }

    /** The download to a free name: distrusted before, trusted after it ended well. */
    method Fetch(file: nat, s: Source, download: Download, deletes: bool) returns (ok: bool)
      requires file !in volumes
      modifies this
      ensures ok == download.EndedOk?
      ensures marks == old(marks)[file := if ok then MarkOf(s) else Untrusted]
      ensures active == if ok then old(active)[s := file] else old(active)
      ensures volumes == if ok then old(volumes)[file := Whole(s)]
                         else if download.EndedBadly? && download.leaves && !deletes then old(volumes)[file := Partial]
                         else old(volumes)
    {
      marks := marks[file := Untrusted];
      match download {
        case Refused =>
        case EndedOk =>
          volumes := volumes[file := Whole(s)];
          marks := marks[file := MarkOf(s)];
          active := active[s := file];
          return true;
        case EndedBadly(leaves) =>
          if leaves {
            volumes := volumes[file := Partial];
          }
      }
      if deletes {
        volumes := volumes - {file};
      }
      ok := false;
    }

    /** Returns the file to import, or nothing when the download failed; `ghost c` is the cache
        the fields show. */
    method EnsureBaseDisk(ghost c: Cache, s: Source, refresh: bool, spare: nat, download: Download, deletes: bool)
      returns (r: Option<nat>)
      requires Shows(c) && c.call.Idle? && Unused(c, spare)
      modifies this
      ensures !refresh && Reusable(c, s, ActiveFile(c, s)) ==> r == Some(ActiveFile(c, s)) && Shows(c)
      ensures refresh || !Reusable(c, s, ActiveFile(c, s)) ==>
        var f := FileFor(c, s, refresh, spare);
        && r == (if download.EndedOk? then Some(f) else None)
        && marks == c.marks[f := if download.EndedOk? then MarkOf(s) else Untrusted]
        && active == (if download.EndedOk? then c.active[s := f] else c.active)
        && volumes == if download.EndedOk? then c.volumes[f := Whole(s)]
                      else if download.EndedBadly? && download.leaves && !deletes then c.volumes[f := Partial]
                      else c.volumes
    {
      var file := if s in active then active[s] else s.base;
      if refresh {
        file := spare;
      }
      if file in volumes {
        var trusted := file in marks && marks[file] == MarkOf(s);
        if (s.checksum.Some? && !trusted) || (file in marks && marks[file] == Untrusted) {
          file := spare;
        } else {
          return Some(file);
        }
      }
      var ok := Fetch(file, s, download, deletes);
      r := if ok then Some(file) else None;
    }
  }

  /** A call that is not interrupted is a sequence of the steps above. */
  lemma SuccessIsSteps(c: Cache, s: Source, refresh: bool, spare: nat)
    requires Inv(c) && Enabled(c, Begin(s, refresh, spare)) && !RunsOn(c, FileFor(c, s, refresh, spare))
    ensures
      var f := FileFor(c, s, refresh, spare);
      var t := Task(c.nextTask, f, s);
      var c1 := Apply(c, Begin(s, refresh, spare));
      var c3 := Apply(Apply(c1, Distrust), Submit);
      && Enabled(c3, TaskEnds(t, true, false))
      && var c4 := Apply(c3, TaskEnds(t, true, false));
      && Enabled(c4, Finish) && Enabled(Apply(c4, Finish), Validate)
      && var c6 := Apply(Apply(c4, Finish), Validate);
      && Enabled(c6, Return) && Returned(c6, Return) == Some((s, f))
      && var c7 := Apply(c6, Return);
      && c7.marks == c.marks[f := MarkOf(s)] && c7.active == c.active[s := f] && c7.volumes == c.volumes[f := Whole(s)]
  {
  }
}
