/**
 Update and rollback of the installed stack: the state file with its release history,
 the image tags and the running containers. Docker, the network and the file system
 answer through the `Outcome` arguments; every combination of answers is covered.
 The ideal is a stack of what was installed before each update not yet undone.
 */
module ReleaseHistory {
  import opened Wrappers

  const KEPT := 10

  type Version = s: string | s != "" witness "1"

  type Image = nat

  datatype Images = Images(backend: Image, web: Image)

  /** A tag taken of running containers, or one that a build or the first start gave. */
  datatype Tag = Snapshot(stamp: string) | Named(name: string)

  datatype Entry = Entry(
    fromVersion: Version, fromRevision: Option<string>, previousRoot: Option<string>, previousTag: Tag,
    toVersion: Version, toRevision: string, root: string, tag: Tag, rolledBack: bool)

  datatype File = File(
    appVersion: Option<Version>, revision: Option<string>, root: Option<string>, imageTag: Option<Tag>,
    history: seq<Entry>)

  /** `releases` are the source directories of updates that exist on disk. */
  datatype Machine = Machine(
    file: File, releases: set<string>, backendTags: map<Tag, Image>, webTags: map<Tag, Image>, running: Images)

  datatype Target = Target(version: Version, revision: string, root: string, tag: Tag)

  // How the outside answers.

  type Counts = map<string, nat>

  /** Compose reports success, or failure with something half-way, or the call itself raises. */
  datatype Up = Started | Broken(left: Images) | Interrupted(left: Images)

  datatype Readiness = Ready | NotReady | ReadinessRaised

  /** Entities were counted, the count was refused in the way the tool expects, or it raised
      something else, as a count does that takes longer than a minute. */
  datatype Counting = Counted(counts: Counts) | CountRefused | CountRaised

  datatype Build = Built(images: Images) | BuildFailed(backend: Option<Image>, web: Option<Image>)

  datatype Tagging = BothTagged | BackendTagged | NoneTagged

  datatype Outcome = Outcome(
    prepared: bool, healthy: bool, build: Build, backup: bool, tagging: Tagging,
    switch: Up, ready: Readiness, before: Counts, after: Counting, restore: Up, written: bool)

  datatype Command =
    | Update(force: bool, target: Target, stamp: string, outcome: Outcome)
    | Rollback(outcome: Outcome)

  datatype Result = Succeeded | NotNeeded | NothingToUndo | Failed

  // The pieces.

  /** Nothing was lost: no kind of entity is rarer than before. */
  predicate CountsPreserved(before: Counts, after: Counts) {
    forall k :: k in before ==> (if k in after then after[k] else 0) >= before[k]
  }

  method AssertCountsPreserved(before: Counts, after: Counts) returns (ok: bool)
    ensures ok <==> CountsPreserved(before, after)
  {
    var keys := before.Keys;
    var decreased: set<string> := {};
    while keys != {}
      invariant keys <= before.Keys
      invariant forall k :: k in decreased <==>
        k in before.Keys - keys && (if k in after then after[k] else 0) < before[k]
      decreases |keys|
    {
      var k :| k in keys;
      keys := keys - {k};
      if (if k in after then after[k] else 0) < before[k] { decreased := decreased + {k}; }
    }
    ok := decreased == {};
    if ok {
      forall k | k in before ensures (if k in after then after[k] else 0) >= before[k] {
        assert k !in decreased;
      }
    } else {
      var k :| k in decreased;
    }
  }

  predicate Usable(m: Machine, tag: Tag) {
    tag in m.backendTags && tag in m.webTags
  }

  function ImagesOf(m: Machine, tag: Tag): Images
    requires Usable(m, tag)
  {
    Images(m.backendTags[tag], m.webTags[tag])
  }

  /** Starting a tag without building: its images run, or whatever was left half-way. */
  function Ran(m: Machine, tag: Tag, up: Up): Machine {
    if !up.Started? then m.(running := up.left)
    else if Usable(m, tag) then m.(running := ImagesOf(m, tag))
    else m
  }

  predicate RanWell(m: Machine, tag: Tag, up: Up) {
    up.Started? && Usable(m, tag)
  }

  function AfterBuild(m: Machine, tag: Tag, b: Build): Machine {
    match b
    case Built(images) => m.(backendTags := m.backendTags[tag := images.backend],
      webTags := m.webTags[tag := images.web])
    case BuildFailed(backend, web) =>
      m.(backendTags := if backend.Some? then m.backendTags[tag := backend.value] else m.backendTags,
         webTags := if web.Some? then m.webTags[tag := web.value] else m.webTags)
  }

  function AfterTagging(m: Machine, stamp: string, t: Tagging): Machine {
    match t
    case BothTagged =>
      m.(backendTags := m.backendTags[Snapshot(stamp) := m.running.backend],
        webTags := m.webTags[Snapshot(stamp) := m.running.web])
    case BackendTagged => m.(backendTags := m.backendTags[Snapshot(stamp) := m.running.backend])
    case NoneTagged => m
  }

  function Tail(history: seq<Entry>): seq<Entry> {
    if |history| > KEPT then history[|history| - KEPT..] else history
  }

  /** The last entry not yet undone. */
  function Candidate(history: seq<Entry>): Option<nat> {
    if history == [] then None
    else if !history[|history| - 1].rolledBack then Some(|history| - 1)
    else Candidate(history[..|history| - 1])
  }

  function Marked(history: seq<Entry>, i: nat): seq<Entry>
    requires i < |history|
  {
    history[i := history[i].(rolledBack := true)]
  }

  /** The sources in use: those the file names, as long as they are there, else the project's own. */
  function RootOf(m: Machine): Option<string> {
    if m.file.root.Some? && m.file.root.value in m.releases then m.file.root else None
  }

  predicate RootThere(m: Machine, root: Option<string>) {
    root.Some? ==> root.value in m.releases
  }

  /** Until the first update the version comes from the sources themselves. */
  function VersionOf(shipped: Option<string> -> Version, m: Machine): Version {
    if m.file.appVersion.Some? then m.file.appVersion.value else shipped(RootOf(m))
  }

  function TagOf(f: File): Tag {
    if f.imageTag.Some? then f.imageTag.value else Named("local")
  }

  function NewEntry(shipped: Option<string> -> Version, m: Machine, t: Target, stamp: string): Entry {
    Entry(VersionOf(shipped, m), m.file.revision, RootOf(m), Snapshot(stamp), t.version, t.revision, t.root, t.tag,
      false)
  }

  function FileAfterUpdate(shipped: Option<string> -> Version, m: Machine, t: Target, stamp: string): File {
    File(Some(t.version), Some(t.revision), Some(t.root), Some(t.tag),
      Tail(m.file.history + [NewEntry(shipped, m, t, stamp)]))
  }

  function FileAfterRollback(f: File, i: nat): File
    requires i < |f.history|
  {
    var e := f.history[i];
    File(Some(e.fromVersion), e.fromRevision, e.previousRoot, Some(e.previousTag), Marked(f.history, i))
  }

  // The two commands.

  /** How a command leaves. After the switch it restores only what it expects to go wrong; any
      other exception abandons the new images where they are. */
  datatype Exit = BeforeSwitch | Restoring | Abandoning | Unrecorded | Completing

  /** From the switch on; `usable` is whether the tag names images. */
  function AfterSwitch(o: Outcome, usable: bool): Exit {
    if o.switch.Interrupted? then Abandoning
    else if o.switch.Broken? || !usable then Restoring
    else match o.ready
      case ReadinessRaised => Abandoning
      case NotReady => Restoring
      case Ready =>
        match o.after
        case CountRaised => Abandoning
        case CountRefused => Restoring
        case Counted(after) =>
          if !CountsPreserved(o.before, after) then Restoring else if !o.written then Unrecorded else Completing
  }

  function DoUpdate(shipped: Option<string> -> Version, m: Machine, force: bool, t: Target, stamp: string,
                    o: Outcome): (Machine, Result) {
    if !o.prepared then (m, Failed)
    else if t.root in m.releases then (m.(releases := m.releases - {t.root}), Failed)
    else if !force && AlreadyInstalled(m, t) then (m, NotNeeded)
    else if !o.healthy then (m, Failed)
    else
      var built := AfterBuild(m, t.tag, o.build);
      if o.build.BuildFailed? || !o.backup then (built, Failed)
      else
        var tagged := AfterTagging(built, stamp, o.tagging);
        if !o.tagging.BothTagged? then (tagged, Failed)
        else
          var switched := Ran(tagged, t.tag, o.switch);
          match AfterSwitch(o, Usable(tagged, t.tag))
          case Restoring => (Ran(switched, Snapshot(stamp), o.restore), Failed)
          case Unrecorded => (switched.(releases := m.releases + {t.root}), Failed)
          case Completing =>
            (switched.(file := FileAfterUpdate(shipped, m, t, stamp), releases := m.releases + {t.root}), Succeeded)
          case _ => (switched, Failed)
  }

  function DoRollback(m: Machine, o: Outcome): (Machine, Result) {
    var i := Candidate(m.file.history);
    if i.None? then (m, NothingToUndo)
    else
      var e := m.file.history[CandidateIndex(m.file.history)];
      if !RootThere(m, e.previousRoot) || !o.prepared || !o.healthy || !o.backup then (m, Failed)
      else
        var switched := Ran(m, e.previousTag, o.switch);
        match AfterSwitch(o, Usable(m, e.previousTag))
        case Restoring => (Ran(switched, TagOf(m.file), o.restore), Failed)
        case Completing => (switched.(file := FileAfterRollback(m.file, CandidateIndex(m.file.history))), Succeeded)
        case _ => (switched, Failed)
  }

  predicate AlreadyInstalled(m: Machine, t: Target) {
    m.file.revision == Some(t.revision) && m.file.appVersion == Some(t.version)
  }

  function CandidateIndex(history: seq<Entry>): (i: nat)
    requires Candidate(history).Some?
    ensures i < |history| && Candidate(history) == Some(i) && !history[i].rolledBack
    ensures forall j :: i < j < |history| ==> history[j].rolledBack
  {
    if !history[|history| - 1].rolledBack then |history| - 1
    else CandidateIndex(history[..|history| - 1])
  }

  function Do(shipped: Option<string> -> Version, m: Machine, c: Command): (Machine, Result) {
    match c
    case Update(force, t, stamp, o) => DoUpdate(shipped, m, force, t, stamp, o)
    case Rollback(o) => DoRollback(m, o)
  }

  // What success means.

  /** The switch to a tag came up, and no entity was lost by it. */
  predicate SwitchedWell(m: Machine, tag: Tag, o: Outcome) {
    o.switch.Started? && Usable(m, tag) && o.ready.Ready? && o.after.Counted?
      && CountsPreserved(o.before, o.after.counts)
  }

  /** The images run, and the file and its tag lead to them. */
  predicate Runs(m: Machine, tag: Tag, images: Images) {
    m.running == images && TagOf(m.file) == tag && Usable(m, tag) && ImagesOf(m, tag) == images
  }

  /** A rollback succeeds iff there is something to undo and every stage went well. */
  lemma RollbackSucceedsIff(m: Machine, o: Outcome)
    ensures var (m', result) := DoRollback(m, o);
      (result.NothingToUndo? <==> Candidate(m.file.history).None?)
      && (result.Succeeded? <==>
        Candidate(m.file.history).Some? && RootThere(m, m.file.history[CandidateIndex(m.file.history)].previousRoot)
        && o.prepared && o.healthy && o.backup && o.written
        && SwitchedWell(m, m.file.history[CandidateIndex(m.file.history)].previousTag, o))
      && (result.Succeeded? ==> Runs(m', m.file.history[CandidateIndex(m.file.history)].previousTag, m'.running))
  {
    hide CountsPreserved, Candidate;
  }

  /** No kind of entity that was counted before is counted less often now. */
  predicate NothingLost(before: Counts, after: Counting) {
    after.Counted? && forall k :: k in before && before[k] > 0 ==> k in after.counts && before[k] <= after.counts[k]
  }

  /** From the switch on everything went as hoped: the images came up, answered, and lost nothing. */
  predicate WentWell(o: Outcome, named: bool) {
    named && o.switch == Started && o.ready == Ready && NothingLost(o.before, o.after)
  }

  /** What the tool expects to go wrong after the switch: the images do not come up or do not
      answer, the count is refused, or something was lost. */
  predicate WentWrong(o: Outcome, named: bool) {
    !o.switch.Interrupted?
    && (o.switch.Broken? || !named || o.ready == NotReady
        || (o.ready == Ready && !o.after.CountRaised? && !NothingLost(o.before, o.after)))
  }

  lemma PreservedIff(before: Counts, after: Counting)
    ensures after.Counted? ==> (NothingLost(before, after) <==> CountsPreserved(before, after.counts))
  {
    if after.Counted? && CountsPreserved(before, after.counts) {
      forall k | k in before && before[k] > 0 ensures k in after.counts && before[k] <= after.counts[k] {
        assert (if k in after.counts then after.counts[k] else 0) >= before[k];
      }
    }
  }

  /** The four ways on from the switch. */
  lemma ExitIff(o: Outcome, named: bool)
    ensures var exit := AfterSwitch(o, named);
      (exit.Restoring? <==> WentWrong(o, named))
      && (exit.Completing? <==> WentWell(o, named) && o.written)
      && (exit.Unrecorded? <==> WentWell(o, named) && !o.written)
      && (exit.Abandoning? <==> !WentWrong(o, named) && !WentWell(o, named))
      && !exit.BeforeSwitch?
  {
    hide CountsPreserved, NothingLost;
    PreservedIff(o.before, o.after);
    if !o.after.Counted? { NeverLostUncounted(o.before, o.after); }
  }

  lemma NeverLostUncounted(before: Counts, after: Counting)
    ensures NothingLost(before, after) ==> after.Counted?
  {}

  /** The new entry leads from what ran before, under its snapshot, to the target. */
  predicate Records(e: Entry, shipped: Option<string> -> Version, m: Machine, t: Target, stamp: string) {
    e.fromVersion == (if m.file.appVersion.Some? then m.file.appVersion.value else shipped(SourcesOf(m)))
    && e.fromRevision == m.file.revision && e.previousRoot == SourcesOf(m) && e.previousTag == Snapshot(stamp)
    && (e.toVersion, e.toRevision, e.root, e.tag) == (t.version, t.revision, t.root, t.tag) && !e.rolledBack
  }

  /** The release directory in use, if the file names one that is there. */
  function SourcesOf(m: Machine): Option<string> {
    match m.file.root
    case Some(root) => if root in m.releases then Some(root) else None
    case None => None
  }

  /** An update succeeds exactly when every stage went well and, unless it is forced, the target
      differs from what the file says is installed; a target that does not differ is not needed.
      After a success the images just built run, the file names the target and its tag, the tag
      names those images, the target's sources are in use, the snapshot keeps what ran before,
      and the history ends with an entry for it and keeps nine more at most. */
  lemma UpdateSucceedsIff(shipped: Option<string> -> Version, m: Machine, c: Command)
    requires c.Update? && c.target.tag != Snapshot(c.stamp)
    ensures var (m', result) := Do(shipped, m, c);
      var t, o := c.target, c.outcome;
      var fetched := o.prepared && t.root !in m.releases;
      var same := m.file.revision == Some(t.revision) && m.file.appVersion == Some(t.version);
      (result == NotNeeded <==> fetched && same && !c.force)
      && (result == Succeeded <==>
          fetched && (c.force || !same) && o.healthy && o.build.Built? && o.backup
          && o.tagging == BothTagged && WentWell(o, true) && o.written)
      && result != NothingToUndo
      && (result == Succeeded ==> Installs(shipped, m, m', c))
  {
    hide CountsPreserved, NothingLost, Records, SourcesOf, VersionOf, RootOf, Tail;
    var t, o := c.target, c.outcome;
    ExitIff(o, true);
    NewEntryRecords(shipped, m, t, c.stamp);
    TailKeeps(m.file.history, NewEntry(shipped, m, t, c.stamp));
  }

  ghost predicate Installs(shipped: Option<string> -> Version, m: Machine, m': Machine, c: Command)
    requires c.Update? && c.outcome.build.Built?
  {
    var t, built := c.target, c.outcome.build.images;
    m'.running == built && Usable(m', t.tag) && ImagesOf(m', t.tag) == built
    && Usable(m', Snapshot(c.stamp)) && ImagesOf(m', Snapshot(c.stamp)) == m.running
    && m'.releases == m.releases + {t.root}
    && m'.file.appVersion == Some(t.version) && m'.file.revision == Some(t.revision)
    && m'.file.root == Some(t.root) && m'.file.imageTag == Some(t.tag)
    && KeptWith(m.file.history, m'.file.history)
    && Records(m'.file.history[|m'.file.history| - 1], shipped, m, t, c.stamp)
  }

  /** The new history has one entry more at its end, and of the old ones all, or the last nine. */
  ghost predicate KeptWith(before: seq<Entry>, now: seq<Entry>) {
    now != [] && |now| == (if |before| <= 9 then |before| + 1 else 10)
    && now[..|now| - 1] == before[|before| - (|now| - 1)..]
  }

  lemma TailKeeps(history: seq<Entry>, e: Entry)
    ensures KeptWith(history, Tail(history + [e])) && Tail(history + [e])[|Tail(history + [e])| - 1] == e
  {}

  lemma NewEntryRecords(shipped: Option<string> -> Version, m: Machine, t: Target, stamp: string)
    ensures Records(NewEntry(shipped, m, t, stamp), shipped, m, t, stamp)
  {}

  /** A rollback undoes the last entry that is not undone, and succeeds exactly when there is one,
      its sources are there, its tag names images, and every stage went well. Then those images
      run, the file says of version, revision, sources and tag what the entry says was there
      before, and the entry is marked; nothing is removed and no tag moves. */
  lemma RollbackMeans(m: Machine, o: Outcome, i: nat)
    requires i < |m.file.history| && !m.file.history[i].rolledBack
    requires forall j :: i < j < |m.file.history| ==> m.file.history[j].rolledBack
    ensures var (m', result) := DoRollback(m, o);
      var e := m.file.history[i];
      (result == Succeeded <==>
        (e.previousRoot == None || e.previousRoot.value in m.releases) && o.prepared && o.healthy && o.backup
        && WentWell(o, Usable(m, e.previousTag)) && o.written)
      && (result == Succeeded || result == Failed)
      && m' == m.(running := m'.running, file := m'.file)
      && (result == Succeeded ==>
            m'.running == ImagesOf(m, e.previousTag)
            && m'.file ==
               File(Some(e.fromVersion), e.fromRevision, e.previousRoot, Some(e.previousTag), m'.file.history)
            && m'.file.history == m.file.history[..i] + [e.(rolledBack := true)] + m.file.history[i + 1..])
  {
    hide CountsPreserved, NothingLost;
    LastLive(m.file.history, i);
    ExitIff(o, Usable(m, m.file.history[i].previousTag));
  }

  lemma {:induction false} LastLive(history: seq<Entry>, i: nat)
    requires i < |history| && !history[i].rolledBack && forall j :: i < j < |history| ==> history[j].rolledBack
    ensures Candidate(history) == Some(i) && CandidateIndex(history) == i
  {
    if i < |history| - 1 { LastLive(history[..|history| - 1], i); }
  }

  /** A tag that the command neither builds nor takes as its snapshot names what it named. */
  lemma OtherTagsStay(shipped: Option<string> -> Version, m: Machine, c: Command, tag: Tag)
    requires c.Update? ==> tag != c.target.tag && tag != Snapshot(c.stamp)
    ensures var m' := Do(shipped, m, c).0; NamedBy(m', tag) == NamedBy(m, tag)
  {
    hide CountsPreserved, FileAfterUpdate, FileAfterRollback, AfterBuild, AfterTagging, Ran, NamedBy, AfterSwitch,
      Candidate;
    match c
    case Update(_, t, stamp, o) =>
      var built := AfterBuild(m, t.tag, o.build);
      var tagged := AfterTagging(built, stamp, o.tagging);
      BuildKeepsOthers(m, t.tag, o.build, tag);
      TaggingKeepsOthers(built, stamp, o.tagging, tag);
      RanTwiceKeepsTags(tagged, t.tag, o.switch, Snapshot(stamp), o.restore);
      SameTags(m, Do(shipped, m, c).0, tag);
      SameTags(built, Do(shipped, m, c).0, tag);
      SameTags(tagged, Do(shipped, m, c).0, tag);
    case Rollback(o) =>
      if Candidate(m.file.history).Some? {
        var e := m.file.history[CandidateIndex(m.file.history)];
        RanTwiceKeepsTags(m, e.previousTag, o.switch, TagOf(m.file), o.restore);
      }
      SameTags(m, Do(shipped, m, c).0, tag);
  }

  lemma BuildKeepsOthers(m: Machine, built: Tag, b: Build, tag: Tag)
    requires tag != built
    ensures NamedBy(AfterBuild(m, built, b), tag) == NamedBy(m, tag)
  {}

  lemma TaggingKeepsOthers(m: Machine, stamp: string, t: Tagging, tag: Tag)
    requires tag != Snapshot(stamp)
    ensures NamedBy(AfterTagging(m, stamp, t), tag) == NamedBy(m, tag)
  {}

  lemma RanTwiceKeepsTags(m: Machine, a: Tag, up: Up, b: Tag, again: Up)
    ensures var once := Ran(m, a, up); var twice := Ran(once, b, again);
      once == m.(running := once.running) && twice == m.(running := twice.running)
  {}

  lemma SameTags(m: Machine, n: Machine, tag: Tag)
    ensures n.backendTags == m.backendTags && n.webTags == m.webTags ==> NamedBy(n, tag) == NamedBy(m, tag)
  {}

  /** What a build leaves under the target's tag: the images built, or of a failed one those that
      were finished, the others as before. */
  lemma BuildLeaves(m: Machine, tag: Tag, b: Build)
    ensures var m' := AfterBuild(m, tag, b);
      var backend := if b.Built? then Some(b.images.backend) else b.backend;
      var web := if b.Built? then Some(b.images.web) else b.web;
      (forall x :: x in m'.backendTags <==> x in m.backendTags || (x == tag && backend.Some?))
      && (forall x :: x in m'.webTags <==> x in m.webTags || (x == tag && web.Some?))
      && (backend.Some? ==> m'.backendTags[tag] == backend.value) && (web.Some? ==> m'.webTags[tag] == web.value)
      && (backend.None? ==> m'.backendTags == m.backendTags) && (web.None? ==> m'.webTags == m.webTags)
      && m' == m.(backendTags := m'.backendTags, webTags := m'.webTags)
  {}

  /** An update leaves the target's sources on disk exactly when it went well to the end, even if
      it then cannot write the state file; sources that were there already it removes. */
  lemma SourcesLeft(shipped: Option<string> -> Version, m: Machine, c: Command)
    requires c.Update? && c.target.tag != Snapshot(c.stamp)
    ensures var m', t, o := Do(shipped, m, c).0, c.target, c.outcome;
      var same := m.file.revision == Some(t.revision) && m.file.appVersion == Some(t.version);
      m'.releases ==
        if !o.prepared then m.releases
        else if t.root in m.releases then m.releases - {t.root}
        else if (c.force || !same) && o.healthy && o.build.Built? && o.backup && o.tagging == BothTagged
          && WentWell(o, true) then m.releases + {t.root}
        else m.releases
  {
    hide CountsPreserved, NothingLost, FileAfterUpdate;
    ExitIff(c.outcome, true);
  }

  /** An update whose snapshot fails stops there, and the snapshot's tag names the backend that was
      running, if that half was done. */
  lemma HalfTagged(shipped: Option<string> -> Version, m: Machine, c: Command)
    requires c.Update? && c.outcome.tagging != BothTagged && c.target.tag != Snapshot(c.stamp)
    requires c.outcome.prepared && c.outcome.healthy && c.outcome.build.Built? && c.outcome.backup
    requires c.target.root !in m.releases && (c.force || m.file.revision != Some(c.target.revision))
    ensures var (m', result) := Do(shipped, m, c);
      var snapshot, half := Snapshot(c.stamp), c.outcome.tagging.BackendTagged?;
      result == Failed && m' == m.(backendTags := m'.backendTags, webTags := m'.webTags)
      && (snapshot in m'.webTags <==> snapshot in m.webTags)
      && (snapshot in m'.backendTags <==> snapshot in m.backendTags || half)
      && (half ==> m'.backendTags[snapshot] == m.running.backend)
  {}

  /** A rollback that went wrong after the switch, in a way the tool expects, restarts the file's
      tag, or without one the local images. */
  lemma RestartLeaves(m: Machine, o: Outcome, i: nat)
    requires i < |m.file.history| && !m.file.history[i].rolledBack
    requires forall j :: i < j < |m.file.history| ==> m.file.history[j].rolledBack
    requires var e := m.file.history[i];
      RootThere(m, e.previousRoot) && o.prepared && o.healthy && o.backup && WentWrong(o, Usable(m, e.previousTag))
    ensures var m' := DoRollback(m, o).0;
      var tag := match m.file.imageTag case Some(named) => named case None => Named("local");
      m' == m.(running := m'.running)
      && (!o.restore.Started? ==> m'.running == o.restore.left)
      && (o.restore.Started? && Usable(m, tag) ==> m'.running == ImagesOf(m, tag))
  {
    hide CountsPreserved, NothingLost;
    LastLive(m.file.history, i);
    ExitIff(o, Usable(m, m.file.history[i].previousTag));
  }

  // The ideal: a stack of installations, and the history that never forgets.

  datatype Installed = Installed(version: Version, revision: Option<string>, root: Option<string>, images: Images)

  function Present(shipped: Option<string> -> Version, m: Machine): Installed {
    Installed(VersionOf(shipped, m), m.file.revision, RootOf(m), m.running)
  }

  datatype Ideal = Ideal(stack: seq<Installed>, full: seq<Entry>)

  function Follow(shipped: Option<string> -> Version, i: Ideal, m: Machine, c: Command): Ideal {
    if !Do(shipped, m, c).1.Succeeded? then i
    else match c
      case Update(_, t, stamp, _) => Ideal(i.stack + [Present(shipped, m)], i.full + [NewEntry(shipped, m, t, stamp)])
      case Rollback(_) =>
        if i.stack == [] || Candidate(i.full).None? then i
        else Ideal(i.stack[..|i.stack| - 1], Marked(i.full, CandidateIndex(i.full)))
  }

  function Live(history: seq<Entry>): seq<Entry> {
    if history == [] then []
    else Live(history[..|history| - 1]) + if history[|history| - 1].rolledBack then [] else [history[|history| - 1]]
  }

  /** The entry leads back to the installation: the file fields, the sources on disk, and
      through its snapshot the images. */
  predicate LeadsTo(m: Machine, e: Entry, r: Installed) {
    e.fromVersion == r.version && e.fromRevision == r.revision && e.previousRoot == r.root && RootThere(m, r.root)
    && e.previousTag.Snapshot? && Usable(m, e.previousTag) && ImagesOf(m, e.previousTag) == r.images
  }

  predicate Follows(e: Entry, next: Entry) {
    next.fromVersion == e.toVersion && next.fromRevision == Some(e.toRevision) && next.previousRoot == Some(e.root)
  }

  predicate Describes(e: Entry, m: Machine) {
    m.file.appVersion == Some(e.toVersion) && m.file.revision == Some(e.toRevision) && RootOf(m) == Some(e.root)
  }

  /** Each entry not undone starts where the one before it ended, and the last one is current. */
  ghost predicate Chained(live: seq<Entry>, m: Machine) {
    (forall k :: 0 < k < |live| ==> Follows(live[k - 1], live[k]))
    && (live != [] ==> Describes(live[|live| - 1], m))
  }

  ghost predicate Mirrors(m: Machine, i: Ideal) {
    m.file.history == Tail(i.full) && |Live(i.full)| == |i.stack|
    && forall k :: 0 <= k < |i.stack| ==> LeadsTo(m, Live(i.full)[k], i.stack[k])
  }

  ghost predicate Faithful(m: Machine, i: Ideal) {
    Mirrors(m, i) && Chained(Live(i.full), m)
  }

  /** The clock gives each update a stamp and a directory of its own, and builds use release tags. */
  predicate Fresh(m: Machine, c: Command) {
    c.Update? ==>
      Snapshot(c.stamp) !in m.backendTags && Snapshot(c.stamp) !in m.webTags && c.target.tag.Named?
        && c.target.root !in m.releases
  }

  // Histories.

  lemma LiveAppend(history: seq<Entry>, e: Entry)
    requires !e.rolledBack
    ensures Live(history + [e]) == Live(history) + [e]
  {
    assert (history + [e])[..|history + [e]| - 1] == history;
  }

  lemma {:induction false} CandidateLive(history: seq<Entry>)
    ensures Candidate(history).Some? <==> Live(history) != []
    ensures Candidate(history).Some? ==>
      history[CandidateIndex(history)] == Live(history)[|Live(history)| - 1]
      && Live(Marked(history, CandidateIndex(history))) == Live(history)[..|Live(history)| - 1]
  {
    if history != [] {
      var front, last := history[..|history| - 1], history[|history| - 1];
      CandidateLive(front);
      if last.rolledBack {
        if Candidate(front).Some? {
          MarkFront(history, CandidateIndex(front));
        }
      } else {
        var marked := Marked(history, |history| - 1);
        assert marked[..|marked| - 1] == front;
      }
    }
  }

  lemma MarkFront(history: seq<Entry>, i: nat)
    requires i < |history| - 1 && history[|history| - 1].rolledBack
    ensures Live(Marked(history, i)) == Live(Marked(history[..|history| - 1], i))
  {
    var marked := Marked(history, i);
    assert marked[..|marked| - 1] == Marked(history[..|history| - 1], i);
    assert marked[|marked| - 1] == history[|history| - 1];
  }

  /** The candidate of the kept history is that of the full one, if it is still kept at all. */
  lemma TailCandidate(full: seq<Entry>)
    ensures Candidate(Tail(full)).Some? <==> Candidate(full).Some? && CandidateIndex(full) + KEPT >= |full|
    ensures Candidate(Tail(full)).Some? ==>
      CandidateIndex(Tail(full)) + |full| == CandidateIndex(full) + |Tail(full)|
      && Tail(full)[CandidateIndex(Tail(full))] == full[CandidateIndex(full)]
      && Marked(Tail(full), CandidateIndex(Tail(full))) == Tail(Marked(full, CandidateIndex(full)))
  {
    hide Candidate, Marked;
    var kept, cut := Tail(full), |full| - |Tail(full)|;
    assert full == full[..cut] + kept;
    CandidateConcat(full[..cut], kept);
    if Candidate(kept).Some? {
      MarkTail(full, cut + CandidateIndex(kept));
    } else if Candidate(full).Some? {
      CandidateInside(full[..cut]);
    }
  }

  lemma CandidateInside(history: seq<Entry>)
    ensures Candidate(history).Some? ==> Candidate(history).value < |history|
  {
    if Candidate(history).Some? { assert CandidateIndex(history) < |history|; }
  }

  lemma {:induction false} CandidateConcat(head: seq<Entry>, kept: seq<Entry>)
    ensures Candidate(head + kept) ==
      if Candidate(kept).Some? then Some(|head| + Candidate(kept).value) else Candidate(head)
  {
    if kept == [] {
      assert head + kept == head;
    } else {
      CandidateConcat(head, kept[..|kept| - 1]);
      assert (head + kept)[..|head + kept| - 1] == head + kept[..|kept| - 1];
    }
  }

  lemma MarkTail(full: seq<Entry>, i: nat)
    requires |full| - |Tail(full)| <= i < |full|
    ensures Tail(Marked(full, i)) == Marked(Tail(full), i - (|full| - |Tail(full)|))
  {}

  lemma {:induction false} NoCandidate(history: seq<Entry>)
    ensures Candidate(history).None? <==> forall j :: 0 <= j < |history| ==> history[j].rolledBack
  {
    if history != [] { NoCandidate(history[..|history| - 1]); }
  }

  lemma TailTwice(full: seq<Entry>, e: Entry)
    ensures Tail(Tail(full) + [e]) == Tail(full + [e])
  {
    if |full| >= KEPT {
      assert Tail(full + [e]) == full[|full| + 1 - KEPT..] + [e];
    }
  }

  // One command.

  /** The snapshot names what it named before. */
  predicate Keeps(a: Machine, b: Machine, tag: Tag) {
    Usable(a, tag) ==> Usable(b, tag) && ImagesOf(b, tag) == ImagesOf(a, tag)
  }

  lemma PiecesKeep(m: Machine, e: Tag, tag: Tag, stamp: string, b: Build, t: Tagging)
    requires e.Snapshot? && tag.Named?
    ensures Keeps(m, AfterBuild(m, tag, b), e)
    ensures e != Snapshot(stamp) ==> Keeps(m, AfterTagging(m, stamp, t), e)
  {}

  lemma RanKeeps(m: Machine, e: Tag, tag: Tag, up: Up)
    ensures Keeps(m, Ran(m, tag, up), e)
  {}

  lemma SnapshotsStay(shipped: Option<string> -> Version, m: Machine, c: Command, e: Entry, r: Installed)
    requires Fresh(m, c) && LeadsTo(m, e, r)
    ensures LeadsTo(Do(shipped, m, c).0, e, r)
  {
    hide Do;
    ReleasesStay(shipped, m, c);
    match c
    case Update(force, t, stamp, o) => UpdateKeeps(shipped, m, c, e.previousTag);
    case Rollback(o) => RollbackKeeps(shipped, m, c, e.previousTag);
  }

  /** With a directory of its own, no command removes another release. */
  lemma ReleasesStay(shipped: Option<string> -> Version, m: Machine, c: Command)
    requires Fresh(m, c)
    ensures m.releases <= Do(shipped, m, c).0.releases
  {
    hide CountsPreserved, FileAfterUpdate, FileAfterRollback, AfterSwitch, Candidate, CandidateIndex;
  }

  lemma RollbackKeeps(shipped: Option<string> -> Version, m: Machine, c: Command, e: Tag)
    requires c.Rollback?
    ensures Keeps(m, Do(shipped, m, c).0, e)
  {
    hide CountsPreserved, FileAfterRollback, AfterSwitch, Candidate, CandidateIndex;
  }

  lemma UpdateKeeps(shipped: Option<string> -> Version, m: Machine, c: Command, e: Tag)
    requires c.Update? && Fresh(m, c) && e.Snapshot? && Usable(m, e)
    ensures Keeps(m, Do(shipped, m, c).0, e)
  {
    hide CountsPreserved, FileAfterUpdate, AfterBuild, AfterTagging, Ran, RanWell, AfterSwitch;
    var o := c.outcome;
    var built := AfterBuild(m, c.target.tag, o.build);
    var tagged := AfterTagging(built, c.stamp, o.tagging);
    var switched := Ran(tagged, c.target.tag, o.switch);
    PiecesKeep(m, e, c.target.tag, c.stamp, o.build, o.tagging);
    PiecesKeep(built, e, c.target.tag, c.stamp, o.build, o.tagging);
    RanKeeps(tagged, e, c.target.tag, o.switch);
    RanKeeps(switched, e, Snapshot(c.stamp), o.restore);
  }

  /** A command that does not succeed leaves the state file, and so the history, as it was. */
  lemma FailureKeepsFile(shipped: Option<string> -> Version, m: Machine, c: Command)
    ensures !Do(shipped, m, c).1.Succeeded? ==> Do(shipped, m, c).0.file == m.file
  {
    hide CountsPreserved, Candidate, CandidateIndex, FileAfterUpdate, FileAfterRollback, AfterSwitch;
  }

  lemma UpdateFaithful(shipped: Option<string> -> Version, m: Machine, i: Ideal, c: Command)
    requires c.Update? && Fresh(m, c) && Faithful(m, i) && Do(shipped, m, c).1.Succeeded?
    ensures Faithful(Do(shipped, m, c).0, Follow(shipped, i, m, c))
  {
    hide Do, Tail, LeadsTo, Candidate, NewEntry, FileAfterUpdate;
    var m', i' := Do(shipped, m, c).0, Follow(shipped, i, m, c);
    var e := NewEntry(shipped, m, c.target, c.stamp);
    UpdateWrites(shipped, m, c);
    LiveAppend(i.full, e);
    TailTwice(i.full, e);
    forall k | 0 <= k < |i'.stack| ensures LeadsTo(m', Live(i'.full)[k], i'.stack[k]) {
      if k < |i.stack| {
        assert LeadsTo(m, Live(i.full)[k], i.stack[k]);
        SnapshotsStay(shipped, m, c, Live(i.full)[k], i.stack[k]);
      }
    }
    if Live(i.full) != [] { assert Follows(Live(i.full)[|Live(i.full)| - 1], e); }
  }

  lemma UpdateWrites(shipped: Option<string> -> Version, m: Machine, c: Command)
    requires c.Update? && Fresh(m, c) && Do(shipped, m, c).1.Succeeded?
    ensures var (m', e) := (Do(shipped, m, c).0, NewEntry(shipped, m, c.target, c.stamp));
      m'.file == FileAfterUpdate(shipped, m, c.target, c.stamp)
      && m'.file.history == Tail(m.file.history + [e]) && Describes(e, m') && !e.rolledBack
      && LeadsTo(m', e, Present(shipped, m))
      && (forall before :: Describes(before, m) ==> Follows(before, e))
  {
    hide CountsPreserved, Tail;
  }

  lemma RollbackFaithful(shipped: Option<string> -> Version, m: Machine, i: Ideal, c: Command)
    requires c.Rollback? && Faithful(m, i) && Do(shipped, m, c).1.Succeeded?
    ensures i.stack != []
    ensures var (m', i') := (Do(shipped, m, c).0, Follow(shipped, i, m, c));
      Faithful(m', i') && i'.stack == i.stack[..|i.stack| - 1] && Present(shipped, m') == i.stack[|i.stack| - 1]
  {
    hide Do, Tail, LeadsTo, Candidate, CandidateIndex, Marked, Live;
    RollbackWrites(shipped, m, c);
    TailCandidate(i.full);
    CandidateLive(i.full);
    var m', i' := Do(shipped, m, c).0, Follow(shipped, i, m, c);
    var n := |i.stack| - 1;
    var e := Live(i.full)[n];
    assert LeadsTo(m, e, i.stack[n]);
    RollbackRestores(shipped, m, c, e, i.stack[n]);
    forall k | 0 <= k < n ensures LeadsTo(m', Live(i'.full)[k], i'.stack[k]) {
      assert LeadsTo(m, Live(i.full)[k], i.stack[k]);
      SnapshotsStay(shipped, m, c, Live(i.full)[k], i.stack[k]);
    }
    if n > 0 { assert Follows(Live(i.full)[n - 1], Live(i.full)[n]); }
  }

  lemma RollbackWrites(shipped: Option<string> -> Version, m: Machine, c: Command)
    requires c.Rollback? && Do(shipped, m, c).1.Succeeded?
    ensures Candidate(m.file.history).Some?
    ensures var m', j := Do(shipped, m, c).0, CandidateIndex(m.file.history);
      m'.file == FileAfterRollback(m.file, j) && m'.releases == m.releases
      && Usable(m, m.file.history[j].previousTag) && m'.running == ImagesOf(m, m.file.history[j].previousTag)
  {
    hide CountsPreserved, Marked;
  }

  lemma RollbackRestores(shipped: Option<string> -> Version, m: Machine, c: Command, e: Entry, r: Installed)
    requires c.Rollback? && Do(shipped, m, c).1.Succeeded? && LeadsTo(m, e, r)
    requires Candidate(m.file.history).Some? && e == m.file.history[CandidateIndex(m.file.history)]
    ensures Present(shipped, Do(shipped, m, c).0) == r
    ensures var m' := Do(shipped, m, c).0;
      m'.file.history == Marked(m.file.history, CandidateIndex(m.file.history))
      && forall before :: Follows(before, e) ==> Describes(before, m')
  {
    hide Do, Candidate, CandidateIndex, Marked;
    RollbackWrites(shipped, m, c);
  }

  lemma StepFaithful(shipped: Option<string> -> Version, m: Machine, i: Ideal, c: Command)
    requires Fresh(m, c) && Faithful(m, i)
    ensures Faithful(Do(shipped, m, c).0, Follow(shipped, i, m, c))
  {
    hide Do, Tail, LeadsTo, Live, Candidate;
    if !Do(shipped, m, c).1.Succeeded? {
      FailureKeepsFile(shipped, m, c);
      ReleasesStay(shipped, m, c);
      forall k | 0 <= k < |i.stack| ensures LeadsTo(Do(shipped, m, c).0, Live(i.full)[k], i.stack[k]) {
        assert LeadsTo(m, Live(i.full)[k], i.stack[k]);
        SnapshotsStay(shipped, m, c, Live(i.full)[k], i.stack[k]);
      }
    } else if c.Update? {
      UpdateFaithful(shipped, m, i, c);
    } else {
      RollbackFaithful(shipped, m, i, c);
    }
  }

  // Runs.

  function Run(shipped: Option<string> -> Version, m: Machine, cs: seq<Command>): Machine {
    if cs == [] then m else Do(shipped, Run(shipped, m, cs[..|cs| - 1]), cs[|cs| - 1]).0
  }

  function Ideally(shipped: Option<string> -> Version, m: Machine, cs: seq<Command>): Ideal {
    if cs == [] then Ideal([], m.file.history)
    else
      var front := cs[..|cs| - 1];
      Follow(shipped, Ideally(shipped, m, front), Run(shipped, m, front), cs[|cs| - 1])
  }

  predicate FreshRun(shipped: Option<string> -> Version, m: Machine, cs: seq<Command>) {
    forall n :: 0 <= n < |cs| ==> Fresh(Run(shipped, m, cs[..n]), cs[n])
  }

  lemma FreshFront(shipped: Option<string> -> Version, m: Machine, cs: seq<Command>)
    requires FreshRun(shipped, m, cs) && cs != []
    ensures FreshRun(shipped, m, cs[..|cs| - 1]) && Fresh(Run(shipped, m, cs[..|cs| - 1]), cs[|cs| - 1])
  {
    var front := cs[..|cs| - 1];
    forall n | 0 <= n < |front| ensures Fresh(Run(shipped, m, front[..n]), front[n]) {
      assert front[..n] == cs[..n];
    }
  }

  /** From a machine never updated, every interleaving of updates and rollbacks, successful
      or not, forced or not, mirrors the stack, and the entries not undone form a chain. */
  lemma {:induction false} RunFaithful(shipped: Option<string> -> Version, m: Machine, cs: seq<Command>)
    requires m.file.history == [] && FreshRun(shipped, m, cs)
    ensures Faithful(Run(shipped, m, cs), Ideally(shipped, m, cs))
  {
    hide Do, Follow, Fresh, FreshRun;
    if cs != [] {
      var front := cs[..|cs| - 1];
      FreshFront(shipped, m, cs);
      RunFaithful(shipped, m, front);
      StepFaithful(shipped, Run(shipped, m, front), Ideally(shipped, m, front), cs[|cs| - 1]);
    }
  }

  function Height(shipped: Option<string> -> Version, m: Machine, cs: seq<Command>, n: nat): nat
    requires n <= |cs|
  {
    |Ideally(shipped, m, cs[..n]).stack|
  }

  lemma Unfold(shipped: Option<string> -> Version, m: Machine, cs: seq<Command>, n: nat)
    requires n < |cs|
    ensures Run(shipped, m, cs[..n + 1]) == Do(shipped, Run(shipped, m, cs[..n]), cs[n]).0
    ensures Ideally(shipped, m, cs[..n + 1]) ==
      Follow(shipped, Ideally(shipped, m, cs[..n]), Run(shipped, m, cs[..n]), cs[n])
  {
    assert cs[..n + 1][..n] == cs[..n];
  }

  lemma FreshPrefix(shipped: Option<string> -> Version, m: Machine, cs: seq<Command>, n: nat)
    requires FreshRun(shipped, m, cs) && n <= |cs|
    ensures FreshRun(shipped, m, cs[..n])
  {
    forall j | 0 <= j < n ensures Fresh(Run(shipped, m, cs[..n][..j]), cs[..n][j]) {
      assert cs[..n][..j] == cs[..j];
    }
  }

  function Bottom(stack: seq<Installed>, h: nat): seq<Installed> {
    if h <= |stack| then stack[..h] else stack
  }

  /** As long as the stack stays higher, its lower part is untouched. */
  lemma {:induction false} LowerPartStays(shipped: Option<string> -> Version, m: Machine, cs: seq<Command>, a: nat,
                                          b: nat, h: nat)
    requires m.file.history == [] && FreshRun(shipped, m, cs) && a <= b <= |cs|
    requires forall n :: a <= n <= b ==> Height(shipped, m, cs, n) >= h
    ensures Bottom(Ideally(shipped, m, cs[..b]).stack, h) == Bottom(Ideally(shipped, m, cs[..a]).stack, h)
    decreases b - a
  {
    hide Do, Run, Ideally, FreshRun;
    assert Height(shipped, m, cs, a) >= h && Height(shipped, m, cs, b) >= h;
    if a < b {
      assert Height(shipped, m, cs, b - 1) >= h;
      LowerPartStays(shipped, m, cs, a, b - 1, h);
      Unfold(shipped, m, cs, b - 1);
    }
  }

  /** Rollback is the last-in-first-out inverse of update: when a rollback succeeds, the
      version, revision, source root and images are those from just before the update it
      matches, whatever succeeded, failed or was forced and undone in between. */
  lemma RollbackUndoesUpdate(shipped: Option<string> -> Version, m: Machine, cs: seq<Command>, u: nat, r: nat)
    requires m.file.history == [] && FreshRun(shipped, m, cs) && u < r < |cs|
    requires cs[u].Update? && Do(shipped, Run(shipped, m, cs[..u]), cs[u]).1.Succeeded?
    requires cs[r].Rollback? && Do(shipped, Run(shipped, m, cs[..r]), cs[r]).1.Succeeded?
    requires Height(shipped, m, cs, r) == Height(shipped, m, cs, u) + 1
    requires forall n :: u < n <= r ==> Height(shipped, m, cs, n) > Height(shipped, m, cs, u)
    ensures Present(shipped, Run(shipped, m, cs[..r + 1])) == Present(shipped, Run(shipped, m, cs[..u]))
    ensures Describes(LastOf(Run(shipped, m, cs[..u + 1]).file.history), Run(shipped, m, cs[..u + 1]))
  {
    hide Do, Run, Ideally, FreshRun, Present, Fresh, Faithful, Describes;
    var h := Height(shipped, m, cs, u);
    FreshPrefix(shipped, m, cs, u);
    FreshPrefix(shipped, m, cs, r);
    RunFaithful(shipped, m, cs[..u]);
    RunFaithful(shipped, m, cs[..r]);
    Unfold(shipped, m, cs, u);
    Unfold(shipped, m, cs, r);
    assert Height(shipped, m, cs, u + 1) == h + 1;
    LowerPartStays(shipped, m, cs, u + 1, r, h + 1);
    RollbackFaithful(shipped, Run(shipped, m, cs[..r]), Ideally(shipped, m, cs[..r]), cs[r]);
    FreshAt(shipped, m, cs, u);
    UpdateWrites(shipped, Run(shipped, m, cs[..u]), cs[u]);
    LastKept(Run(shipped, m, cs[..u]).file.history,
      NewEntry(shipped, Run(shipped, m, cs[..u]), cs[u].target, cs[u].stamp));
  }

  lemma FreshAt(shipped: Option<string> -> Version, m: Machine, cs: seq<Command>, n: nat)
    requires FreshRun(shipped, m, cs) && n < |cs|
    ensures Fresh(Run(shipped, m, cs[..n]), cs[n])
  {}

  function LastOf(history: seq<Entry>): Entry {
    if history == [] then Entry("0", None, None, Named(""), "0", "", "", Named(""), true) else history[|history| - 1]
  }

  lemma LastKept(history: seq<Entry>, e: Entry)
    ensures LastOf(Tail(history + [e])) == e
  {}

  /** Rollback finds something to undo exactly when one of the last ten updates is not undone;
      with all ten undone it refuses, however many older updates are still in place. */
  lemma UndoableIff(shipped: Option<string> -> Version, m: Machine, cs: seq<Command>, o: Outcome)
    requires m.file.history == [] && FreshRun(shipped, m, cs)
    ensures var full := Ideally(shipped, m, cs).full;
      DoRollback(Run(shipped, m, cs), o).1.NothingToUndo? <==>
        forall j :: 0 <= j < |full| && j + KEPT >= |full| ==> full[j].rolledBack
  {
    hide Do, Run, Ideally, FreshRun, CountsPreserved, LeadsTo, Candidate, CandidateIndex;
    RunFaithful(shipped, m, cs);
    var full := Ideally(shipped, m, cs).full;
    NoCandidate(Tail(full));
    var cut := |full| - |Tail(full)|;
    assert forall j :: 0 <= j < |Tail(full)| ==> Tail(full)[j] == full[cut + j];
    assert forall j :: cut <= j < |full| ==> full[j] == Tail(full)[j - cut];
  }

  // What runs after a failure.

  /** How an update leaves; a build that succeeded makes its tag usable. */
  function UpdateExit(m: Machine, t: Target, o: Outcome): Exit {
    if !o.prepared || t.root in m.releases || !o.healthy || o.build.BuildFailed? || !o.backup || !o.tagging.BothTagged?
    then BeforeSwitch else AfterSwitch(o, true)
  }

  function RollbackExit(m: Machine, o: Outcome): Exit {
    var i := Candidate(m.file.history);
    if i.None? then BeforeSwitch
    else
      var e := m.file.history[CandidateIndex(m.file.history)];
      if !RootThere(m, e.previousRoot) || !o.prepared || !o.healthy || !o.backup
      then BeforeSwitch else AfterSwitch(o, Usable(m, e.previousTag))
  }

  /** What runs after starting a tag that names `named`, if it names anything, from `running`. */
  function LeftRunning(up: Up, named: Option<Images>, running: Images): Images {
    if !up.Started? then up.left else if named.Some? then named.value else running
  }

  function NamedBy(m: Machine, tag: Tag): Option<Images> {
    if Usable(m, tag) then Some(ImagesOf(m, tag)) else None
  }

  /** After a failed update the images from before run if and only if it failed before the
      switch, or in a way it expects and the restart brought them back, or what the switch left
      happens to be the same. A forced build that took their tag does not matter. */
  lemma FailedUpdateRestoresIff(shipped: Option<string> -> Version, m: Machine, c: Command)
    requires c.Update? && Fresh(m, c) && Do(shipped, m, c).1.Failed?
    ensures var m', o, exit := Do(shipped, m, c).0, c.outcome, UpdateExit(m, c.target, c.outcome);
      m'.running == m.running <==>
        exit.BeforeSwitch?
        || (exit.Restoring? && LeftRunning(o.restore, Some(m.running), m.running) == m.running)
        || ((exit.Abandoning? || exit.Unrecorded?)
           && LeftRunning(o.switch, Some(o.build.images), m.running) == m.running)
  {
    hide FileAfterUpdate, CountsPreserved;
  }

  /** After a failed rollback they run if and only if it failed before the switch, or in a way it
      expects and restarting the tag in the state file brought them back, or the switch left them. */
  lemma FailedRollbackRestoresIff(m: Machine, o: Outcome)
    requires DoRollback(m, o).1.Failed?
    ensures Candidate(m.file.history).Some?
    ensures var m', exit := DoRollback(m, o).0, RollbackExit(m, o);
      var e := m.file.history[CandidateIndex(m.file.history)];
      var left := LeftRunning(o.switch, NamedBy(m, e.previousTag), m.running);
      m'.running == m.running <==>
        exit.BeforeSwitch?
        || (exit.Restoring? && LeftRunning(o.restore, NamedBy(m, TagOf(m.file)), left) == m.running)
        || ((exit.Abandoning? || exit.Unrecorded?) && left == m.running)
  {
    hide FileAfterRollback, CountsPreserved, Candidate;
  }

  /** The count after the switch takes too long: the new images stay up, nothing is restored,
      the state file still describes the old release, and the new one's sources are removed. */
  lemma UnansweredCountAbandons(shipped: Option<string> -> Version, m: Machine, c: Command)
    requires c.Update? && Fresh(m, c) && c.outcome.prepared && (c.force || !AlreadyInstalled(m, c.target))
    requires c.outcome.healthy && c.outcome.build.Built? && c.outcome.backup && c.outcome.tagging.BothTagged?
    requires c.outcome.switch.Started? && c.outcome.ready.Ready? && c.outcome.after.CountRaised?
    ensures var (m', result) := Do(shipped, m, c);
      result.Failed? && m'.running == c.outcome.build.images && m'.file == m.file && c.target.root !in m'.releases
  {}

  /** The same in a rollback leaves the older images running under a file that names the newer ones. */
  lemma UnansweredCountAbandonsRollback(m: Machine, o: Outcome)
    requires Candidate(m.file.history).Some? && o.prepared && o.healthy && o.backup
    requires var e := m.file.history[CandidateIndex(m.file.history)];
      RootThere(m, e.previousRoot) && Usable(m, e.previousTag)
    requires o.switch.Started? && o.ready.Ready? && o.after.CountRaised?
    ensures var (m', result) := DoRollback(m, o);
      result.Failed? && m'.running == ImagesOf(m, m.file.history[CandidateIndex(m.file.history)].previousTag)
        && m'.file == m.file
  {
    hide Candidate;
  }

  /** A directory of the same name, as from an update in the same second, is removed; if it
      holds the sources in use, they fall back to the project's own. */
  lemma SameDirectoryIsRemoved(shipped: Option<string> -> Version, m: Machine, c: Command)
    requires c.Update? && c.outcome.prepared && c.target.root in m.releases
    ensures var (m', result) := Do(shipped, m, c);
      result.Failed? && m' == m.(releases := m.releases - {c.target.root})
      && (RootOf(m') == RootOf(m) <==> RootOf(m) != Some(c.target.root))
  {}

  /** A forced rebuild of the running release, then refused, leaves the file's tag on other images. */
  lemma ForcedRebuildTakesTag(shipped: Option<string> -> Version, m: Machine, c: Command)
    requires c.Update? && c.force && Fresh(m, c) && Some(c.target.tag) == m.file.imageTag
    requires UpdateExit(m, c.target, c.outcome).Restoring? && c.outcome.restore.Started?
    requires c.outcome.build.images != m.running
    ensures var m' := Do(shipped, m, c).0;
      m'.file == m.file && m'.running == m.running && ImagesOf(m', TagOf(m'.file)) != m'.running
  {
    hide CountsPreserved;
  }

  // The tool itself, which keeps the file, the tags and the containers in place.

  class Bootstrap {
    const shipped: Option<string> -> Version
    var file: File
    var releases: set<string>
    var backendTags: map<Tag, Image>
    var webTags: map<Tag, Image>
    var running: Images

    constructor (shipped: Option<string> -> Version, start: Machine)
      ensures this.shipped == shipped && Current() == start
    {
      this.shipped := shipped;
      file, releases, running := start.file, start.releases, start.running;
      backendTags, webTags := start.backendTags, start.webTags;
    }

    function Current(): Machine
      reads this
    {
      Machine(file, releases, backendTags, webTags, running)
    }

    method ComposeUp(tag: Tag, up: Up) returns (ok: bool)
      modifies this`running
      ensures Current() == Ran(old(Current()), tag, up) && ok == RanWell(old(Current()), tag, up)
    {
      if !up.Started? {
        running := up.left;
        return false;
      }
      if tag !in backendTags || tag !in webTags { return false; }
      running := Images(backendTags[tag], webTags[tag]);
      return true;
    }

    /** Tags the backend's image, then the web's; either step can fail. */
    method TagRunningImages(stamp: string, t: Tagging) returns (ok: bool)
      modifies this`backendTags, this`webTags
      ensures Current() == AfterTagging(old(Current()), stamp, t) && ok == t.BothTagged?
    {
      if t.NoneTagged? { return false; }
      backendTags := backendTags[Snapshot(stamp) := running.backend];
      if t.BackendTagged? { return false; }
      webTags := webTags[Snapshot(stamp) := running.web];
      return true;
    }

    method BuildImages(tag: Tag, b: Build) returns (ok: bool)
      modifies this`backendTags, this`webTags
      ensures Current() == AfterBuild(old(Current()), tag, b) && ok == b.Built?
    {
      match b
      case Built(images) =>
        backendTags, webTags := backendTags[tag := images.backend], webTags[tag := images.web];
        return true;
      case BuildFailed(backend, web) =>
        if backend.Some? { backendTags := backendTags[tag := backend.value]; }
        if web.Some? { webTags := webTags[tag := web.value]; }
        return false;
    }

    /** Waits until ready, then counts and compares. */
    method Verify(o: Outcome) returns (exit: Exit)
      requires o.switch.Started?
      ensures exit == AfterSwitch(o, true)
    {
      match o.ready {
        case ReadinessRaised => return Abandoning;
        case NotReady => return Restoring;
        case Ready =>
      }
      if o.after.CountRaised? { return Abandoning; }
      if o.after.CountRefused? { return Restoring; }
      var kept := AssertCountsPreserved(o.before, o.after.counts);
      if !kept { return Restoring; }
      return if o.written then Completing else Unrecorded;
    }

    method CommandUpdate(force: bool, t: Target, stamp: string, o: Outcome) returns (result: Result)
      modifies this
      ensures (Current(), result) == DoUpdate(shipped, old(Current()), force, t, stamp, o)
    {
      hide CountsPreserved, AfterBuild, AfterTagging, Ran, Tail;
      if !o.prepared { return Failed; }
      if t.root in releases {
        releases := releases - {t.root};
        return Failed;
      }
      if !force && AlreadyInstalled(Current(), t) { return NotNeeded; }
      if !o.healthy { return Failed; }
      var built := BuildImages(t.tag, o.build);
      if !built || !o.backup { return Failed; }
      var tagged := TagRunningImages(stamp, o.tagging);
      if !tagged { return Failed; }
      var switched := ComposeUp(t.tag, o.switch);
      if o.switch.Interrupted? { return Failed; }
      var exit := Restoring;
      if switched { exit := Verify(o); }
      if exit.Restoring? { var _ := ComposeUp(Snapshot(stamp), o.restore); }
      if exit.Restoring? || exit.Abandoning? { return Failed; }
      var history := file.history + [
        Entry(VersionOf(shipped, Current()), file.revision, RootOf(Current()), Snapshot(stamp),
          t.version, t.revision, t.root, t.tag, false)];
      releases := releases + {t.root};
      if exit.Unrecorded? { return Failed; }
      file := File(Some(t.version), Some(t.revision), Some(t.root), Some(t.tag), Tail(history));
      return Succeeded;
    }

    /** Searches the history from the end for an entry that is not undone. */
    method FindCandidate(history: seq<Entry>) returns (found: Option<nat>)
      ensures found == Candidate(history)
    {
      var i := |history|;
      assert history[..i] == history;
      while i > 0
        invariant 0 <= i <= |history|
        invariant Candidate(history) == Candidate(history[..i])
      {
        i := i - 1;
        assert history[..i + 1][..i] == history[..i];
        if !history[i].rolledBack { return Some(i); }
      }
      return None;
    }

    method CommandRollback(o: Outcome) returns (result: Result)
      modifies this
      ensures (Current(), result) == DoRollback(old(Current()), o)
    {
      hide CountsPreserved, Ran, Candidate;
      var found := FindCandidate(file.history);
      if found.None? { return NothingToUndo; }
      var i := CandidateIndex(file.history);
      var e := file.history[i];
      if !RootThere(Current(), e.previousRoot) || !o.prepared || !o.healthy || !o.backup { return Failed; }
      var switched := ComposeUp(e.previousTag, o.switch);
      if o.switch.Interrupted? { return Failed; }
      var exit := Restoring;
      if switched { exit := Verify(o); }
      if exit.Restoring? { var _ := ComposeUp(TagOf(file), o.restore); }
      if !exit.Completing? { return Failed; }
      file := File(Some(e.fromVersion), e.fromRevision, e.previousRoot, Some(e.previousTag),
        file.history[i := e.(rolledBack := true)]);
      return Succeeded;
    }
  }
}
