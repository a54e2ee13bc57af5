/** Cleaning the cache beside the running engine: the idle test, the collection of the keys to keep and each
    deletion are steps of their own, and the mutex is free in between. When that is safe, exactly, and three
    ways in which it is not. */
module EngineCleanup {
  import opened Basics
  import opened EngineSteps
  import opened EngineInvariants

  // ---------------------------------------------------------------- the machine

  /** The test housekeeping makes before it cleans. */
  predicate Idle(w: World) { w.queued == {} && w.building == 0 }

  /** The keys cleanCache decides to keep. */
  function KeepKeys(w: World): set<Key> { set p | p in w.clips :: w.clips[p].key }

  /** The cache directories: saved layouts, and remuxed files. */
  datatype Dir = Index | Remux

  datatype CacheFile = CacheFile(dir: Dir, key: Key)

  /** The cached files behind a layout. */
  function FilesFor(k: Key, remux: bool): set<CacheFile> {
    {CacheFile(Index, k)} + if remux then {CacheFile(Remux, k)} else {}
  }

  function FilesOf(l: Layout): set<CacheFile> { FilesFor(KeyOf(l), l.remux) }

  /** Where housekeeping is: it found the engine idle, or it deletes files whose key is not in keep, from the
      directories it has listed. */
  datatype Phase = Rest | Tested | Deleting(keep: set<Key>, unlisted: set<Dir>, listed: set<CacheFile>)

  /** A build that put a file in the cache. */
  datatype Written = Written(job: Job, dir: Dir)

  /** The engine, the files in the cache, what builds wrote since the last idle test, and where housekeeping is. */
  datatype Cache = Cache(w: World, disk: set<CacheFile>, written: set<Written>, phase: Phase)

  /** An engine step; a build putting its remuxed file in place, or saving its layout in the index; the idle
      test; collecting the keys; reading a directory, or failing to; and of the files listed: deleting one,
      passing over one that is kept, failing to delete one. */
  datatype Act = Work(step: Step) | Write(job: Job, dir: Dir) | Test | Collect
               | List(dir: Dir) | Unread(dir: Dir) | Delete(file: CacheFile) | Pass(file: CacheFile)
               | Stuck(file: CacheFile) | Stop

  /** Apply finds in the index only what is there, with the file its ranges refer to. */
  predicate FromDisk(file: seq<Entry>, views: map<string, View>, disk: set<CacheFile>) {
    forall p :: p in Want(file) && p in views && views[p].indexed.Some? ==> FilesOf(views[p].indexed.value) <= disk
  }

  /** What an engine step has to do with the files: a build that succeeds has written those of its layout. */
  predicate Filed(x: Cache, s: Step) {
    match s
    case Apply(file, views) => FromDisk(file, views, x.disk)
    case Finish(j, seen) => BuildFrom(j, seen).Built? ==> AllWritten(x, j, BuildFrom(j, seen).l.remux)
    case _ => true
  }

  predicate AllWritten(x: Cache, j: Job, remux: bool) {
    Written(j, Index) in x.written && (remux ==> Written(j, Remux) in x.written)
  }

  ghost predicate Moves(x: Cache, a: Act, x': Cache) {
    match a
    case Work(s) => Next(x.w, s, x'.w) && Filed(x, s) && x' == x.(w := x'.w)
    case Write(j, d) =>
      && j in x.w.inflight && j.key.Key?
      && x' == x.(disk := x.disk + {CacheFile(d, j.key)}, written := x.written + {Written(j, d)})
    case Test => x.phase == Rest && Idle(x.w) && x' == x.(phase := Tested, written := {})
    case Collect => x.phase == Tested && x' == x.(phase := Deleting(KeepKeys(x.w), {Index, Remux}, {}))
    case List(d) => CanRead(x.phase, d) && x' == x.(phase := Read(x.phase, d, ListOf(x.disk, d)))
    case Unread(d) => CanRead(x.phase, d) && x' == x.(phase := Read(x.phase, d, {}))
    case Delete(f) => CanTake(x.phase, f) && f.key !in x.phase.keep
      && x' == x.(disk := x.disk - {f}, phase := Take(x.phase, f))
    case Pass(f) => CanTake(x.phase, f) && f.key in x.phase.keep && x' == x.(phase := Take(x.phase, f))
    case Stuck(f) => CanTake(x.phase, f) && f.key !in x.phase.keep && x' == x.(phase := Take(x.phase, f))
    case Stop => Done(x.phase) && x' == x.(phase := Rest)
  }

  function ListOf(disk: set<CacheFile>, d: Dir): set<CacheFile> { set f | f in disk && f.dir == d }

  /** The index is read first, and a directory only when the one before it is done. */
  predicate CanRead(ph: Phase, d: Dir) {
    ph.Deleting? && ph.listed == {} && d in ph.unlisted && (d == Remux ==> Index !in ph.unlisted)
  }

  function Read(ph: Phase, d: Dir, listed: set<CacheFile>): Phase
    requires ph.Deleting?
  {
    Deleting(ph.keep, ph.unlisted - {d}, listed)
  }

  predicate CanTake(ph: Phase, f: CacheFile) { ph.Deleting? && f in ph.listed }

  function Take(ph: Phase, f: CacheFile): Phase
    requires ph.Deleting?
  {
    Deleting(ph.keep, ph.unlisted, ph.listed - {f})
  }

  predicate Done(ph: Phase) { ph.Deleting? && ph.unlisted == {} && ph.listed == {} }

  // ---------------------------------------------------------------- what a cleanup takes

  /** The cleanup under way is going to delete f: it is not kept, and listed or in a directory still to be read. */
  predicate Doomed(x: Cache, f: CacheFile) {
    x.phase.Deleting? && f.key !in x.phase.keep && (f in x.phase.listed || f.dir in x.phase.unlisted)
  }

  /** The files of a layout are there, and will stay. */
  predicate Safe(x: Cache, l: Layout) {
    forall f :: f in FilesOf(l) ==> f in x.disk && !Doomed(x, f)
  }

  /** The files of every served clip are there, and will stay. */
  predicate AllSafe(x: Cache) {
    forall p :: p in x.w.sink ==> Safe(x, x.w.sink[p].layout)
  }

  /** Some served clip's files are gone. */
  predicate Lost(x: Cache) {
    exists p :: p in x.w.sink && !(FilesOf(x.w.sink[p].layout) <= x.disk)
  }

  predicate Sweeps(a: Act) { a.List? || a.Delete? || a.Pass? }

  /** The rest of a cleanup, with nothing else going on and nothing failing. */
  ghost predicate Sweep(xs: seq<Cache>, acts: seq<Act>) {
    && |xs| == |acts| + 1 && xs[0].phase.Deleting? && Done(xs[|acts|].phase)
    && forall t :: 0 <= t < |acts| ==> Sweeps(acts[t]) && Moves(xs[t], acts[t], xs[t + 1])
  }

  function Survivors(x: Cache): set<CacheFile> { set f | f in x.disk && !Doomed(x, f) }

  lemma SweepStep(x: Cache, a: Act, x': Cache)
    requires Moves(x, a, x') && Sweeps(a)
    ensures x'.w == x.w && x'.phase.Deleting? && Survivors(x') == Survivors(x)
  {
    hide KeepKeys, Next, Filed, FilesFor, Idle;
    assert forall f :: f in Survivors(x') <==> f in Survivors(x);
  }

  lemma {:induction false} SweepTo(xs: seq<Cache>, acts: seq<Act>, t: nat)
    requires Sweep(xs, acts) && t <= |acts|
    ensures xs[t].w == xs[0].w && Survivors(xs[t]) == Survivors(xs[0])
  {
    hide Moves, Survivors, Done;
    if t > 0 {
      SweepTo(xs, acts, t - 1);
      assert Moves(xs[t - 1], acts[t - 1], xs[t - 1 + 1]);
      SweepStep(xs[t - 1], acts[t - 1], xs[t]);
    }
  }

  lemma SafeSurvives(x: Cache)
    ensures AllSafe(x) <==> forall p :: p in x.w.sink ==> FilesOf(x.w.sink[p].layout) <= Survivors(x)
  {
    hide Doomed, FilesOf;
    forall p | p in x.w.sink
      ensures Safe(x, x.w.sink[p].layout) <==> FilesOf(x.w.sink[p].layout) <= Survivors(x)
    {
    }
  }

  /** Doomed is no figure of speech: a cleanup left to itself leaves exactly the files that are not, and takes
      one of a served clip if and only if the served clips were not all safe. */
  lemma SweepExactly(xs: seq<Cache>, acts: seq<Act>)
    requires Sweep(xs, acts)
    ensures xs[|acts|].disk == Survivors(xs[0])
    ensures AllSafe(xs[0]) <==> !Lost(xs[|acts|])
  {
    hide Moves, AllSafe, FilesOf;
    SweepTo(xs, acts, |acts|);
    SafeSurvives(xs[0]);
    assert Survivors(xs[|acts|]) == xs[|acts|].disk;
  }

  /** The next act of a cleanup left to itself. */
  lemma SweepNext(x: Cache) returns (a: Act, x': Cache)
    requires x.phase.Deleting? && !Done(x.phase)
    ensures Sweeps(a) && Moves(x, a, x') && x'.phase.Deleting?
    ensures if x.phase.listed == {} then |x'.phase.unlisted| < |x.phase.unlisted|
            else x'.phase.unlisted == x.phase.unlisted && |x'.phase.listed| < |x.phase.listed|
  {
    hide ListOf;
    if x.phase.listed != {} {
      var f :| f in x.phase.listed;
      x' := x.(phase := Take(x.phase, f));
      if f.key in x.phase.keep { a := Pass(f); } else { a, x' := Delete(f), x'.(disk := x.disk - {f}); }
    } else {
      var d := if Index in x.phase.unlisted then Index else Remux;
      SomeDir(x.phase.unlisted);
      a, x' := List(d), x.(phase := Read(x.phase, d, ListOf(x.disk, d)));
    }
  }

  /** And every cleanup can be left to itself. */
  lemma {:induction false} SweepThere(x: Cache) returns (xs: seq<Cache>, acts: seq<Act>)
    requires x.phase.Deleting?
    ensures Sweep(xs, acts) && xs[0] == x
    decreases |x.phase.unlisted|, |x.phase.listed|
  {
    hide Moves, Done, Sweeps;
    if Done(x.phase) {
      return [x], [];
    }
    var a, x' := SweepNext(x);
    var rest, others := SweepThere(x');
    xs, acts := [x] + rest, [a] + others;
  }

  lemma SomeDir(s: set<Dir>)
    ensures s != {} ==> Index in s || Remux in s
  {
    if s != {} {
      var d :| d in s;
      assert d == Index || d == Remux;
    }
  }

  // ---------------------------------------------------------------- an idle engine

  /** The engine is idle exactly when no work is left. */
  lemma IdleRests(w: World)
    requires Inv(w)
    ensures Idle(w) <==> Measure(w) == 0
  {
    assert |multiset(w.queued)| == |w.queue| + |w.received|;
  }

  /** An idle engine has no pending clip, and nothing moves until the next Apply. */
  lemma IdleMeans(w: World)
    requires Inv(w) && Idle(w)
    ensures Settled(w) && (forall p :: p in w.clips ==> w.clips[p].status != Pending)
    ensures forall s, w' :: Next(w, s, w') ==> s.Apply?
  {
    hide Inv, Measure, Next;
    IdleRests(w);
    RestSettles(w);
    forall s, w' | Next(w, s, w')
      ensures s.Apply?
    {
      if !s.Apply? { WorkersProgress(w, s, w'); }
    }
  }

  lemma NothingMoves(ws: seq<World>, steps: seq<Step>, i: nat)
    requires Run(ws, steps) && i < |steps| && Idle(ws[i])
    ensures steps[i].Apply?
  {
    hide Inv, Settled, Next;
    RunKeeps(ws, steps, i);
    IdleMeans(ws[i]);
    assert Next(ws[i], steps[i], ws[i + 1]);
  }

  /** Only a pending clip can be served with a layout whose key is not its own. */
  lemma OlderOnlyPending(w: World, p: string)
    requires Inv(w) && p in w.sink
    ensures p in w.clips && w.clips[p].ready == Some(w.sink[p].layout)
    ensures KeyOf(w.sink[p].layout) != w.clips[p].key ==> w.clips[p].status == Pending
  {
    hide QueueOk, JobsOk, NotLost;
    assert LocalOk(w.clips[p], SinkAt(w, p));
  }

  /** A cleanup with no Apply between the idle test and the last deletion leaves the files of every served
      clip alone: whatever else happened since is nothing. */
  lemma CleanupSafe(ws: seq<World>, steps: seq<Step>, i: nat, j: nat)
    requires Run(ws, steps) && i <= j < |ws| && Idle(ws[i])
    requires forall k :: i <= k < j ==> !steps[k].Apply?
    ensures ws[j] == ws[i]
    ensures forall p, f :: p in ws[j].sink && f in FilesOf(ws[j].sink[p].layout) ==> f.key in KeepKeys(ws[i])
  {
    hide Inv, Settled, Next;
    RunKeeps(ws, steps, i);
    IdleMeans(ws[i]);
    if i < j { NothingMoves(ws, steps, i); }
    forall p | p in ws[i].sink
      ensures KeyOf(ws[i].sink[p].layout) in KeepKeys(ws[i])
    {
      OlderOnlyPending(ws[i], p);
    }
  }

  // ---------------------------------------------------------------- one cleanup

  predicate Stocked(w: World, disk: set<CacheFile>) {
    forall p :: p in w.sink ==> FilesOf(w.sink[p].layout) <= disk
  }

  /** One cleanup from just after the idle test on, whatever the engine does meanwhile: acts[c] collects the
      keys, and everything deleted is deleted after that. Served clips have their files at the test. */
  ghost predicate Episode(xs: seq<Cache>, acts: seq<Act>, c: nat) {
    && |xs| == |acts| + 1 && c < |acts|
    && xs[0].phase == Tested && Idle(xs[0].w) && Inv(xs[0].w) && Stocked(xs[0].w, xs[0].disk) && xs[0].written == {}
    && (forall t :: 0 <= t < |acts| ==> Moves(xs[t], acts[t], xs[t + 1]))
    && forall t :: 0 <= t < |acts| ==> (acts[t].Collect? <==> t == c) && !acts[t].Stop? && !acts[t].Test?
  }

  /** A clip waits for its build and is served meanwhile under a key that is not kept. */
  predicate OlderServed(w: World, p: string) {
    p in w.clips && w.clips[p].status == Pending && w.clips[p].ready.Some?
      && KeyOf(w.clips[p].ready.value) !in KeepKeys(w)
  }

  /** Applying c finds its new layout in the index. */
  predicate Loads(st: ClipState, c: Clip, v: View) {
    && v.input.Some? && v.origin.Some? && v.indexed.Some?
    && !(st.key == ClipKey(c, v.origin.value) && st.status != Failed && (st.ready.None? || v.dataValid))
  }

  /** What can be checked as the cleanup goes: no older layout is served when the keys are collected, and
      no layout is published afterwards with a file that is gone or about to be deleted. */
  predicate Careful(xs: seq<Cache>, acts: seq<Act>, c: nat)
    requires |xs| == |acts| + 1 && c < |acts|
  {
    && (forall p :: p in xs[c].w.clips ==> !OlderServed(xs[c].w, p))
    && forall t :: c < t < |acts| ==> NothingNew(xs[t], acts[t])
  }

  /** This act publishes no layout with a file that is gone or going to be deleted: neither an Apply that loads
      one from the index, nor the end of a build that is still wanted. */
  predicate NothingNew(x: Cache, a: Act) {
    match a
    case Work(Apply(file, views)) =>
      forall p :: p in Want(file) && p in views && Loads(StateAt(x.w, p), Want(file)[p], views[p]) ==>
        Safe(x, views[p].indexed.value)
    case Work(Finish(j, seen)) =>
      BuildFrom(j, seen).Built? && j.path in x.w.clips && x.w.clips[j.path].key == j.key ==>
        Safe(x, BuildFrom(j, seen).l)
    case _ => true
  }

  // ---------------------------------------------------------------- how what is served changes

  lemma ServedFrom(st: ClipState, out: Option<Served>, c: Clip, v: View)
    requires LocalOk(st, out) && ViewOk(c, v)
    ensures var l := ApplyOne(st, out, c, v);
      if Loads(st, c, v) then l.out.Some? && l.out.value.layout == v.indexed.value
      else l.out.Some? ==> out.Some? && l.out.value.layout == out.value.layout
  {
  }

  /** What Apply leaves served at p is what was served before, or was loaded. */
  lemma ApplyServes(w: World, file: seq<Entry>, views: map<string, View>, w': World, p: string)
    requires ClipsOk(w) && ViewsOk(file, views) && Applied(w, file, views, w')
    ensures p in w'.sink ==> p in Want(file)
    ensures p in Want(file) ==> p in views
    ensures p in Want(file) && Loads(StateAt(w, p), Want(file)[p], views[p]) ==>
      p in w'.sink && w'.sink[p].layout == views[p].indexed.value
        && KeyOf(w'.sink[p].layout) == ClipKey(Want(file)[p], views[p].origin.value)
    ensures p in w'.sink && !Loads(StateAt(w, p), Want(file)[p], views[p]) ==>
      p in w.sink && w'.sink[p].layout == w.sink[p].layout
  {
    hide LocalOk, ApplyOne, Queued;
    AppliedOk(w, file, views, p);
    assert SinkAt(w', p) == AppliedAt(w, Want(file), views, p).out;
    if p in Want(file) {
      ZeroOk();
      ServedFrom(StateAt(w, p), SinkAt(w, p), Want(file)[p], views[p]);
    }
  }

  /** What a worker step leaves served is what was served before, or what it just built. */
  lemma WorkerServes(w: World, s: Step, w': World, p: string)
    requires Next(w, s, w') && !s.Apply? && p in w'.sink
    ensures (p in w.sink && w'.sink[p] == w.sink[p])
         || (s.Finish? && p == s.job.path && BuildFrom(s.job, s.seen).Built? && p in w.clips
         && w.clips[p].key == s.job.key
             && w'.sink[p].layout == BuildFrom(s.job, s.seen).l)
  {
    if s.Finish? { BuildKeepsKey(s.job, s.seen); }
    hide BuildFrom;
  }

  lemma FinishServes(w: World, s: Step, w': World)
    requires Next(w, s, w') && s.Finish? && BuildFrom(s.job, s.seen).Built?
    requires s.job.path in w.clips && w.clips[s.job.path].key == s.job.key
    ensures s.job.path in w'.sink && w'.sink[s.job.path].layout == BuildFrom(s.job, s.seen).l
  {
    BuildKeepsKey(s.job, s.seen);
    hide BuildFrom;
  }

  // ---------------------------------------------------------------- before the collection

  /** What builds wrote is there until the deletions begin. */
  predicate WrittenOk(x: Cache) {
    x.phase == Tested ==> forall s :: s in x.written ==> CacheFile(s.dir, s.job.key) in x.disk
  }

  predicate Calm(x: Cache) {
    Inv(x.w) && WrittenOk(x) && AllSafe(x)
  }

  lemma InvKept(x: Cache, a: Act, x': Cache)
    requires Inv(x.w) && Moves(x, a, x')
    ensures Inv(x'.w)
  {
    hide Inv, Next, Filed, Idle;
    if a.Work? { StepKeeps(x.w, a.step, x'.w); }
  }

  /** No engine step endangers anything unless it publishes what is about to be deleted. */
  lemma WorkStaysCalm(x: Cache, s: Step, x': Cache)
    requires Calm(x) && Moves(x, Work(s), x') && NothingNew(x, Work(s))
    ensures Calm(x')
  {
    hide Inv, Next, Filed, Safe, NothingNew, Loads, FilesOf, FilesFor;
    InvKept(x, Work(s), x');
    forall p | p in x'.w.sink
      ensures Safe(x', x'.w.sink[p].layout)
    {
      if s.Apply? {
        ApplyStaysCalm(x, s, x', p);
      } else {
        FinishStaysCalm(x, s, x', p);
      }
    }
  }

  /** Only the phase and the files decide what is safe. */
  lemma SameSafe(x: Cache, x': Cache, l: Layout)
    requires x'.phase == x.phase && x'.disk == x.disk
    ensures Safe(x', l) <==> Safe(x, l)
  {
    hide FilesOf;
  }

  lemma ApplyStaysCalm(x: Cache, s: Step, x': Cache, p: string)
    requires Calm(x) && Moves(x, Work(s), x') && s.Apply? && p in x'.w.sink && NothingNew(x, Work(s))
    ensures Safe(x', x'.w.sink[p].layout)
  {
    hide QueueOk, JobsOk, BuildsOk, ClipsOk, WrittenOk, Applied, ViewsOk, Safe, Doomed, FilesOf;
    ApplyServes(x.w, s.file, s.views, x'.w, p);
    SameSafe(x, x', x'.w.sink[p].layout);
  }

  lemma FinishStaysCalm(x: Cache, s: Step, x': Cache, p: string)
    requires Calm(x) && Moves(x, Work(s), x') && !s.Apply? && p in x'.w.sink && NothingNew(x, Work(s))
    ensures Safe(x', x'.w.sink[p].layout)
  {
    hide Inv, BuildFrom, Next, Safe, WrittenOk;
    WorkerServes(x.w, s, x'.w, p);
    SameSafe(x, x', x'.w.sink[p].layout);
  }

  lemma ActStaysCalm(x: Cache, a: Act, x': Cache)
    requires Calm(x) && Moves(x, a, x') && !a.Collect? && !a.Test? && !a.Stop? && NothingNew(x, a)
    ensures Calm(x')
  {
    hide Inv, Idle, NothingNew, WrittenOk, AllSafe;
    InvKept(x, a, x');
    match a {
      case Work(s) => WorkStaysCalm(x, s, x');
      case Write(j, d) => WriteStaysCalm(x, j, d, x');
      case _ => CleanStaysCalm(x, a, x');
    }
  }

  lemma WriteStaysCalm(x: Cache, j: Job, d: Dir, x': Cache)
    requires Calm(x) && Moves(x, Write(j, d), x')
    ensures WrittenOk(x') && AllSafe(x')
  {
    hide Inv, FilesFor;
    forall p | p in x'.w.sink
      ensures Safe(x', x'.w.sink[p].layout)
    {
      assert Safe(x, x.w.sink[p].layout);
    }
  }

  /** The cleanup itself takes only what was doomed, and dooms nothing more. */
  lemma CleanStaysCalm(x: Cache, a: Act, x': Cache)
    requires Calm(x) && Moves(x, a, x') && (a.List? || a.Unread? || a.Delete? || a.Pass? || a.Stuck?)
    ensures WrittenOk(x') && AllSafe(x')
  {
    hide Inv, FilesFor;
    forall p | p in x'.w.sink
      ensures Safe(x', x'.w.sink[p].layout)
    {
      assert Safe(x, x.w.sink[p].layout);
    }
  }

  /** Collecting the keys endangers exactly the clips served under an older key. */
  lemma CollectStaysCalm(x: Cache, x': Cache)
    requires Calm(x) && x.phase == Tested && Moves(x, Collect, x')
    ensures (forall p :: p in x.w.clips ==> !OlderServed(x.w, p)) <==> Calm(x')
    ensures (forall p :: p in x.w.clips ==> !OlderServed(x.w, p)) <==> AllSafe(x')
  {
    hide Inv, KeepKeys, WrittenOk;
    CollectWritten(x, x');
    forall p
      ensures p in x.w.sink ==> p in x.w.clips && (KeyOf(x.w.sink[p].layout) !in KeepKeys(x.w) ==> OlderServed(x.w, p))
      ensures p in x.w.clips && OlderServed(x.w, p) ==> p in x.w.sink && KeyOf(x.w.sink[p].layout) !in KeepKeys(x.w)
      ensures p in x.w.sink ==> (KeyOf(x.w.sink[p].layout) in KeepKeys(x.w) <==> Safe(x', x.w.sink[p].layout))
    {
      if p in x.w.sink {
        OlderOnlyPending(x.w, p);
        OwnKeyKept(x.w, p);
        assert Safe(x, x.w.sink[p].layout);
        CollectedSafe(x, x', x.w.sink[p].layout);
      }
      if p in x.w.clips && x.w.clips[p].ready.Some? { ReadyIsServed(x.w, p); }
    }
  }

  lemma CollectWritten(x: Cache, x': Cache)
    requires WrittenOk(x) && x.phase == Tested && Moves(x, Collect, x')
    ensures WrittenOk(x')
  {
    hide KeepKeys, FilesFor;
  }

  lemma CollectedSafe(x: Cache, x': Cache, l: Layout)
    requires Safe(x, l) && x.phase == Tested && Moves(x, Collect, x')
    ensures KeyOf(l) in KeepKeys(x.w) <==> Safe(x', l)
  {
    hide KeepKeys;
    assert CacheFile(Index, KeyOf(l)) in FilesOf(l);
    assert forall f :: f in FilesOf(l) ==> f.key == KeyOf(l);
  }

  lemma OwnKeyKept(w: World, p: string)
    requires p in w.clips
    ensures w.clips[p].key in KeepKeys(w)
  {
  }

  lemma ReadyIsServed(w: World, p: string)
    requires Inv(w) && p in w.clips && w.clips[p].ready.Some?
    ensures p in w.sink && w.sink[p].layout == w.clips[p].ready.value
  {
    hide QueueOk, JobsOk, NotLost;
    assert LocalOk(w.clips[p], SinkAt(w, p));
  }

  // ---------------------------------------------------------------- the theorem

  lemma {:induction false} CalmBefore(xs: seq<Cache>, acts: seq<Act>, c: nat, t: nat)
    requires Episode(xs, acts, c) && t <= c
    ensures Calm(xs[t]) && xs[t].phase == Tested
  {
    hide Inv, Idle, Stocked, WrittenOk, Calm, Moves;
    if t == 0 {
      CalmAtTest(xs[0]);
    } else {
      CalmBefore(xs, acts, c, t - 1);
      assert Moves(xs[t - 1], acts[t - 1], xs[t - 1 + 1]);
      CalmParts(xs[t - 1]);
      NothingDoomed(xs[t - 1], acts[t - 1], xs[t]);
      ActStaysCalm(xs[t - 1], acts[t - 1], xs[t]);
      PhaseStays(xs[t - 1], acts[t - 1], xs[t]);
    }
  }

  /** Until the keys are collected, what is published has its files. */
  lemma NothingDoomed(x: Cache, a: Act, x': Cache)
    requires x.phase == Tested && WrittenOk(x) && Moves(x, a, x')
    ensures NothingNew(x, a)
  {
    hide FilesFor, BuildFrom, Next;
    if a.Work? && a.step.Finish? && BuildFrom(a.step.job, a.step.seen).Built? {
      BuildKeepsKey(a.step.job, a.step.seen);
      BuiltSafe(x, a.step.job, BuildFrom(a.step.job, a.step.seen).l);
    }
  }

  lemma BuiltSafe(x: Cache, j: Job, l: Layout)
    requires x.phase == Tested && WrittenOk(x) && AllWritten(x, j, l.remux) && KeyOf(l) == j.key
    ensures Safe(x, l)
  {
    assert l.remux ==> CacheFile(Written(j, Remux).dir, Written(j, Remux).job.key) in x.disk;
    assert CacheFile(Written(j, Index).dir, Written(j, Index).job.key) in x.disk;
  }

  lemma CalmAtTest(x: Cache)
    requires x.phase == Tested && Inv(x.w) && Stocked(x.w, x.disk) && x.written == {}
    ensures Calm(x)
  {
    hide Inv;
  }

  lemma PhaseStays(x: Cache, a: Act, x': Cache)
    requires Moves(x, a, x') && !a.Collect? && !a.Test? && !a.Stop?
    ensures if x.phase.Deleting? then x'.phase.Deleting? else x'.phase == x.phase
  {
    hide Next, Filed, ListOf, FilesFor;
  }

  lemma {:induction false} DeletingAfter(xs: seq<Cache>, acts: seq<Act>, c: nat, t: nat)
    requires Episode(xs, acts, c) && c < t < |xs|
    ensures Inv(xs[t].w) && xs[t].phase.Deleting?
  {
    hide Inv, Idle, Stocked, KeepKeys, Calm;
    assert Moves(xs[t - 1], acts[t - 1], xs[t - 1 + 1]);
    if t == c + 1 {
      CalmBefore(xs, acts, c, c);
      CalmParts(xs[c]);
    } else {
      DeletingAfter(xs, acts, c, t - 1);
      PhaseStays(xs[t - 1], acts[t - 1], xs[t]);
    }
    InvKept(xs[t - 1], acts[t - 1], xs[t]);
  }

  lemma CalmParts(x: Cache)
    requires Calm(x)
    ensures Inv(x.w) && WrittenOk(x) && AllSafe(x)
  {
    hide Inv, WrittenOk, AllSafe;
  }

  lemma {:induction false} CalmAfter(xs: seq<Cache>, acts: seq<Act>, c: nat, t: nat)
    requires Episode(xs, acts, c) && c < t < |xs| && Careful(xs, acts, c)
    ensures Calm(xs[t])
  {
    hide Inv, Idle, Stocked, KeepKeys, Calm, Moves, NothingNew, OlderServed;
    assert Moves(xs[t - 1], acts[t - 1], xs[t - 1 + 1]);
    if t == c + 1 {
      CalmBefore(xs, acts, c, c);
      CollectStaysCalm(xs[c], xs[t]);
    } else {
      CalmAfter(xs, acts, c, t - 1);
      DeletingAfter(xs, acts, c, t - 1);
      ActStaysCalm(xs[t - 1], acts[t - 1], xs[t]);
    }
  }

  /** An act that publishes what is gone or going to be deleted leaves that clip unsafe. */
  lemma NewIsUnsafe(x: Cache, a: Act, x': Cache)
    requires Inv(x.w) && Moves(x, a, x') && !NothingNew(x, a)
    ensures !AllSafe(x')
  {
    hide Applied, ViewsOk, BuildFrom, QueueOk, JobsOk, BuildsOk, ClipsOk, FinishBuild, Safe;
    if a.step.Apply? {
      var p :| p in Want(a.step.file) && p in a.step.views
        && Loads(StateAt(x.w, p), Want(a.step.file)[p], a.step.views[p])
               && !Safe(x, a.step.views[p].indexed.value);
      ApplyServes(x.w, a.step.file, a.step.views, x'.w, p);
      SameSafe(x, x', x'.w.sink[p].layout);
    } else {
      FinishServes(x.w, a.step, x'.w);
      SameSafe(x, x', x'.w.sink[a.step.job.path].layout);
    }
  }

  /** Beside a running engine a cleanup is safe exactly when it is careful: at every moment the files of every
      served clip are there and going to stay if and only if, when the keys were collected, no clip was waiting
      for its build while served under a key that was not among them, and afterwards nothing is published, by an
      Apply from the index or by the end of a build, with a file that is gone or is going to be deleted. */
  lemma CleanupExactly(xs: seq<Cache>, acts: seq<Act>, c: nat)
    requires Episode(xs, acts, c)
    ensures (forall t :: 0 <= t < |xs| ==> AllSafe(xs[t])) <==> Careful(xs, acts, c)
  {
    hide Inv, Idle, Stocked, KeepKeys, Calm, Moves, NothingNew, OlderServed, AllSafe;
    if Careful(xs, acts, c) {
      forall t | 0 <= t < |xs|
        ensures AllSafe(xs[t])
      {
        if t <= c { CalmBefore(xs, acts, c, t); } else { CalmAfter(xs, acts, c, t); }
        CalmParts(xs[t]);
      }
    }
    if forall t :: 0 <= t < |xs| ==> AllSafe(xs[t]) {
      CalmBefore(xs, acts, c, c);
      assert Moves(xs[c], acts[c], xs[c + 1]);
      CollectStaysCalm(xs[c], xs[c + 1]);
      forall t | c < t < |acts|
        ensures NothingNew(xs[t], acts[t])
      {
        assert Moves(xs[t], acts[t], xs[t + 1]);
        DeletingAfter(xs, acts, c, t);
        if !NothingNew(xs[t], acts[t]) { NewIsUnsafe(xs[t], acts[t], xs[t + 1]); }
      }
    }
  }

  // ---------------------------------------------------------------- careless cleanups

  const SOURCE := FileID("m.mkv", 1)
  const SHORT := Clip("a", "m.mkv", "a", 0, 10, 0)
  const LONG := Clip("a", "m.mkv", "a", 0, 20, 0)
  const SHORT_KEY := ClipKey(SHORT, SOURCE)
  const LONG_KEY := ClipKey(LONG, SOURCE)
  const SHORT_LAYOUT := Layout(SOURCE, 0, 10, "a", false)
  const LONG_LAYOUT := Layout(SOURCE, 0, 20, "a", true)

  /** One clip, ready and served; nothing to do. */
  const SERVING := START.(clips := map["a" := ClipState(SHORT, "m.mkv", SHORT_KEY, Ready, Some(SHORT_LAYOUT))],
                          sink := map["a" := Served(SHORT_LAYOUT, 0)])

  /** The clip's range was changed: the new one waits in the queue, the old one is served. */
  const WAITING := SERVING.(clips := map["a" := ClipState(LONG, "m.mkv", LONG_KEY, Pending, Some(SHORT_LAYOUT))],
                            queue := ["a"], queued := {"a"})

  /** The new range is served. */
  const CHANGED := START.(clips := map["a" := ClipState(LONG, "m.mkv", LONG_KEY, Ready, Some(LONG_LAYOUT))],
                          sink := map["a" := Served(LONG_LAYOUT, 0)])

  function Seeing(indexed: Option<Layout>): map<string, View> {
    map["a" := View(Some("m.mkv"), Some(SOURCE), true, indexed)]
  }

  function ApplyShort(): Step { Apply([Entry(SHORT, false)], Seeing(None)) }
  function ApplyLong(indexed: Option<Layout>): Step { Apply([Entry(LONG, false)], Seeing(indexed)) }

  lemma OneEntry(c: Clip)
    ensures Want([Entry(c, false)]) == map[c.path := c] && Rejected([Entry(c, false)]) == {}
  {
    assert [Entry(c, false)][..0] == [];
    assert Want([]) == map[] && Rejected([]) == {};
  }

  /** Applying a file of one new clip that is not in the index. */
  lemma FirstApply(w': World)
    requires w' == START.(clips := map["a" := ClipState(SHORT, "m.mkv", SHORT_KEY, Pending, None)], queue := ["a"],
      queued := {"a"})
    ensures Next(START, ApplyShort(), w')
  {
    OneEntry(SHORT);
    var file, views := [Entry(SHORT, false)], Seeing(None);
    assert Queued(START, file, views) == {"a"};
    assert w'.queue[|START.queue|..] == ["a"];
    assert multiset(["a"]) == multiset({"a"});
  }

  /** Applying a changed range that is not in the index. */
  lemma ChangeQueued()
    ensures Next(SERVING, ApplyLong(None), WAITING)
  {
    OneEntry(LONG);
    var file, views := [Entry(LONG, false)], Seeing(None);
    assert Queued(SERVING, file, views) == {"a"};
    assert WAITING.queue[|SERVING.queue|..] == ["a"];
    assert multiset(["a"]) == multiset({"a"});
  }

  /** Applying a changed range whose layout is in the index. */
  lemma ChangeLoaded()
    ensures Next(SERVING, ApplyLong(Some(LONG_LAYOUT)), CHANGED)
  {
    OneEntry(LONG);
    var file, views := [Entry(LONG, false)], Seeing(Some(LONG_LAYOUT));
    assert Queued(SERVING, file, views) == {};
    assert CHANGED.queue[|SERVING.queue|..] == [];
  }

  /** Building it. */
  lemma FirstBuild(w1: World, j: Job, seen: Seen) returns (w2: World, w3: World)
    requires w1 == START.(clips := map["a" := ClipState(SHORT, "m.mkv", SHORT_KEY, Pending, None)], queue := ["a"],
      queued := {"a"})
    requires j == Job("a", SHORT, "m.mkv", SHORT_KEY) && seen == Seen(true, Some(SOURCE), Some(false))
    ensures Next(w1, Receive, w2) && Next(w2, Begin("a"), w3) && Next(w3, Finish(j, seen), SERVING)
  {
    w2 := w1.(queue := [], received := multiset{"a"});
    w3 := w2.(queued := {}, received := multiset{}, building := 1, inflight := multiset{j});
    assert BuildFrom(j, seen) == Built(SHORT_LAYOUT) && SERVING == FinishBuild(w3, j, Built(SHORT_LAYOUT));
  }

  /** The idle state the cleanups below start from is reached from a new engine. */
  lemma ServingReached() returns (ws: seq<World>, steps: seq<Step>)
    ensures Run(ws, steps) && ws[|steps|] == SERVING && Idle(SERVING)
  {
    hide Next;
    var j := Job("a", SHORT, "m.mkv", SHORT_KEY);
    var seen := Seen(true, Some(SOURCE), Some(false));
    var w1 := START.(clips := map["a" := ClipState(SHORT, "m.mkv", SHORT_KEY, Pending, None)], queue := ["a"],
      queued := {"a"});
    FirstApply(w1);
    var w2, w3 := FirstBuild(w1, j, seen);
    ws, steps := [START, w1, w2, w3, SERVING], [ApplyShort(), Receive, Begin("a"), Finish(j, seen)];
  }

  lemma ServingOk()
    ensures Inv(SERVING)
  {
    hide Inv, Next;
    var ws, steps := ServingReached();
    RunKeeps(ws, steps, |steps|);
  }

  lemma OneKey(w: World)
    requires w.clips.Keys == {"a"}
    ensures KeepKeys(w) == {w.clips["a"].key}
  {
  }

  const SHORT_FILE := CacheFile(Index, SHORT_KEY)
  const LONG_FILE := CacheFile(Index, LONG_KEY)
  const LONG_REMUX := CacheFile(Remux, LONG_KEY)

  lemma TheFiles()
    ensures FilesOf(SHORT_LAYOUT) == {SHORT_FILE} && FilesOf(LONG_LAYOUT) == {LONG_FILE, LONG_REMUX}
    ensures SHORT_KEY != LONG_KEY && LONG_KEY.Key?
  {
  }

  /** Housekeeping found the engine idle. */
  function Found(disk: set<CacheFile>): Cache { Cache(SERVING, disk, {}, Tested) }

  /** It collected the keys, all of which are key. */
  function CollectedAt(x: Cache, key: Key): Cache { x.(phase := Deleting({key}, {Index, Remux}, {})) }

  lemma Starts(disk: set<CacheFile>)
    requires SHORT_FILE in disk
    ensures var x := Found(disk); Idle(x.w) && Inv(x.w) && Stocked(x.w, x.disk)
  {
    hide Inv;
    ServingOk();
    TheFiles();
  }

  lemma CollectsOne(x: Cache, key: Key)
    requires x.phase == Tested && x.w.clips.Keys == {"a"} && x.w.clips["a"].key == key
    ensures Moves(x, Collect, CollectedAt(x, key))
  {
    OneKey(x.w);
  }

  /** With key alone kept, the index entry of any other key goes. */
  lemma ListsAndDeletes(x: Cache, key: Key, f: CacheFile) returns (y: Cache, z: Cache)
    requires x == CollectedAt(x, key) && f in x.disk && f.dir == Index && f.key != key
    requires "a" in x.w.sink && f in FilesOf(x.w.sink["a"].layout)
    ensures Moves(x, List(Index), y) && Moves(y, Delete(f), z)
    ensures Lost(z)
  {
    hide FilesOf, KeepKeys, Next, Filed;
    y := x.(phase := Read(x.phase, Index, ListOf(x.disk, Index)));
    z := y.(disk := y.disk - {f}, phase := Take(y.phase, f));
  }

  /** An Apply before the keys are collected: the old layout is still served, but its key is not among them. */
  lemma OlderRace() returns (xs: seq<Cache>, acts: seq<Act>)
    ensures Episode(xs, acts, 1) && xs[0] == Found({SHORT_FILE}) && Lost(xs[|acts|])
    ensures acts == [Work(ApplyLong(None)), Collect, List(Index), Delete(SHORT_FILE)]
  {
    hide Inv, Next, Stocked, Idle, Lost, FilesOf, KeepKeys, ListOf, ApplyLong;
    var x0 := Found({SHORT_FILE});
    var x1 := x0.(w := WAITING);
    var x2 := CollectedAt(x1, LONG_KEY);
    Starts(x0.disk);
    assert Moves(x0, Work(ApplyLong(None)), x1) by { ChangeQueued(); LongNotIndexed(x0); }
    CollectsOne(x1, LONG_KEY);
    TheFiles();
    var x3, x4 := ListsAndDeletes(x2, LONG_KEY, SHORT_FILE);
    xs, acts := [x0, x1, x2, x3, x4], [Work(ApplyLong(None)), Collect, List(Index), Delete(SHORT_FILE)];
  }

  lemma LongNotIndexed(x: Cache)
    ensures ApplyLong(None).Apply? && Filed(x, ApplyLong(None))
  {
    OneEntry(LONG);
  }

  /** An Apply after the keys were collected: it publishes from the index what is deleted next. */
  lemma CleanupRace() returns (xs: seq<Cache>, acts: seq<Act>)
    ensures Episode(xs, acts, 0) && xs[0] == Found({SHORT_FILE, LONG_FILE, LONG_REMUX}) && Lost(xs[|acts|])
    ensures acts == [Collect, Work(ApplyLong(Some(LONG_LAYOUT))), List(Index), Delete(LONG_FILE)]
  {
    hide Inv, Next, Stocked, Idle, Lost, FilesOf, KeepKeys, ListOf, ApplyLong;
    var x0 := Found({SHORT_FILE, LONG_FILE, LONG_REMUX});
    var x1 := CollectedAt(x0, SHORT_KEY);
    var x2 := x1.(w := CHANGED);
    Starts(x0.disk);
    CollectsOne(x0, SHORT_KEY);
    TheFiles();
    assert Moves(x1, Work(ApplyLong(Some(LONG_LAYOUT))), x2) by { ChangeLoaded(); LongIndexed(x1); }
    var x3, x4 := ListsAndDeletes(x2, SHORT_KEY, LONG_FILE);
    xs, acts := [x0, x1, x2, x3, x4], [Collect, Work(ApplyLong(Some(LONG_LAYOUT))), List(Index), Delete(LONG_FILE)];
  }

  lemma LongIndexed(x: Cache)
    requires {LONG_FILE, LONG_REMUX} <= x.disk
    ensures ApplyLong(Some(LONG_LAYOUT)).Apply? && Filed(x, ApplyLong(Some(LONG_LAYOUT)))
  {
    OneEntry(LONG);
    TheFiles();
  }

  const LONG_JOB := Job("a", LONG, "m.mkv", LONG_KEY)
  const LONG_SEEN := Seen(true, Some(SOURCE), Some(true))

  lemma BuildSteps() returns (w2: World, w3: World)
    ensures w2 == WAITING.(queue := [], received := multiset{"a"}) && Next(WAITING, Receive, w2)
    ensures w3 == w2.(queued := {}, received := multiset{}, building := 1, inflight := multiset{LONG_JOB})
      && Next(w2, Begin("a"), w3)
    ensures BuildFrom(LONG_JOB, LONG_SEEN) == Built(LONG_LAYOUT) && Next(w3, Finish(LONG_JOB, LONG_SEEN), CHANGED)
  {
    w2 := WAITING.(queue := [], received := multiset{"a"});
    w3 := w2.(queued := {}, received := multiset{}, building := 1, inflight := multiset{LONG_JOB});
    assert CHANGED == FinishBuild(w3, LONG_JOB, Built(LONG_LAYOUT));
  }

  /** The changed range is queued, built, saved and published. */
  lemma BuildMoves(x1: Cache) returns (x2: Cache, x3: Cache, x4: Cache, x5: Cache, x6: Cache, x7: Cache)
    requires x1.w == SERVING && x1.written == {}
    ensures Moves(x1, Work(ApplyLong(None)), x2) && Moves(x2, Work(Receive), x3) && Moves(x3, Work(Begin("a")), x4)
    ensures Moves(x4, Write(LONG_JOB, Remux), x5) && Moves(x5, Write(LONG_JOB, Index), x6)
    ensures Moves(x6, Work(Finish(LONG_JOB, LONG_SEEN)), x7)
    ensures x7.w == CHANGED && x7.disk == x1.disk + {LONG_REMUX} + {LONG_FILE} && x7.phase == x1.phase
  {
    hide Next, BuildFrom, FromDisk, ApplyLong;
    var w2, w3 := BuildSteps();
    x2 := x1.(w := WAITING);
    x3 := x2.(w := w2);
    x4 := x2.(w := w3);
    x5 := x4.(disk := x1.disk + {LONG_REMUX}, written := {Written(LONG_JOB, Remux)});
    x6 := x5.(disk := x5.disk + {LONG_FILE}, written := x5.written + {Written(LONG_JOB, Index)});
    x7 := x6.(w := CHANGED);
    LongNotIndexed(x1);
    ChangeQueued();
  }

  /** An Apply and a whole build after the keys were collected: what was just built is deleted. */
  lemma BuildRace() returns (xs: seq<Cache>, acts: seq<Act>)
    ensures Episode(xs, acts, 0) && xs[0] == Found({SHORT_FILE}) && Lost(xs[|acts|])
    ensures acts == [Collect, Work(ApplyLong(None)), Work(Receive), Work(Begin("a")), Write(LONG_JOB, Remux),
                     Write(LONG_JOB, Index), Work(Finish(LONG_JOB, LONG_SEEN)), List(Index), Delete(LONG_FILE)]
  {
    hide Inv, Moves, Stocked, Idle, Lost, FilesOf, ApplyLong, LONG_JOB, LONG_SEEN;
    var x0 := Found({SHORT_FILE});
    var x1 := CollectedAt(x0, SHORT_KEY);
    Starts(x0.disk);
    CollectsOne(x0, SHORT_KEY);
    TheFiles();
    var x2, x3, x4, x5, x6, x7 := BuildMoves(x1);
    var x8, x9 := ListsAndDeletes(x7, SHORT_KEY, LONG_FILE);
    xs := [x0, x1, x2, x3, x4, x5, x6, x7, x8, x9];
    acts := [Collect, Work(ApplyLong(None)), Work(Receive), Work(Begin("a")), Write(LONG_JOB, Remux),
             Write(LONG_JOB, Index), Work(Finish(LONG_JOB, LONG_SEEN)), List(Index), Delete(LONG_FILE)];
  }
}
