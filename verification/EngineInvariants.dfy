/** What holds in every reachable state of the engine. */
module EngineInvariants {
  import opened Basics
  import opened EngineSteps

  // ---------------------------------------------------------------- the invariant

  /** A clip's own state is consistent, and the sink serves exactly its layout. */
  predicate LocalOk(st: ClipState, out: Option<Served>) {
    && (out.Some? <==> st.ready.Some?) && (out.Some? ==> out.value.layout == st.ready.value)
    && (st.status == Ready ==> st.ready.Some? && KeyOf(st.ready.value) == st.key && out.value.meta == st.clip.meta)
    && (st.status == Pending ==> st.key.Key? && (st.ready.Some? ==> st.ready.value.origin == st.key.origin))
    && (st.status == Failed || st.status == Unset ==> st.ready.None?)
    && (st.key.Key? ==> st.key == ClipKey(st.clip, st.key.origin))
  }

  /** A pending clip is queued or being built for its current key. */
  predicate NotLost(w: World, p: string)
    requires p in w.clips
  {
    w.clips[p].status == Pending ==>
      p in w.queued || exists j :: j in w.inflight && j.path == p && j.key == w.clips[p].key
  }

  /** The queued flags are exactly the channel's paths and the received ones, each once. */
  predicate QueueOk(w: World) {
    multiset(w.queue) + w.received == multiset(w.queued)
  }

  predicate ClipsOk(w: World) {
    && (forall p :: p in w.clips ==> LocalOk(w.clips[p], SinkAt(w, p)) && w.clips[p].status != Unset)
    && (forall p :: p in w.sink ==> p in w.clips)
  }

  /** The counter counts the builds in progress. */
  predicate JobsOk(w: World) {
    w.building == |w.inflight|
  }

  predicate BuildsOk(w: World) {
    forall p :: p in w.clips ==> NotLost(w, p)
  }

  predicate Inv(w: World) {
    QueueOk(w) && JobsOk(w) && ClipsOk(w) && BuildsOk(w)
  }

  // ---------------------------------------------------------------- one clip

  lemma ZeroOk()
    ensures LocalOk(ZERO, None)
  {
  }

  /** Applying a clip keeps its state consistent; it is left pending without being queued only if it was
      pending for the same key before. */
  lemma ApplyOneOk(st: ClipState, out: Option<Served>, c: Clip, v: View)
    requires LocalOk(st, out) && ViewOk(c, v)
    ensures var l := ApplyOne(st, out, c, v);
      && LocalOk(l.st, l.out) && l.st.clip == c && (st.status != Unset || st.key == NoKey ==> l.st.status != Unset)
      && (l.st.status == Pending && !l.build ==> st.status == Pending && st.key == l.st.key)
      && (l.build ==> l.st.status == Pending)
  {
  }

  /** The served layout survives Apply only while the source file is the same version. */
  lemma AppliedServesOrigin(st: ClipState, out: Option<Served>, c: Clip, v: View)
    requires LocalOk(st, out) && ViewOk(c, v)
    ensures var l := ApplyOne(st, out, c, v); l.out.Some? ==>
      v.origin.Some? && l.out.value.layout.origin == v.origin.value
  {
  }

  // ---------------------------------------------------------------- every step keeps it

  lemma AppliedOk(w: World, file: seq<Entry>, views: map<string, View>, p: string)
    requires ClipsOk(w) && ViewsOk(file, views)
    ensures var l := AppliedAt(w, Want(file), views, p);
      && (p in Want(file) || p in Rejected(file) ==> LocalOk(l.st, l.out) && l.st.status != Unset)
      && (p !in Want(file) ==> l.out.None?)
  {
    ZeroOk();
    if p in Want(file) { ApplyOneOk(StateAt(w, p), SinkAt(w, p), Want(file)[p], views[p]); }
  }

  lemma ApplyKeepsClips(w: World, file: seq<Entry>, views: map<string, View>, w': World)
    requires ClipsOk(w) && ViewsOk(file, views) && Applied(w, file, views, w')
    ensures ClipsOk(w')
  {
    hide LocalOk, AppliedAt, ClipsOk, ViewsOk, Queued;
    forall p
      ensures p in w'.clips ==> LocalOk(w'.clips[p], SinkAt(w', p)) && w'.clips[p].status != Unset
      ensures p in w'.sink ==> p in w'.clips
    {
      AppliedOk(w, file, views, p);
      if p in w'.sink { assert SinkAt(w', p) == AppliedAt(w, Want(file), views, p).out; }
    }
    ClipsAre(w');
  }

  lemma ClipsAre(w: World)
    requires forall p :: p in w.clips ==> LocalOk(w.clips[p], SinkAt(w, p)) && w.clips[p].status != Unset
    requires forall p :: p in w.sink ==> p in w.clips
    ensures ClipsOk(w)
  {
    hide LocalOk;
  }

  lemma ApplyKeepsBuilds(w: World, file: seq<Entry>, views: map<string, View>, w': World, p: string)
    requires Inv(w) && ViewsOk(file, views) && Applied(w, file, views, w') && p in w'.clips
    ensures NotLost(w', p)
  {
    hide QueueOk, LocalOk, ApplyOne;
    if p in Want(file) {
      var v := views[p];
      ZeroOk();
      ApplyOneOk(StateAt(w, p), SinkAt(w, p), Want(file)[p], v);
      var l := AppliedAt(w, Want(file), views, p);
      if l.build {
        assert p in w.queued || p in Queued(w, file, views);
      } else if l.st.status == Pending {
        assert NotLost(w, p);
        if p !in w.queued {
          var j :| j in w.inflight && j.path == p && j.key == w.clips[p].key;
          assert j in w'.inflight;
        }
      }
    }
  }

  lemma ApplyKeepsQueue(w: World, file: seq<Entry>, views: map<string, View>, w': World)
    requires QueueOk(w) && Applied(w, file, views, w')
    ensures QueueOk(w')
  {
    hide AppliedAt, Want, Rejected;
    var news := Queued(w, file, views);
    assert w.queued !! news;
    assert multiset(w.queued + news) == multiset(w.queued) + multiset(news);
    assert w'.queue == w.queue + w'.queue[|w.queue|..];
  }

  lemma ApplyKeeps(w: World, file: seq<Entry>, views: map<string, View>, w': World)
    requires Inv(w) && ViewsOk(file, views) && Applied(w, file, views, w')
    ensures Inv(w')
  {
    hide QueueOk, ClipsOk, ViewsOk, NotLost, AppliedAt;
    ApplyKeepsClips(w, file, views, w');
    ApplyKeepsQueue(w, file, views, w');
    forall p | p in w'.clips
      ensures NotLost(w', p)
    {
      ApplyKeepsBuilds(w, file, views, w', p);
    }
  }

  lemma SameClips(w: World, w': World)
    requires ClipsOk(w) && w'.clips == w.clips && w'.sink == w.sink
    ensures ClipsOk(w')
  {
    hide LocalOk;
    assert forall p :: SinkAt(w', p) == SinkAt(w, p);
  }

  lemma ReceiveKeeps(w: World, w': World)
    requires Inv(w) && Next(w, Receive, w')
    ensures Inv(w')
  {
    hide ClipsOk, JobsOk;
    assert w.queue == [w.queue[0]] + w.queue[1..];
    SameClips(w, w');
    SameJobs(w, w');
    forall p | p in w'.clips
      ensures NotLost(w', p)
    {
      assert NotLost(w, p);
    }
  }

  lemma SameJobs(w: World, w': World)
    requires JobsOk(w) && w'.inflight == w.inflight && w'.building == w.building
    ensures JobsOk(w')
  {
  }

  lemma BeginKeepsBuilds(w: World, p: string, w': World, q: string)
    requires Inv(w) && p in w.received && w' == BeginBuild(w, p) && q in w'.clips
    ensures NotLost(w', q)
  {
    hide QueueOk, ClipsOk, JobsOk;
    assert NotLost(w, q);
    if w.clips[q].status == Pending {
      if q == p {
        assert Job(p, w.clips[p].clip, w.clips[p].input, w.clips[p].key) in w'.inflight;
      } else if q !in w.queued {
        var j :| j in w.inflight && j.path == q && j.key == w.clips[q].key;
        assert j in w'.inflight;
      }
    }
  }

  lemma BeginKeepsQueue(w: World, p: string)
    requires QueueOk(w) && p in w.received
    ensures QueueOk(BeginBuild(w, p))
  {
    assert p in multiset(w.queued);
    assert multiset(w.queued - {p}) == multiset(w.queued) - multiset{p};
    var rest := w.received - multiset{p};
    assert rest + multiset{p} == w.received;
  }

  lemma BeginKeepsJobs(w: World, p: string)
    requires JobsOk(w) && p in w.received
    ensures JobsOk(BeginBuild(w, p))
  {
    if p in w.clips {
      var j := Job(p, w.clips[p].clip, w.clips[p].input, w.clips[p].key);
      assert |w.inflight + multiset{j}| == |w.inflight| + 1;
    }
  }

  lemma BeginKeeps(w: World, p: string)
    requires Inv(w) && p in w.received
    ensures Inv(BeginBuild(w, p))
  {
    hide QueueOk, ClipsOk, JobsOk, NotLost;
    var w' := BeginBuild(w, p);
    BeginKeepsQueue(w, p);
    BeginKeepsJobs(w, p);
    SameClips(w, w');
    forall q | q in w'.clips
      ensures NotLost(w', q)
    {
      BeginKeepsBuilds(w, p, w', q);
    }
  }

  /** A layout that a build gives is for the key the build was started for. */
  predicate OutcomeOk(j: Job, o: Outcome) {
    o.Built? ==> KeyOf(o.l) == j.key
  }

  /** The comparison of keys sees to that, whatever the file system did meanwhile; a clip without a key
      cannot be built at all. */
  lemma BuildKeepsKey(j: Job, seen: Seen)
    ensures OutcomeOk(j, BuildFrom(j, seen)) && (j.key == NoKey ==> BuildFrom(j, seen) == BuildFailed)
  {
  }

  /** The build finds its input, in a version that still has the job's key, and a clip can be cut from it. */
  predicate Succeeds(j: Job, seen: Seen) {
    seen.found && seen.origin.Some? && ClipKey(j.clip, seen.origin.value) == j.key && seen.remux.Some?
  }

  /** That is exactly when it gives a layout: of that version, and of the job's range and output. */
  lemma BuildExactly(j: Job, seen: Seen)
    ensures BuildFrom(j, seen).Built? <==> Succeeds(j, seen)
    ensures Succeeds(j, seen) ==>
      BuildFrom(j, seen) == Built(Layout(seen.origin.value, j.clip.start, j.clip.end, j.clip.output, seen.remux.value))
  {
  }

  /** The new state of a clip whose build for the current key has finished. */
  lemma FinishedOk(st: ClipState, out: Option<Served>, j: Job, o: Outcome)
    requires LocalOk(st, out) && st.key == j.key && OutcomeOk(j, o)
    ensures LocalOk(st.(status := Failed, ready := None), None)
    ensures o.Built? ==> LocalOk(st.(status := Ready, ready := Some(o.l)), Some(Served(o.l, st.clip.meta)))
  {
  }

  lemma FinishKeepsClips(w: World, j: Job, o: Outcome)
    requires ClipsOk(w) && JobsOk(w) && j in w.inflight && w.building > 0 && OutcomeOk(j, o)
    ensures ClipsOk(FinishBuild(w, j, o))
  {
    hide LocalOk, OutcomeOk;
    var w' := FinishBuild(w, j, o);
    var p := j.path;
    if p in w.clips && w.clips[p].key == j.key {
      FinishedOk(w.clips[p], SinkAt(w, p), j, o);
      ServedReady(w.clips[p], SinkAt(w, p));
      forall q
        ensures q in w'.clips ==> LocalOk(w'.clips[q], SinkAt(w', q)) && w'.clips[q].status != Unset
        ensures q in w'.sink ==> q in w'.clips
      {
        if q != p { assert SinkAt(w', q) == SinkAt(w, q); }
      }
    } else {
      SameClips(w, w');
    }
  }

  lemma ServedReady(st: ClipState, out: Option<Served>)
    requires LocalOk(st, out)
    ensures out.Some? <==> st.ready.Some?
  {
  }

  lemma FinishKeepsBuilds(w: World, j: Job, o: Outcome, q: string)
    requires Inv(w) && j in w.inflight && w.building > 0 && q in FinishBuild(w, j, o).clips
    ensures NotLost(FinishBuild(w, j, o), q)
  {
    hide QueueOk, ClipsOk, JobsOk;
    var w' := FinishBuild(w, j, o);
    assert NotLost(w, q);
    if w'.clips[q].status == Pending && q !in w.queued {
      var k :| k in w.inflight && k.path == q && k.key == w.clips[q].key;
      assert k != j;
      assert k in w'.inflight;
    }
  }

  lemma FinishKeepsJobs(w: World, j: Job, o: Outcome)
    requires JobsOk(w) && j in w.inflight && w.building > 0
    ensures JobsOk(FinishBuild(w, j, o))
  {
    var rest := w.inflight - multiset{j};
    assert rest + multiset{j} == w.inflight;
  }

  lemma FinishKeeps(w: World, j: Job, o: Outcome)
    requires Inv(w) && j in w.inflight && w.building > 0 && OutcomeOk(j, o)
    ensures Inv(FinishBuild(w, j, o))
  {
    hide ClipsOk, JobsOk, NotLost, OutcomeOk;
    FinishKeepsClips(w, j, o);
    FinishKeepsJobs(w, j, o);
    forall q | q in FinishBuild(w, j, o).clips
      ensures NotLost(FinishBuild(w, j, o), q)
    {
      FinishKeepsBuilds(w, j, o, q);
    }
  }

  lemma StepKeeps(w: World, s: Step, w': World)
    requires Inv(w) && Next(w, s, w')
    ensures Inv(w')
  {
    hide Inv, BeginBuild, FinishBuild, BuildFrom, Applied, ViewsOk, OutcomeOk;
    match s {
      case Apply(file, views) => ApplyKeeps(w, file, views, w');
      case Receive => ReceiveKeeps(w, w');
      case Begin(p) => BeginKeeps(w, p);
      case Finish(j, seen) =>
        BuildKeepsKey(j, seen);
        FinishKeeps(w, j, BuildFrom(j, seen));
    }
  }

  lemma StartOk()
    ensures Inv(START)
  {
  }

  /** Every state of every run satisfies the invariant. */
  lemma {:induction false} RunKeeps(ws: seq<World>, steps: seq<Step>, i: nat)
    requires Run(ws, steps) && i < |ws|
    ensures Inv(ws[i])
  {
    hide Inv, Next;
    if i == 0 {
      StartOk();
    } else {
      RunKeeps(ws, steps, i - 1);
      assert Next(ws[i - 1], steps[i - 1], ws[i - 1 + 1]);
      StepKeeps(ws[i - 1], steps[i - 1], ws[i]);
    }
  }

  // ---------------------------------------------------------------- what the invariant means

  /** No build is ever lost. */
  lemma NoBuildLost(ws: seq<World>, steps: seq<Step>, i: nat, p: string)
    requires Run(ws, steps) && i < |ws| && p in ws[i].clips && ws[i].clips[p].status == Pending
    ensures p in ws[i].queue || p in ws[i].received
         || exists j :: j in ws[i].inflight && j.path == p && j.key == ws[i].clips[p].key
  {
    hide Run, ClipsOk, JobsOk;
    RunKeeps(ws, steps, i);
    var w := ws[i];
    assert NotLost(w, p);
    assert p in w.queued ==> p in multiset(w.queued);
    assert p in multiset(w.queue) ==> p in w.queue;
  }

  /** The sink serves exactly the clips with a layout, with that layout; a ready clip's was built for its
      key and is served with its metadata, a pending clip's comes at least from the same version of the
      source, and a failed clip has none. */
  lemma SinkExact(ws: seq<World>, steps: seq<Step>, i: nat, p: string)
    requires Run(ws, steps) && i < |ws|
    ensures var w := ws[i];
      && (p in w.sink <==> p in w.clips && w.clips[p].ready.Some?)
      && (p in w.sink ==>
            var st, l := w.clips[p], w.sink[p].layout;
            && l == st.ready.value && st.key.Key? && l.origin == st.key.origin
            && (st.status == Ready ==>
              KeyOf(l) == st.key == ClipKey(st.clip, l.origin) && w.sink[p].meta == st.clip.meta)
            && (st.status == Ready || st.status == Pending))
      && (p in w.clips && w.clips[p].status == Ready ==> p in w.sink)
      && (p in w.clips && w.clips[p].status == Failed ==> p !in w.sink)
  {
    hide Run, QueueOk, JobsOk, NotLost;
    RunKeeps(ws, steps, i);
    if p in ws[i].clips { assert LocalOk(ws[i].clips[p], SinkAt(ws[i], p)); }
  }

  /** Right after Apply the tracked paths are exactly those of the file's clips. */
  lemma TrackedAreTheFiles(w: World, file: seq<Entry>, views: map<string, View>, w': World)
    requires Applied(w, file, views, w')
    ensures w'.clips.Keys == set e | e in file :: e.clip.path
  {
    hide AppliedAt, Queued, LocalOk;
    PathsOf(file);
  }

  lemma {:induction false} PathsOf(file: seq<Entry>)
    ensures Want(file).Keys + Rejected(file) == set e | e in file :: e.clip.path
  {
    if file != [] {
      var rest, e := file[..|file| - 1], file[|file| - 1];
      PathsOf(rest);
      InitLast(file);
      var all := set x | x in file :: x.clip.path;
      var init := set x | x in rest :: x.clip.path;
      assert all == init + {e.clip.path};
    }
  }

  /** A worker step changes what is served, or any clip, only by finishing a build for the clip's current key. */
  lemma OnlyCurrentFinishes(w: World, s: Step, w': World)
    requires Next(w, s, w') && !s.Apply? && (w'.sink != w.sink || w'.clips != w.clips)
    ensures s.Finish? && s.job.path in w.clips && w.clips[s.job.path].key == s.job.key
    ensures forall p :: p != s.job.path ==> SinkAt(w', p) == SinkAt(w, p) && StateAt(w', p) == StateAt(w, p)
  {
    hide BuildFrom;
  }

  /** A build that succeeds for the clip's current key makes it ready and serves its layout, with the clip's metadata
      as it is by then. */
  lemma SuccessIsServed(w: World, j: Job, seen: Seen, w': World)
    requires Next(w, Finish(j, seen), w') && Succeeds(j, seen) && j.path in w.clips && w.clips[j.path].key == j.key
    ensures var l := Layout(seen.origin.value, j.clip.start, j.clip.end, j.clip.output, seen.remux.value);
      && w'.clips == w.clips[j.path := w.clips[j.path].(status := Ready, ready := Some(l))]
      && w'.sink == w.sink[j.path := Served(l, w.clips[j.path].clip.meta)]
  {
    BuildExactly(j, seen);
  }

  /** A clip becomes failed by a worker only when its build could not succeed. */
  lemma FailureHasCause(w: World, s: Step, w': World, p: string)
    requires Next(w, s, w') && !s.Apply? && p in w'.clips && w'.clips[p].status == Failed
    requires !(p in w.clips && w.clips[p].status == Failed)
    ensures s.Finish? && s.job.path == p && !Succeeds(s.job, s.seen) && p in w.clips && w.clips[p].key == s.job.key
  {
    if s.Finish? { BuildExactly(s.job, s.seen); }
  }

  // ---------------------------------------------------------------- the clips of a file

  /** Entry i is the last valid one for path p. */
  predicate LastValid(file: seq<Entry>, p: string, i: nat) {
    && i < |file| && !file[i].problem && file[i].clip.path == p
    && forall j :: i < j < |file| && file[j].clip.path == p ==> file[j].problem
  }

  /** Some entry has that path and that verdict. */
  predicate Has(file: seq<Entry>, p: string, problem: bool) {
    exists e :: e in file && e.problem == problem && e.clip.path == p
  }

  lemma HasMore(file: seq<Entry>, e: Entry, p: string, problem: bool)
    ensures Has(file + [e], p, problem) <==> Has(file, p, problem) || (e.problem == problem && e.clip.path == p)
  {
  }

  lemma LastValidMore(file: seq<Entry>, e: Entry, p: string, i: nat)
    requires LastValid(file + [e], p, i)
    ensures if i == |file| then !e.problem && e.clip.path == p
            else LastValid(file, p, i) && (e.problem || e.clip.path != p) && (file + [e])[i] == file[i]
  {
    assert (file + [e])[|file|] == e && forall j :: 0 <= j < |file| ==> (file + [e])[j] == file[j];
  }

  lemma WantMore(file: seq<Entry>, e: Entry)
    ensures Want(file + [e]) == if e.problem then Want(file) else Want(file)[e.clip.path := e.clip]
    ensures Rejected(file + [e]) == Rejected(file) + if e.problem then {e.clip.path} else {}
  {
    assert (file + [e])[..|file|] == file;
  }

  /** The wanted clips are the last valid ones of each path; the rejected paths those of the invalid entries. */
  lemma {:induction false} WantExactly(file: seq<Entry>, p: string)
    ensures p in Want(file) <==> Has(file, p, false)
    ensures forall i: nat :: LastValid(file, p, i) ==> p in Want(file) && Want(file)[p] == file[i].clip
    ensures p in Rejected(file) <==> Has(file, p, true)
  {
    hide Want, Rejected, Has;
    if file == [] {
      NoEntries(p);
    } else {
      var n := |file| - 1;
      var rest, e := file[..n], file[n];
      InitLast(file);
      WantExactly(rest, p);
      WantMore(rest, e);
      HasMore(rest, e, p, false);
      HasMore(rest, e, p, true);
      forall i: nat | LastValid(file, p, i)
        ensures p in Want(file) && Want(file)[p] == file[i].clip
      {
        LastValidMore(rest, e, p, i);
      }
    }
  }

  lemma NoEntries(p: string)
    ensures p !in Want([]) && p !in Rejected([]) && !Has([], p, true) && !Has([], p, false)
    ensures forall i: nat :: !LastValid([], p, i)
  {
  }

  // ---------------------------------------------------------------- settling

  /** Work left to the workers. */
  function Measure(w: World): nat { 3 * |w.queue| + 2 * |w.received| + |w.inflight| }

  /** Every worker step brings the engine closer to rest. */
  lemma WorkersProgress(w: World, s: Step, w': World)
    requires Next(w, s, w') && !s.Apply?
    ensures Measure(w') < Measure(w)
  {
    match s {
      case Receive =>
      case Begin(p) => OneLess(w.received, p);
      case Finish(j, seen) => OneLess(w.inflight, j);
    }
  }

  lemma OneLess<T>(s: multiset<T>, x: T)
    requires x in s
    ensures |s - multiset{x}| == |s| - 1
  {
    var rest := s - multiset{x};
    assert rest + multiset{x} == s;
  }

  /** While work is left some worker step is possible. */
  lemma WorkersNotStuck(w: World) returns (s: Step, w': World)
    requires Inv(w) && Measure(w) > 0
    ensures Next(w, s, w') && !s.Apply?
  {
    hide ClipsOk, NotLost, QueueOk;
    if w.queue != [] {
      s, w' := Receive, w.(queue := w.queue[1..], received := w.received + multiset{w.queue[0]});
    } else if |w.received| > 0 {
      var p :| p in w.received;
      s, w' := Begin(p), BeginBuild(w, p);
    } else {
      var j :| j in w.inflight;
      var nothing := Seen(false, None, None);
      s, w' := Finish(j, nothing), FinishBuild(w, j, BuildFrom(j, nothing));
    }
  }

  /** All clips are ready or failed, and exactly the ready ones are served. */
  ghost predicate Settled(w: World) {
    && (forall p :: p in w.clips ==> w.clips[p].status == Ready || w.clips[p].status == Failed)
    && (forall p :: p in w.sink <==> p in w.clips && w.clips[p].status == Ready)
  }

  lemma RestSettles(w: World)
    requires Inv(w) && Measure(w) == 0
    ensures Settled(w)
  {
    forall p | p in w.clips
      ensures w.clips[p].status == Ready || w.clips[p].status == Failed
      ensures p in w.sink <==> w.clips[p].status == Ready
    {
      assert NotLost(w, p) && LocalOk(w.clips[p], SinkAt(w, p));
      assert p in w.queued ==> p in multiset(w.queued);
    }
  }

  /** Worker steps only. */
  ghost predicate WorkerRun(ws: seq<World>, steps: seq<Step>) {
    |ws| == |steps| + 1 && forall i :: 0 <= i < |steps| ==> !steps[i].Apply? && Next(ws[i], steps[i], ws[i + 1])
  }

  /** Without a further Apply the workers take at most Measure steps; when none is left to take, everything is
      settled. */
  lemma {:induction false} WorkersSettle(ws: seq<World>, steps: seq<Step>)
    requires WorkerRun(ws, steps) && Inv(ws[0])
    ensures |steps| + Measure(ws[|steps|]) <= Measure(ws[0]) && Inv(ws[|steps|])
    ensures (forall s, w' :: Next(ws[|steps|], s, w') ==> s.Apply?) ==> Settled(ws[|steps|])
    decreases |steps|
  {
    hide Inv, Next, Settled, Measure;
    var n := |steps|;
    if n > 0 {
      var ws', steps' := ws[..n], steps[..n - 1];
      assert WorkerRun(ws', steps');
      WorkersSettle(ws', steps');
      assert Next(ws[n - 1], steps[n - 1], ws[n - 1 + 1]);
      StepKeeps(ws[n - 1], steps[n - 1], ws[n]);
      WorkersProgress(ws[n - 1], steps[n - 1], ws[n]);
    }
    if Measure(ws[n]) > 0 {
      var s, w' := WorkersNotStuck(ws[n]);
      assert Next(ws[n], s, w') && !s.Apply?;
    } else {
      RestSettles(ws[n]);
    }
  }

  /** And a clip that the workers leave failed was failed before, or a build of it could not succeed. */
  lemma {:induction false} FailuresHaveCauses(ws: seq<World>, steps: seq<Step>, n: nat, p: string)
    requires WorkerRun(ws, steps) && n < |ws| && p in ws[n].clips && ws[n].clips[p].status == Failed
    ensures (p in ws[0].clips && ws[0].clips[p].status == Failed)
         || exists i :: 0 <= i < n && steps[i].Finish? && steps[i].job.path == p
                        && !Succeeds(steps[i].job, steps[i].seen)
  {
    hide Next, Succeeds;
    if n > 0 {
      assert Next(ws[n - 1], steps[n - 1], ws[n - 1 + 1]);
      if p in ws[n - 1].clips && ws[n - 1].clips[p].status == Failed {
        FailuresHaveCauses(ws, steps, n - 1, p);
      } else {
        FailureHasCause(ws[n - 1], steps[n - 1], ws[n], p);
      }
    }
  }
}
