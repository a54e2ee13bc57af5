/** The Engine of internal/engine: its maps, channel, flags and counter, updated in place under the mutex.
    Every method is one step of the state machine, and keeps its invariant. */
module Engine {
  import opened Basics
  import opened EngineSteps
  import opened EngineInvariants
  import opened EngineCleanup

  // ---------------------------------------------------------------- one clip at a time

  function WithSink(sink: map<string, Served>, p: string, out: Option<Served>): map<string, Served> {
    if out.Some? then sink[p := out.value] else sink - {p}
  }

  /** ApplyOne, branch by branch. */
  lemma ApplyCases(st: ClipState, out: Option<Served>, c: Clip, v: View)
    ensures var l := ApplyOne(st, out, c, v);
      if v.input.None? || v.origin.None? then
        l == Local(FailedState(c), if st.ready.Some? then None else out, false)
      else
      var key := ClipKey(c, v.origin.value);
      if st.key == key && st.status != Failed && (st.ready.None? || v.dataValid) then
        l.st == st.(clip := c) && !l.build
        && l.out == if st.clip.meta != c.meta && st.ready.Some? then Some(Served(st.ready.value, c.meta)) else out
      else
        l.st.clip == c && l.st.input == v.input.value && l.st.key == key && l.build == v.indexed.None?
        && (v.indexed.Some? ==>
          l.st.status == Ready && l.st.ready == v.indexed && l.out == Some(Served(v.indexed.value, c.meta)))
        && (v.indexed.None? ==>
              l.st.status == Pending
              && if st.ready.Some? && st.ready.value.origin != v.origin.value then l.st.ready == None && l.out == None
                 else l.st.ready == st.ready && l.out == out)
  {
  }

  lemma SinkCases(w: World, p: string)
    ensures WithSink(w.sink, p, SinkAt(w, p)) == w.sink
    ensures WithSink(w.sink, p, None) == w.sink - {p}
  {
  }

  /** The world after applying one clip. */
  function AppliedClip(w: World, p: string, c: Clip, v: View): World {
    var l := ApplyOne(StateAt(w, p), SinkAt(w, p), c, v);
    var x := w.(clips := w.clips[p := l.st], sink := WithSink(w.sink, p, l.out));
    if l.build && p !in w.queued then x.(queue := w.queue + [p], queued := w.queued + {p}) else x
  }

  /** Applying a clip for which its state is not up to date. */
  predicate Renews(w: World, p: string, c: Clip, v: View) {
    && v.input.Some? && v.origin.Some?
    && !(StateAt(w, p).key == ClipKey(c, v.origin.value) && StateAt(w, p).status != Failed
    && (StateAt(w, p).ready.None? || v.dataValid))
  }

  lemma RenewLoads(w: World, p: string, c: Clip, v: View)
    requires Renews(w, p, c, v) && v.indexed.Some?
    ensures AppliedClip(w, p, c, v) ==
      w.(clips := w.clips[p := ClipState(c, v.input.value, ClipKey(c, v.origin.value), Ready, v.indexed)],
         sink := (w.sink - {p})[p := Served(v.indexed.value, c.meta)])
    ensures (w.sink - {p})[p := Served(v.indexed.value, c.meta)] == w.sink[p := Served(v.indexed.value, c.meta)]
  {
    hide StateAt, SinkAt;
  }

  lemma RenewWaits(w: World, p: string, c: Clip, v: View)
    requires Renews(w, p, c, v) && v.indexed.None?
    ensures var st := StateAt(w, p); var replaced := st.ready.Some? && st.ready.value.origin != v.origin.value;
      var kept := if replaced then None else st.ready;
      AppliedClip(w, p, c, v) ==
        w.(clips := w.clips[p := ClipState(c, v.input.value, ClipKey(c, v.origin.value), Pending, kept)],
           sink := if replaced then w.sink - {p} else w.sink,
           queue := if p in w.queued then w.queue else w.queue + [p],
           queued := w.queued + {p})
  {
    hide StateAt;
    SinkCases(w, p);
    assert p in w.queued ==> w.queued + {p} == w.queued;
  }

  /** Path q during Apply: still as it was when it is in todo, and otherwise as Apply leaves it. */
  predicate HalfAt(w: World, now: World, want: map<string, Clip>, rejected: set<string>, views: map<string, View>,
          todo: set<string>, q: string) {
    && (q in now.clips <==> if q in want then q !in todo || q in w.clips else q in rejected)
    && if q in todo then StateAt(now, q) == StateAt(w, q) && SinkAt(now, q) == SinkAt(w, q)
       else
         && SinkAt(now, q) == AppliedAt(w, want, views, q).out
         && (q in now.clips ==> now.clips[q] == AppliedAt(w, want, views, q).st)
  }

  /** Apply when the clips in todo are still to be applied and the others of want have been. */
  ghost predicate Half(w: World, now: World, want: map<string, Clip>, rejected: set<string>, views: map<string, View>,
          todo: set<string>) {
    && todo <= want.Keys && now.building == w.building && now.received == w.received && now.inflight == w.inflight
    && forall q :: HalfAt(w, now, want, rejected, views, todo, q)
  }

  /** The paths queued so far. */
  ghost predicate HalfQueued(w: World, now: World, want: map<string, Clip>, views: map<string, View>, todo: set<string>,
          news: set<string>) {
    && (forall p :: p in news <==> p in want.Keys && p !in todo && p !in w.queued && AppliedAt(w, want, views, p).build)
    && now.queued == w.queued + news
    && w.queue <= now.queue && multiset(now.queue[|w.queue|..]) == multiset(news)
  }

  /** Served clips that are not in want. */
  function Unserved(clips: map<string, ClipState>, want: set<string>): set<string> {
    set p | p in clips.Keys && p !in want && clips[p].ready.Some?
  }

  /** The clips that stay when the paths in todo have not been looked at. */
  function StillTracked(clips: map<string, ClipState>, want: set<string>, rejected: set<string>,
          todo: set<string>): map<string, ClipState> {
    map p | p in clips.Keys && (p in want || p in rejected || p in todo) :: clips[p]
  }

  lemma DropStart(clips: map<string, ClipState>, want: set<string>, rejected: set<string>, sink: map<string, Served>)
    ensures StillTracked(clips, want, rejected, clips.Keys) == clips
    ensures sink - Unserved(clips, want + clips.Keys) == sink
  {
  }

  lemma DropStep(clips: map<string, ClipState>, want: set<string>, rejected: set<string>, todo: set<string>, p: string,
          sink: map<string, Served>)
    requires p in todo && todo <= clips.Keys
    ensures var now := StillTracked(clips, want, rejected, todo);
      && p in now && now[p] == clips[p] && todo <= now.Keys
      && StillTracked(clips, want, rejected, todo - {p}) == (if p in want || p in rejected then now else now - {p})
      && todo - {p} <= StillTracked(clips, want, rejected, todo - {p}).Keys
    ensures sink - Unserved(clips, want + (todo - {p}))
         == (if p !in want && clips[p].ready.Some? then sink - Unserved(clips, want + todo) - {p}
           else sink - Unserved(clips, want + todo))
  {
    UnservedStep(clips, want, todo, p);
  }

  lemma UnservedStep(clips: map<string, ClipState>, want: set<string>, todo: set<string>, p: string)
    requires p in todo && todo <= clips.Keys
    ensures Unserved(clips, want + (todo - {p}))
         == Unserved(clips, want + todo) + if p !in want && clips[p].ready.Some? then {p} else {}
  {
  }

  lemma MarkStart(clips: map<string, ClipState>, rejected: set<string>, want: set<string>)
    ensures clips + Marks(rejected - want - rejected) == clips
  {
    assert rejected - want - rejected == {};
  }

  lemma MarkStep(clips: map<string, ClipState>, rejected: set<string>, want: set<string>, todo: set<string>, p: string)
    requires p in todo && todo <= rejected
    ensures clips + Marks(rejected - want - (todo - {p}))
         == if p in want then clips + Marks(rejected - want - todo)
           else (clips + Marks(rejected - want - todo))[p := FailedState(NO_CLIP)]
  {
    var done := rejected - want - todo;
    assert rejected - want - (todo - {p}) == if p in want then done else done + {p};
  }

  function Marks(paths: set<string>): map<string, ClipState> {
    map p | p in paths :: FailedState(NO_CLIP)
  }

  lemma HalfStart(w: World, now: World, want: map<string, Clip>, rejected: set<string>, views: map<string, View>)
    requires forall p :: p in now.clips <==> (p in w.clips && p in want) || (p !in want && p in rejected)
    requires forall p :: p in now.clips && p in want ==> now.clips[p] == w.clips[p]
    requires forall p :: p in now.clips && p !in want ==> now.clips[p] == FailedState(NO_CLIP)
    requires now.sink == w.sink - Unserved(w.clips, want.Keys)
    requires now == w.(clips := now.clips, sink := now.sink)
    ensures Half(w, now, want, rejected, views, want.Keys)
  {
  }

  /** What applying one clip changes. */
  lemma OneApplied(now: World, p: string, c: Clip, v: View, q: string)
    ensures var next := AppliedClip(now, p, c, v); var l := ApplyOne(StateAt(now, p), SinkAt(now, p), c, v);
      && p in next.clips && next.clips[p] == l.st && SinkAt(next, p) == l.out
      && (q != p ==>
            && (q in next.clips <==> q in now.clips)
            && StateAt(next, q) == StateAt(now, q) && SinkAt(next, q) == SinkAt(now, q))
      && next.building == now.building && next.received == now.received && next.inflight == now.inflight
  {
    hide ApplyOne;
  }

  lemma HalfStep(w: World, now: World, want: map<string, Clip>, rejected: set<string>, views: map<string, View>,
          todo: set<string>, p: string)
    requires Half(w, now, want, rejected, views, todo) && p in todo && p in views
    ensures Half(w, AppliedClip(now, p, want[p], views[p]), want, rejected, views, todo - {p})
  {
    hide ApplyOne, AppliedClip, StateAt, SinkAt;
    var next := AppliedClip(now, p, want[p], views[p]);
    OneApplied(now, p, want[p], views[p], p);
    assert HalfAt(w, now, want, rejected, views, todo, p);
    forall q
      ensures HalfAt(w, next, want, rejected, views, todo - {p}, q)
    {
      assert HalfAt(w, now, want, rejected, views, todo, q);
      OneApplied(now, p, want[p], views[p], q);
      if q in next.clips && q != p { SameState(now, next, q); }
    }
  }

  lemma SameState(now: World, next: World, q: string)
    requires q in now.clips && q in next.clips && StateAt(next, q) == StateAt(now, q)
    ensures next.clips[q] == now.clips[q]
  {
  }

  lemma HalfQueuedStep(w: World, now: World, want: map<string, Clip>, rejected: set<string>, views: map<string, View>,
          todo: set<string>, news: set<string>, p: string)
    returns (news': set<string>)
    requires Half(w, now, want, rejected, views, todo) && HalfQueued(w, now, want, views, todo, news) && p in todo
      && p in views
    ensures HalfQueued(w, AppliedClip(now, p, want[p], views[p]), want, views, todo - {p}, news')
  {
    hide ApplyOne, Half, StateAt, SinkAt;
    BuildSame(w, now, want, rejected, views, todo, p);
    var l := AppliedAt(w, want, views, p);
    if l.build && p !in w.queued {
      news' := news + {p};
      QueueGrows(w.queue, now.queue, news, p);
    } else {
      news' := news;
    }
  }

  lemma BuildSame(w: World, now: World, want: map<string, Clip>, rejected: set<string>, views: map<string, View>,
          todo: set<string>, p: string)
    requires Half(w, now, want, rejected, views, todo) && p in todo && p in views
    ensures p in want && ApplyOne(StateAt(now, p), SinkAt(now, p), want[p], views[p]) == AppliedAt(w, want, views, p)
  {
    hide ApplyOne, StateAt, SinkAt;
    assert HalfAt(w, now, want, rejected, views, todo, p);
  }

  lemma QueueGrows(was: seq<string>, now: seq<string>, news: set<string>, p: string)
    requires was <= now && multiset(now[|was|..]) == multiset(news) && p !in news
    ensures was <= now + [p] && multiset((now + [p])[|was|..]) == multiset(news + {p})
  {
    assert (now + [p])[|was|..] == now[|was|..] + [p];
    assert multiset(news + {p}) == multiset(news) + multiset{p};
  }

  /** Applying a clip again, with nothing changed on disk, changes nothing and queues nothing. */
  lemma AppliedClipTwice(w: World, p: string, c: Clip, v: View)
    requires LocalOk(StateAt(w, p), SinkAt(w, p)) && ViewOk(c, v)
    ensures var once := AppliedClip(w, p, c, v); AppliedClip(once, p, c, v) == once
  {
    hide ApplyOne, LocalOk;
    var once := AppliedClip(w, p, c, v);
    var l := ApplyOne(StateAt(w, p), SinkAt(w, p), c, v);
    OneApplied(w, p, c, v, p);
    ApplyOneTwice(StateAt(w, p), SinkAt(w, p), c, v);
    SinkCases(once, p);
    assert once.clips[p := l.st] == once.clips;
  }

  /** The second application queues a build only if the first one did. */
  lemma ApplyOneTwice(st: ClipState, out: Option<Served>, c: Clip, v: View)
    requires LocalOk(st, out) && ViewOk(c, v)
    ensures var l := ApplyOne(st, out, c, v); var again := ApplyOne(l.st, l.out, c, v);
      again.st == l.st && again.out == l.out && (again.build ==> l.build)
  {
    var l := ApplyOne(st, out, c, v);
    ApplyOneOk(st, out, c, v);
    if v.input.Some? && v.origin.Some? && v.indexed.None? && l.st.status == Pending {
      assert l.st.ready.Some? ==> l.st.ready.value.origin == v.origin.value;
    }
  }

  lemma HalfDone(w: World, now: World, file: seq<Entry>, views: map<string, View>, news: set<string>)
    requires Half(w, now, Want(file), Rejected(file), views, {}) && HalfQueued(w, now, Want(file), views, {}, news)
    ensures Applied(w, file, views, now)
  {
    hide ApplyOne, Want, Rejected, StateAt, SinkAt;
    assert news == Queued(w, file, views);
    forall p
      ensures p in now.clips <==> p in Want(file) || p in Rejected(file)
      ensures p in now.clips ==> now.clips[p] == AppliedAt(w, Want(file), views, p).st
      ensures SinkAt(now, p) == AppliedAt(w, Want(file), views, p).out
    {
      assert HalfAt(w, now, Want(file), Rejected(file), views, {}, p);
    }
  }

  // ---------------------------------------------------------------- the engine

  /** A name in a cache directory: that of a cached file, or another one. */
  datatype Name = Cached(file: CacheFile) | Foreign(name: string)

  class Engine {
    var clips: map<string, ClipState>
    var queue: seq<string>
    var queued: set<string>
    var building: nat
    /** What the sink was told to serve. */
    var sink: map<string, Served>
    /** Paths that workers took from the channel without having locked the mutex yet. */
    ghost var received: multiset<string>
    /** Builds in progress outside the mutex. */
    ghost var inflight: multiset<Job>

    ghost function AsWorld(): World
      reads this
    {
      World(clips, queue, queued, building, received, inflight, sink)
    }

    ghost predicate Valid()
      reads this
    {
      Inv(AsWorld())
    }

    constructor ()
      ensures AsWorld() == START && Valid()
    {
      clips, queue, queued, building, sink, received, inflight := map[], [], {}, 0, map[], multiset{}, multiset{};
      new;
      StartOk();
    }

    method Enqueue(path: string)
      modifies `queue, `queued
      ensures queued == old(queued) + {path}
      ensures queue == if path in old(queued) then old(queue) else old(queue) + [path]
    {
      if path in queued {
        return;
      }
      queued := queued + {path};
      queue := queue + [path];
    }

    method Fail(path: string, st: ClipState, c: Clip)
      modifies `clips, `sink
      ensures clips == old(clips)[path := FailedState(c)]
      ensures sink == if st.ready.Some? then old(sink) - {path} else old(sink)
    {
      if st.ready.Some? {
        sink := sink - {path};
      }
      clips := clips[path := FailedState(c)];
    }

    method ApplyClip(path: string, c: Clip, v: View)
      modifies `clips, `queue, `queued, `sink
      ensures AsWorld() == AppliedClip(old(AsWorld()), path, c, v)
    {
      hide ApplyOne;
      SinkCases(AsWorld(), path);
      ApplyCases(StateAt(AsWorld(), path), SinkAt(AsWorld(), path), c, v);
      var st := if path in clips then clips[path] else ZERO;
      if v.input.None? || v.origin.None? {
        Fail(path, st, c);
        return;
      }
      var origin := v.origin.value;
      var key := ClipKey(c, origin);
      var metaChanged := st.clip.meta != c.meta;
      if st.key == key && st.status != Failed && (st.ready.None? || v.dataValid) {
        st := st.(clip := c);
        clips := clips[path := st];
        if metaChanged && st.ready.Some? {
          Publish(path, st);
        }
        return;
      }
      Renew(path, st, c, v);
    }

    /** applyClip for a new key: drops a layout of another source version, and takes the new one from the
        index or queues its build. */
    method Renew(path: string, was: ClipState, c: Clip, v: View)
      requires Renews(AsWorld(), path, c, v) && was == StateAt(AsWorld(), path)
      modifies `clips, `queue, `queued, `sink
      ensures AsWorld() == AppliedClip(old(AsWorld()), path, c, v)
    {
      hide AppliedClip, ApplyOne;
      ghost var w := AsWorld();
      var st := was;
      var origin := v.origin.value;
      if st.ready.Some? && st.ready.value.origin != origin {
        sink := sink - {path};
        st := st.(ready := None);
      }
      st := st.(clip := c, input := v.input.value, key := ClipKey(c, origin));
      if v.indexed.Some? {
        Load(path, st, v.indexed.value);
        RenewLoads(w, path, c, v);
        return;
      }
      RenewWaits(w, path, c, v);
      Wait(path, st);
    }

    method Load(path: string, was: ClipState, l: Layout)
      modifies `clips, `sink
      ensures clips == old(clips)[path := was.(ready := Some(l), status := Ready)]
      ensures sink == old(sink)[path := Served(l, was.clip.meta)]
    {
      var st := was.(ready := Some(l), status := Ready);
      clips := clips[path := st];
      Publish(path, st);
    }

    method Wait(path: string, was: ClipState)
      modifies `clips, `queue, `queued
      ensures clips == old(clips)[path := was.(status := Pending)] && queued == old(queued) + {path}
      ensures queue == if path in old(queued) then old(queue) else old(queue) + [path]
    {
      clips := clips[path := was.(status := Pending)];
      Enqueue(path);
    }

    method Publish(path: string, st: ClipState)
      requires st.ready.Some?
      modifies `sink
      ensures sink == old(sink)[path := Served(st.ready.value, st.clip.meta)]
    {
      sink := sink[path := Served(st.ready.value, st.clip.meta)];
    }

    /** The wanted clips and the paths of the rejected entries. */
    static method Sort(file: seq<Entry>) returns (want: map<string, Clip>, rejected: set<string>)
      ensures want == Want(file) && rejected == Rejected(file)
    {
      want, rejected := map[], {};
      assert file[..0] == [];
      for i := 0 to |file|
        invariant want == Want(file[..i]) && rejected == Rejected(file[..i])
      {
        assert file[..i + 1][..i] == file[..i];
        if file[i].problem {
          rejected := rejected + {file[i].clip.path};
        } else {
          want := want[file[i].clip.path := file[i].clip];
        }
      }
      assert file[..|file|] == file;
    }

    /** Drops the clips that are no longer wanted; rejected ones stay until they are marked. */
    method DropUnwanted(want: map<string, Clip>, rejected: set<string>)
      modifies `clips, `sink
      ensures clips == StillTracked(old(clips), want.Keys, rejected, {})
      ensures sink == old(sink) - Unserved(old(clips), want.Keys)
    {
      hide StillTracked, Unserved;
      ghost var was, served := clips, sink;
      var todo := clips.Keys;
      DropStart(was, want.Keys, rejected, sink);
      while todo != {}
        invariant todo <= was.Keys && todo <= clips.Keys
        invariant clips == StillTracked(was, want.Keys, rejected, todo)
        invariant sink == served - Unserved(was, want.Keys + todo)
        decreases |todo|
      {
        var path :| path in todo;
        DropStep(was, want.Keys, rejected, todo, path, served);
        todo := todo - {path};
        DropOne(path, want, rejected);
      }
      assert want.Keys + {} == want.Keys;
    }

    method DropOne(path: string, want: map<string, Clip>, rejected: set<string>)
      requires path in clips
      modifies `clips, `sink
      ensures clips == if path in want || path in rejected then old(clips) else old(clips) - {path}
      ensures sink == if path !in want && old(clips)[path].ready.Some? then old(sink) - {path} else old(sink)
    {
      if path in want {
        return;
      }
      if clips[path].ready.Some? {
        sink := sink - {path};
      }
      if path !in rejected {
        clips := clips - {path};
      }
    }

    /** Rejected clips that are not wanted either are tracked as failed. */
    method MarkRejected(want: map<string, Clip>, rejected: set<string>)
      modifies `clips
      ensures clips == old(clips) + Marks(rejected - want.Keys)
    {
      hide Marks;
      ghost var was := clips;
      var todo := rejected;
      MarkStart(was, rejected, want.Keys);
      while todo != {}
        invariant todo <= rejected
        invariant clips == was + Marks(rejected - want.Keys - todo)
        decreases |todo|
      {
        var path :| path in todo;
        MarkStep(was, rejected, want.Keys, todo, path);
        todo := todo - {path};
        if path in want {
          continue;
        }
        clips := clips[path := FailedState(NO_CLIP)];
      }
      assert rejected - want.Keys - todo == rejected - want.Keys;
    }

    /** Makes the engine match file. */
    method Apply(file: seq<Entry>, views: map<string, View>)
      requires Valid() && ViewsOk(file, views)
      modifies this
      ensures Applied(old(AsWorld()), file, views, AsWorld()) && Valid()
    {
      hide Inv, Half, HalfQueued, Applied, AppliedClip, ViewOk;
      ghost var was := AsWorld();
      var want, rejected := Sort(file);
      DropUnwanted(want, rejected);
      MarkRejected(want, rejected);
      HalfStart(was, AsWorld(), want, rejected, views);
      var todo := want.Keys;
      ghost var news: set<string> := {};
      NothingQueued(was, AsWorld(), want, views);
      while todo != {}
        invariant todo <= want.Keys
        invariant Half(was, AsWorld(), want, rejected, views, todo)
          && HalfQueued(was, AsWorld(), want, views, todo, news)
        decreases |todo|
      {
        var path :| path in todo;
        HalfStep(was, AsWorld(), want, rejected, views, todo, path);
        news := HalfQueuedStep(was, AsWorld(), want, rejected, views, todo, news, path);
        ApplyClip(path, want[path], views[path]);
        todo := todo - {path};
      }
      HalfDone(was, AsWorld(), file, views, news);
      ApplyKeeps(was, file, views, AsWorld());
    }

    lemma NothingQueued(w: World, now: World, want: map<string, Clip>, views: map<string, View>)
      requires now.queue == w.queue && now.queued == w.queued
      ensures HalfQueued(w, now, want, views, want.Keys, {})
    {
      assert now.queue[|w.queue|..] == [];
    }

    // ---------------------------------------------------------------- a worker's turn

    /** The worker's receive from the channel, before it locks the mutex. */
    method TakeFromQueue() returns (path: string)
      requires Valid() && queue != []
      modifies this
      ensures Next(old(AsWorld()), Receive, AsWorld()) && path == old(queue[0]) && path in received && Valid()
    {
      ghost var was := AsWorld();
      path := queue[0];
      queue := queue[1..];
      received := received + multiset{path};
      ReceiveKeeps(was, AsWorld());
    }

    /** Under the mutex: clears the flag, and notes what to build. */
    method StartBuild(path: string) returns (job: Option<Job>)
      requires Valid() && path in received
      modifies this
      ensures AsWorld() == BeginBuild(old(AsWorld()), path) && Valid()
      ensures job == if path in old(clips) then Some(Job(path, clips[path].clip, clips[path].input, clips[path].key))
        else None
    {
      hide Inv;
      BeginKeeps(AsWorld(), path);
      queued := queued - {path};
      received := received - multiset{path};
      if path !in clips {
        return None;
      }
      var st := clips[path];
      job := Some(Job(path, st.clip, st.input, st.key));
      building := building + 1;
      inflight := inflight + multiset{job.value};
    }

    /** The build itself, outside the mutex: compares the key of the file it opened with the one it has to
        build for. */
    static method Build(job: Job, seen: Seen) returns (outcome: Outcome)
      ensures outcome == BuildFrom(job, seen) && OutcomeOk(job, outcome)
      ensures outcome.Built? <==>
        seen.found && seen.origin.Some? && ClipKey(job.clip, seen.origin.value) == job.key && seen.remux.Some?
      ensures outcome.Built? ==>
        outcome.l == Layout(seen.origin.value, job.clip.start, job.clip.end, job.clip.output, seen.remux.value)
    {
      BuildKeepsKey(job, seen);
      if !seen.found {
        return BuildFailed;
      }
      if seen.origin.None? {
        return BuildFailed;
      }
      var origin := seen.origin.value;
      if ClipKey(job.clip, origin) != job.key {
        return BuildFailed;
      }
      if seen.remux.None? {
        return BuildFailed;
      }
      return Built(Layout(origin, job.clip.start, job.clip.end, job.clip.output, seen.remux.value));
    }

    /** Under the mutex again: publishes the build, or its failure, unless the clip was removed or changed. */
    method EndBuild(job: Job, outcome: Outcome)
      requires Valid() && job in inflight && building > 0 && OutcomeOk(job, outcome)
      modifies this
      ensures AsWorld() == FinishBuild(old(AsWorld()), job, outcome) && Valid()
    {
      hide Inv;
      FinishKeeps(AsWorld(), job, outcome);
      building := building - 1;
      inflight := inflight - multiset{job};
      var path := job.path;
      if path !in clips || clips[path].key != job.key {
        return;
      }
      var st := clips[path];
      match outcome {
        case BuildFailed =>
          if st.ready.Some? {
            sink := sink - {path};
            st := st.(ready := None);
          }
          clips := clips[path := st.(status := Failed)];
        case Built(l) =>
          st := st.(ready := Some(l), status := Ready);
          clips := clips[path := st];
          Publish(path, st);
      }
    }

    // ---------------------------------------------------------------- housekeeping

    method IsIdle() returns (idle: bool)
      requires Valid()
      ensures idle <==> Idle(AsWorld())
      ensures idle ==> Settled(AsWorld())
    {
      hide Settled, Inv;
      idle := |queued| == 0 && building == 0;
      if idle { IdleMeans(AsWorld()); }
    }

    /** The first half of cleanCache: the keys to keep, collected under the mutex. */
    method CurrentKeys() returns (keep: set<Key>)
      ensures keep == KeepKeys(AsWorld())
    {
      keep := {};
      var todo := clips.Keys;
      while todo != {}
        invariant todo <= clips.Keys
        invariant keep == set p | p in clips && p !in todo :: clips[p].key
        decreases |todo|
      {
        var path :| path in todo;
        todo := todo - {path};
        keep := keep + {clips[path].key};
      }
    }

    /** The rest of cleanCache for one directory, for which the mutex is not held: of what was listed, removes
        one after the other the files whose key is not kept; some of them cannot be removed. Other names stay. */
    static method RemoveUnkept(listed: set<Name>, keep: set<Key>)
      returns (removed: set<CacheFile>, stuck: set<CacheFile>)
      ensures removed !! stuck
      ensures forall f :: f in removed + stuck <==> Cached(f) in listed && f.key !in keep
    {
      removed, stuck := {}, {};
      var todo := listed;
      while todo != {}
        invariant todo <= listed && removed !! stuck
        invariant forall f :: f in removed + stuck <==> Cached(f) in listed && Cached(f) !in todo && f.key !in keep
        decreases |todo|
      {
        var name :| name in todo;
        todo := todo - {name};
        if name.Cached? && name.file.key !in keep {
          if * {
            removed := removed + {name.file};
          } else {
            stuck := stuck + {name.file};
          }
        }
      }
    }
  }
}
