/** The engine of internal/engine as a state machine. A step is what one goroutine does while it holds
    the mutex, or the receive from the channel, which happens before the mutex is taken. */
module EngineSteps {
  import opened Basics

  /** One version of a file: its path, and its size and modification time together. */
  datatype FileID = FileID(path: string, version: nat)

  /** A clip definition; meta stands for its NFO type and metadata. */
  datatype Clip = Clip(path: string, input: string, output: string, start: int, end: int, meta: nat)

  /** What a layout depends on; the source hashes it. NoKey is the empty string of a clip that failed early. */
  datatype Key = NoKey | Key(origin: FileID, start: int, end: int, output: string)

  /** A layout, as far as the engine looks at it: what it was built from, and whether its ranges refer to a
      remuxed file in the cache instead of the source. */
  datatype Layout = Layout(origin: FileID, start: int, end: int, output: string, remux: bool)

  function KeyOf(l: Layout): Key { Key(l.origin, l.start, l.end, l.output) }

  function ClipKey(c: Clip, origin: FileID): Key { Key(origin, c.start, c.end, c.output) }

  datatype Status = Unset | Pending | Ready | Failed

  datatype ClipState = ClipState(clip: Clip, input: string, key: Key, status: Status, ready: Option<Layout>)

  /** What the sink serves for a path. */
  datatype Served = Served(layout: Layout, meta: nat)

  /** A build in progress: what the worker remembered when it began. */
  datatype Job = Job(path: string, clip: Clip, input: string, key: Key)

  datatype Outcome = Built(l: Layout) | BuildFailed

  /** An entry of the clips file: a clip, and what validation found wrong with it. */
  datatype Entry = Entry(clip: Clip, problem: bool)

  /** What one applyClip call learns from the file system: the resolved input, its version, whether the
      data file of the served layout is unchanged, and the valid layout stored in the index for the key. */
  datatype View = View(input: Option<string>, origin: Option<FileID>, dataValid: bool, indexed: Option<Layout>)

  datatype World = World(
    clips: map<string, ClipState>,
    queue: seq<string>,
    queued: set<string>,
    building: nat,
    received: multiset<string>,
    inflight: multiset<Job>,
    sink: map<string, Served>)

  const START: World := World(map[], [], {}, 0, multiset{}, multiset{}, map[])

  // ---------------------------------------------------------------- applying one clip

  const NO_CLIP: Clip := Clip("", "", "", 0, 0, 0)

  const ZERO: ClipState := ClipState(NO_CLIP, "", NoKey, Unset, None)

  function FailedState(c: Clip): ClipState { ClipState(c, "", NoKey, Failed, None) }

  /** A clip's state, what the sink serves for it, and whether it is to be built. */
  datatype Local = Local(st: ClipState, out: Option<Served>, build: bool)

  function ApplyOne(st: ClipState, out: Option<Served>, c: Clip, v: View): Local {
    if v.input.None? || v.origin.None? then Local(FailedState(c), if st.ready.Some? then None else out, false) else
    var origin := v.origin.value;
    var key := ClipKey(c, origin);
    if st.key == key && st.status != Failed && (st.ready.None? || v.dataValid) then
      Local(st.(clip := c),
            if st.clip.meta != c.meta && st.ready.Some? then Some(Served(st.ready.value, c.meta)) else out,
            false)
    else
      var replaced := st.ready.Some? && st.ready.value.origin != origin;
      var ready := if replaced then None else st.ready;
      match v.indexed
      case Some(l) => Local(ClipState(c, v.input.value, key, Ready, Some(l)), Some(Served(l, c.meta)), false)
      case None => Local(ClipState(c, v.input.value, key, Pending, ready), if replaced then None else out, true)
  }

  /** An index entry stored under a key holds the layout built for that key. */
  predicate ViewOk(c: Clip, v: View) {
    v.input.Some? && v.origin.Some? && v.indexed.Some? ==> KeyOf(v.indexed.value) == ClipKey(c, v.origin.value)
  }

  // ---------------------------------------------------------------- applying a file

  /** The valid clips by path, later entries overriding earlier ones. */
  function Want(file: seq<Entry>): map<string, Clip> {
    if file == [] then map[] else
    var e := file[|file| - 1];
    var rest := Want(file[..|file| - 1]);
    if e.problem then rest else rest[e.clip.path := e.clip]
  }

  /** The paths of entries that failed validation. */
  function Rejected(file: seq<Entry>): set<string> {
    if file == [] then {} else
    var e := file[|file| - 1];
    Rejected(file[..|file| - 1]) + if e.problem then {e.clip.path} else {}
  }

  function SinkAt(w: World, p: string): Option<Served> {
    if p in w.sink then Some(w.sink[p]) else None
  }

  function StateAt(w: World, p: string): ClipState {
    if p in w.clips then w.clips[p] else ZERO
  }

  /** What Apply makes of path p. */
  function AppliedAt(w: World, want: map<string, Clip>, views: map<string, View>, p: string): Local {
    if p in want then
      if p in views then ApplyOne(StateAt(w, p), SinkAt(w, p), want[p], views[p])
        else Local(StateAt(w, p), SinkAt(w, p), false)
    else Local(FailedState(NO_CLIP), if p in w.clips && w.clips[p].ready.Some? then None else SinkAt(w, p), false)
  }

  predicate ViewsOk(file: seq<Entry>, views: map<string, View>) {
    forall p :: p in Want(file) ==> p in views && ViewOk(Want(file)[p], views[p])
  }

  /** Paths that Apply queues. */
  function Queued(w: World, file: seq<Entry>, views: map<string, View>): set<string> {
    var want := Want(file);
    set p | p in want.Keys && AppliedAt(w, want, views, p).build && p !in w.queued
  }

  /** Apply: every clip of the file gets its state, other clips go, and whatever must be built is queued,
      in some order. */
  ghost predicate Applied(w: World, file: seq<Entry>, views: map<string, View>, w': World) {
    var want := Want(file); var news := Queued(w, file, views);
    && w'.clips.Keys == want.Keys + Rejected(file)
    && (forall p :: p in w'.clips ==> w'.clips[p] == AppliedAt(w, want, views, p).st)
    && (forall p :: SinkAt(w', p) == AppliedAt(w, want, views, p).out)
    && w'.queued == w.queued + news
    && w.queue <= w'.queue && multiset(w'.queue[|w.queue|..]) == multiset(news)
    && w'.building == w.building && w'.received == w.received && w'.inflight == w.inflight
  }

  // ---------------------------------------------------------------- the workers

  function BeginBuild(w: World, p: string): World
    requires p in w.received
  {
    var v := w.(queued := w.queued - {p}, received := w.received - multiset{p});
    if p !in w.clips then v
    else v.(building := w.building + 1,
            inflight := w.inflight + multiset{Job(p, w.clips[p].clip, w.clips[p].input, w.clips[p].key)})
  }

  /** What a build learns of the file system: whether its input could be opened, which version it had then,
      and, when a clip was made and its layout saved, whether it had to be remuxed. */
  datatype Seen = Seen(found: bool, origin: Option<FileID>, remux: Option<bool>)

  /** A build compares the key it was started for with that of the file it opened. */
  function BuildFrom(j: Job, s: Seen): Outcome {
    if !s.found || s.origin.None? then BuildFailed
    else if ClipKey(j.clip, s.origin.value) != j.key then BuildFailed
    else if s.remux.None? then BuildFailed
    else Built(Layout(s.origin.value, j.clip.start, j.clip.end, j.clip.output, s.remux.value))
  }

  function FinishBuild(w: World, j: Job, o: Outcome): World
    requires j in w.inflight && w.building > 0
  {
    var v := w.(building := w.building - 1, inflight := w.inflight - multiset{j});
    var p := j.path;
    if p !in w.clips || w.clips[p].key != j.key then v else
    var st := w.clips[p];
    match o
    case BuildFailed =>
      v.(clips := w.clips[p := st.(status := Failed, ready := None)],
         sink := if st.ready.Some? then w.sink - {p} else w.sink)
    case Built(l) =>
      v.(clips := w.clips[p := st.(status := Ready, ready := Some(l))], sink := w.sink[p := Served(l, st.clip.meta)])
  }

  // ---------------------------------------------------------------- runs

  datatype Step = Apply(file: seq<Entry>, views: map<string, View>) | Receive | Begin(path: string)
    | Finish(job: Job, seen: Seen)

  ghost predicate Next(w: World, s: Step, w': World) {
    match s
    case Apply(file, views) => ViewsOk(file, views) && Applied(w, file, views, w')
    case Receive => w.queue != [] && w' == w.(queue := w.queue[1..], received := w.received + multiset{w.queue[0]})
    case Begin(p) => p in w.received && w' == BeginBuild(w, p)
    case Finish(j, seen) => j in w.inflight && w.building > 0 && w' == FinishBuild(w, j, BuildFrom(j, seen))
  }

  /** A run from the new engine: any interleaving of Apply and of the workers' steps. */
  ghost predicate Run(ws: seq<World>, steps: seq<Step>) {
    |ws| == |steps| + 1 && ws[0] == START && forall i :: 0 <= i < |steps| ==> Next(ws[i], steps[i], ws[i + 1])
  }
}
