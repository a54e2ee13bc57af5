/** The engine with the channel it really has: it holds no more than its capacity, and Apply sends to it one
    path at a time while it holds the mutex, which a worker needs after receiving. What such an engine does is
    a run of the engine whose Apply is one step; and it stands still exactly when an Apply sends too much. */
module EngineChannel {
  import opened Basics
  import opened EngineSteps
  import opened EngineInvariants

  const CAPACITY := 65536

  /** The mutex is free or held by a worker's step; or Apply holds it, and will leave the maps of goal and
      what becomes of the channel: it still has to send todo. */
  datatype Bounded = Free(w: World)
                  | Applying(goal: World, todo: seq<string>, channel: seq<string>, received: multiset<string>)

  datatype Act = Work(step: Step) | Enter(file: seq<Entry>, views: map<string, View>) | Send | Take | Leave

  /** The engine as if Apply had sent everything at once. */
  function Whole(x: Bounded): World {
    match x
    case Free(w) => w
    case Applying(goal, todo, channel, received) => goal.(queue := channel + todo, received := received)
  }

  function Channel(x: Bounded): seq<string> { if x.Free? then x.w.queue else x.channel }

  function Todo(x: Bounded): seq<string> { if x.Free? then [] else x.todo }

  /** Workers that do not wait at the channel: they build, or have received a path. */
  function Busy(x: Bounded): nat { Whole(x).building + |Whole(x).received| }

  /** What can happen next when so many workers run. */
  ghost predicate Moves(x: Bounded, a: Act, x': Bounded, workers: nat) {
    match a
    case Work(s) => x.Free? && x'.Free? && !s.Apply? && (s.Receive? ==> Busy(x) < workers) && Next(x.w, s, x'.w)
    case Enter(file, views) => Enters(x, file, views, x')
    case Send =>
      && x.Applying? && x.todo != [] && |x.channel| < CAPACITY
      && x' == x.(todo := x.todo[1..], channel := x.channel + [x.todo[0]])
    case Take =>
      && x.Applying? && x.channel != [] && Busy(x) < workers
      && x' == x.(channel := x.channel[1..], received := x.received + multiset{x.channel[0]})
    case Leave => x.Applying? && x.todo == [] && x' == Free(Whole(x))
  }

  ghost predicate Enters(x: Bounded, file: seq<Entry>, views: map<string, View>, x': Bounded) {
    && x.Free? && x'.Applying? && Next(x.w, Apply(file, views), x'.goal)
    && x'.channel == x.w.queue && x'.received == x.w.received && x'.goal.queue == x'.channel + x'.todo
  }

  ghost predicate BoundedRun(xs: seq<Bounded>, acts: seq<Act>, workers: nat) {
    && |xs| == |acts| + 1 && xs[0] == Free(START)
    && forall t :: 0 <= t < |acts| ==> Moves(xs[t], acts[t], xs[t + 1], workers)
  }

  // ---------------------------------------------------------------- one Apply as one step

  /** The step of the engine that an act is, if it is one. */
  function StepOf(a: Act): Option<Step> {
    match a
    case Work(s) => Some(s)
    case Enter(file, views) => Some(Apply(file, views))
    case Take => Some(Receive)
    case Send => None
    case Leave => None
  }

  lemma Simulates(x: Bounded, a: Act, x': Bounded, workers: nat)
    requires Moves(x, a, x', workers)
    ensures if StepOf(a).Some? then Next(Whole(x), StepOf(a).value, Whole(x')) else Whole(x') == Whole(x)
  {
    hide BeginBuild, FinishBuild, BuildFrom, ViewsOk;
    match a {
      case Work(s) =>
      case Enter(file, views) => EnterIsApply(x, file, views, x');
      case Take =>
        assert (x.channel + x.todo)[1..] == x.channel[1..] + x.todo;
      case Send =>
        assert x.channel + [x.todo[0]] + x.todo[1..] == x.channel + x.todo;
      case Leave =>
        assert x.channel + x.todo == x.channel;
    }
  }

  lemma EnterIsApply(x: Bounded, file: seq<Entry>, views: map<string, View>, x': Bounded)
    requires Enters(x, file, views, x')
    ensures Next(Whole(x), Apply(file, views), Whole(x')) && Whole(x') == x'.goal && Whole(x) == x.w
  {
    hide ViewsOk, Queued, AppliedAt;
    assert x'.goal.received == x.w.received;
  }

  /** From t acts, which are at[t] steps, to t + 1. */
  predicate StepsAlong(a: Act, steps: seq<Step>, at: nat, at': nat) {
    if StepOf(a).Some? then at < |steps| && at' == at + 1 && steps[at] == StepOf(a).value else at' == at
  }

  /** After t acts the engine is where the run of steps is after at[t] of them. */
  predicate Follows(xs: seq<Bounded>, acts: seq<Act>, ws: seq<World>, steps: seq<Step>, at: seq<nat>) {
    && |xs| == |acts| + 1 == |at| && |ws| == |steps| + 1 && at[0] == 0 && at[|acts|] == |steps|
    && (forall t :: 0 <= t < |xs| ==> at[t] <= |steps| && Whole(xs[t]) == ws[at[t]])
    && forall t :: 0 <= t < |acts| ==> StepsAlong(acts[t], steps, at[t], at[t + 1])
  }

  lemma RunOn(ws: seq<World>, steps: seq<Step>, s: Step, w: World)
    requires Run(ws, steps) && Next(ws[|steps|], s, w)
    ensures Run(ws + [w], steps + [s])
  {
    hide Next;
  }

  /** The run of steps after one more act. */
  lemma FollowOn(xs: seq<Bounded>, acts: seq<Act>, ws: seq<World>, steps: seq<Step>, at: seq<nat>, a: Act, x': Bounded)
    requires Follows(xs, acts, ws, steps, at)
    ensures var s := StepOf(a);
      if s.Some? then Follows(xs + [x'], acts + [a], ws + [Whole(x')], steps + [s.value], at + [|steps| + 1])
      else Whole(x') == Whole(xs[|acts|]) ==> Follows(xs + [x'], acts + [a], ws, steps, at + [|steps|])
  {
    hide Whole, StepOf;
    forall t | 0 <= t < |acts|
      ensures (acts + [a])[t] == acts[t] && (xs + [x'])[t] == xs[t]
    {
    }
  }

  /** Every run with the bounded channel is a run of the engine whose Apply is one step: step by step, and
      with the sends and the end of an Apply leaving no trace. */
  lemma {:induction false} Refines(xs: seq<Bounded>, acts: seq<Act>, workers: nat)
    returns (ws: seq<World>, steps: seq<Step>, at: seq<nat>)
    requires BoundedRun(xs, acts, workers)
    ensures Run(ws, steps) && Follows(xs, acts, ws, steps, at)
    decreases |acts|, 1
  {
    hide Moves, Next, StepsAlong;
    var n := |acts|;
    if n == 0 {
      ws, steps, at := [START], [], [0];
    } else {
      ws, steps, at := RefinesLast(xs, acts, workers);
    }
  }

  lemma {:induction false} RefinesLast(xs: seq<Bounded>, acts: seq<Act>, workers: nat)
    returns (ws: seq<World>, steps: seq<Step>, at: seq<nat>)
    requires BoundedRun(xs, acts, workers) && acts != []
    ensures Run(ws, steps) && Follows(xs, acts, ws, steps, at)
    decreases |acts|, 0
  {
    hide Moves, Next, StepsAlong, Whole, Run, StepOf;
    var n := |acts|;
    var xs', acts', a := xs[..n], acts[..n - 1], acts[n - 1];
    assert BoundedRun(xs', acts', workers);
    ws, steps, at := Refines(xs', acts', workers);
    assert Moves(xs[n - 1], a, xs[n - 1 + 1], workers);
    Simulates(xs[n - 1], a, xs[n], workers);
    FollowOn(xs', acts', ws, steps, at, a, xs[n]);
    assert xs' + [xs[n]] == xs && acts' + [a] == acts;
    if StepOf(a).Some? {
      RunOn(ws, steps, StepOf(a).value, Whole(xs[n]));
      ws, steps, at := ws + [Whole(xs[n])], steps + [StepOf(a).value], at + [|steps| + 1];
    } else {
      at := at + [|steps|];
    }
  }

  // ---------------------------------------------------------------- what every run keeps

  /** The engine's invariant, no more in the channel than it holds, and no more at work than work. */
  predicate Sound(x: Bounded, workers: nat) {
    Inv(Whole(x)) && |Channel(x)| <= CAPACITY && Busy(x) <= workers
  }

  lemma OneMore<T>(s: multiset<T>, x: T)
    ensures |s + multiset{x}| == |s| + 1
  {
  }

  /** A worker's step, with the mutex free. */
  lemma WorkBounds(x: Bounded, s: Step, x': Bounded, workers: nat)
    requires Moves(x, Work(s), x', workers) && |Channel(x)| <= CAPACITY && Busy(x) <= workers
    ensures |Channel(x')| <= CAPACITY && Busy(x') <= workers
  {
    hide BuildFrom;
    match s {
      case Receive => OneMore(x.w.received, x.w.queue[0]);
      case Begin(p) => OneLess(x.w.received, p);
      case Finish(j, seen) =>
    }
  }

  lemma Bounds(x: Bounded, a: Act, x': Bounded, workers: nat)
    requires Moves(x, a, x', workers) && |Channel(x)| <= CAPACITY && Busy(x) <= workers
    ensures |Channel(x')| <= CAPACITY && Busy(x') <= workers
  {
    hide Next;
    match a {
      case Work(s) => WorkBounds(x, s, x', workers);
      case Enter(file, views) => EnterBusy(x, file, views, x');
      case Take => OneMore(x.received, x.channel[0]);
      case Send =>
      case Leave =>
    }
  }

  /** Entering Apply moves nothing, and leaves to be sent what is to be queued. */
  lemma EnterBusy(x: Bounded, file: seq<Entry>, views: map<string, View>, x': Bounded)
    requires Enters(x, file, views, x')
    ensures Busy(x') == Busy(x) && Channel(x') == Channel(x) && |x'.todo| == |Queued(x.w, file, views)|
  {
    hide Queued, ViewsOk, AppliedAt;
    assert x'.goal.queue[|x.w.queue|..] == x'.todo;
    assert |multiset(x'.todo)| == |multiset(Queued(x.w, file, views))|;
  }

  lemma MoveKeeps(x: Bounded, a: Act, x': Bounded, workers: nat)
    requires Sound(x, workers) && Moves(x, a, x', workers)
    ensures Sound(x', workers)
  {
    hide Moves, Inv, Next, Whole, Channel, Busy;
    Bounds(x, a, x', workers);
    Simulates(x, a, x', workers);
    if StepOf(a).Some? { StepKeeps(Whole(x), StepOf(a).value, Whole(x')); }
  }

  lemma {:induction false} BoundedRunKeeps(xs: seq<Bounded>, acts: seq<Act>, workers: nat, t: nat)
    requires BoundedRun(xs, acts, workers) && t < |xs|
    ensures Sound(xs[t], workers)
  {
    hide Moves, Inv;
    if t == 0 {
      StartOk();
    } else {
      BoundedRunKeeps(xs, acts, workers, t - 1);
      assert Moves(xs[t - 1], acts[t - 1], xs[t - 1 + 1], workers);
      MoveKeeps(xs[t - 1], acts[t - 1], xs[t], workers);
    }
  }

  /** No build is lost here either: a pending clip is still to be sent, in the channel, received, or being
      built for its current key. */
  lemma NoneLost(xs: seq<Bounded>, acts: seq<Act>, workers: nat, t: nat, p: string)
    requires BoundedRun(xs, acts, workers) && t < |xs|
    requires p in Whole(xs[t]).clips && Whole(xs[t]).clips[p].status == Pending
    ensures p in Todo(xs[t]) || p in Channel(xs[t]) || p in Whole(xs[t]).received
         || exists j :: j in Whole(xs[t]).inflight && j.path == p && j.key == Whole(xs[t]).clips[p].key
  {
    hide BoundedRun, Run, StepsAlong;
    assert |xs| == |acts| + 1 by { RunLength(xs, acts, workers); }
    var ws, steps, at := Refines(xs, acts, workers);
    NoBuildLost(ws, steps, at[t], p);
  }

  lemma RunLength(xs: seq<Bounded>, acts: seq<Act>, workers: nat)
    requires BoundedRun(xs, acts, workers)
    ensures |xs| == |acts| + 1
  {
  }

  // ---------------------------------------------------------------- places enough

  /** There are places for all paths, in the channel and with the workers that wait at it. */
  predicate Enough(x: Bounded, workers: nat) {
    |Todo(x)| + |Channel(x)| + Busy(x) <= CAPACITY + workers
  }

  /** What Apply's caller could count: the paths it is going to queue, those in the channel, and the workers
      that do not wait. */
  lemma EnterEnough(x: Bounded, file: seq<Entry>, views: map<string, View>, x': Bounded, workers: nat)
    requires Enters(x, file, views, x')
    ensures Enough(x', workers) <==>
      |Queued(x.w, file, views)| + |x.w.queue| + x.w.building + |x.w.received| <= CAPACITY + workers
  {
    hide Next, Queued;
    EnterBusy(x, file, views, x');
  }

  /** Nothing but another Apply can happen. */
  ghost predicate Ended(x: Bounded, workers: nat) {
    forall a, x' :: Moves(x, a, x', workers) ==> a.Enter?
  }

  /** Apply waits for a place in the channel, and every worker for the mutex. */
  predicate Jammed(x: Bounded, workers: nat) {
    x.Applying? && x.todo != [] && |x.channel| >= CAPACITY && Busy(x) >= workers
  }

  /** What is still to happen. */
  function Left(x: Bounded): nat { Measure(Whole(x)) + |Todo(x)| + if x.Applying? then 1 else 0 }

  lemma MoveProgress(x: Bounded, a: Act, x': Bounded, workers: nat)
    requires Moves(x, a, x', workers) && !a.Enter?
    ensures Left(x') < Left(x)
  {
    hide Next, Measure, Busy;
    Simulates(x, a, x', workers);
    if StepOf(a).Some? { WorkersProgress(Whole(x), StepOf(a).value, Whole(x')); }
  }

  /** Something else can happen unless everything is done or jammed. */
  lemma MoveThere(x: Bounded, workers: nat) returns (a: Act, x': Bounded)
    requires Sound(x, workers) && workers > 0 && Left(x) > 0 && !Jammed(x, workers)
    ensures Moves(x, a, x', workers) && !a.Enter?
  {
    hide Inv, Next, Measure;
    if x.Free? {
      var s, w' := WorkThere(x.w, workers);
      a, x' := Work(s), Free(w');
    } else if x.todo == [] {
      a, x' := Leave, Free(Whole(x));
    } else if |x.channel| < CAPACITY {
      a, x' := Send, x.(todo := x.todo[1..], channel := x.channel + [x.todo[0]]);
    } else {
      a, x' := Take, x.(channel := x.channel[1..], received := x.received + multiset{x.channel[0]});
    }
  }

  /** A worker's step for which a worker is there. */
  lemma WorkThere(w: World, workers: nat) returns (s: Step, w': World)
    requires Inv(w) && Measure(w) > 0 && w.building + |w.received| <= workers && workers > 0
    ensures Next(w, s, w') && !s.Apply? && (s.Receive? ==> w.building + |w.received| < workers)
  {
    hide Inv;
    if w.building + |w.received| < workers {
      s, w' := WorkersNotStuck(w);
    } else {
      BuildsAreJobs(w);
      s, w' := WorkersBusy(w);
    }
  }

  lemma BuildsAreJobs(w: World)
    requires Inv(w)
    ensures w.building == |w.inflight|
  {
  }

  lemma WorkersBusy(w: World) returns (s: Step, w': World)
    requires w.building == |w.inflight| && w.building + |w.received| > 0
    ensures Next(w, s, w') && !s.Apply? && !s.Receive?
  {
    hide BuildFrom;
    if |w.received| > 0 {
      var p :| p in w.received;
      s, w' := Begin(p), BeginBuild(w, p);
    } else {
      var j :| j in w.inflight;
      var nothing := Seen(false, None, None);
      s, w' := Finish(j, nothing), FinishBuild(w, j, BuildFrom(j, nothing));
    }
  }

  /** When nothing can happen any more, everything is settled or jammed. */
  lemma EndedMeans(x: Bounded, workers: nat)
    requires Sound(x, workers) && workers > 0
    ensures Ended(x, workers) <==> (Left(x) == 0 || Jammed(x, workers))
    ensures Left(x) == 0 ==> x.Free? && Settled(x.w)
  {
    hide Inv, Next, Measure, Settled;
    if Left(x) == 0 { RestSettles(x.w); }
    if Left(x) > 0 && !Jammed(x, workers) {
      var a, x' := MoveThere(x, workers);
    }
    forall a, x' | Moves(x, a, x', workers) && (Left(x) == 0 || Jammed(x, workers))
      ensures a.Enter?
    {
      if !a.Enter? { MoveProgress(x, a, x', workers); }
    }
  }

  /** Until the next Apply nothing changes whether there are places enough: an Apply short of them is never over. */
  lemma EnoughStays(x: Bounded, a: Act, x': Bounded, workers: nat)
    requires Sound(x, workers) && Moves(x, a, x', workers) && !a.Enter?
    ensures Enough(x', workers) <==> Enough(x, workers)
  {
    hide Inv, Next;
    Bounds(x, a, x', workers);
    if a.Take? { OneMore(x.received, x.channel[0]); }
  }

  /** No further Apply. */
  ghost predicate Quiet(xs: seq<Bounded>, acts: seq<Act>, workers: nat) {
    && |xs| == |acts| + 1 && Sound(xs[0], workers)
    && forall t :: 0 <= t < |acts| ==> !acts[t].Enter? && Moves(xs[t], acts[t], xs[t + 1], workers)
  }

  lemma {:induction false} QuietKeeps(xs: seq<Bounded>, acts: seq<Act>, workers: nat, t: nat)
    requires Quiet(xs, acts, workers) && t < |xs|
    ensures Sound(xs[t], workers) && t + Left(xs[t]) <= Left(xs[0])
      && (Enough(xs[t], workers) <==> Enough(xs[0], workers))
  {
    hide Moves, Sound, Left, Enough;
    if t > 0 {
      QuietKeeps(xs, acts, workers, t - 1);
      assert Moves(xs[t - 1], acts[t - 1], xs[t - 1 + 1], workers);
      MoveKeeps(xs[t - 1], acts[t - 1], xs[t], workers);
      MoveProgress(xs[t - 1], acts[t - 1], xs[t], workers);
      EnoughStays(xs[t - 1], acts[t - 1], xs[t], workers);
    }
  }

  /** From any state on, without a further Apply: only so much can happen, whatever the order; and when nothing
      more can, everything is settled if there were places enough, and otherwise nothing ever moves again and
      the Apply that was short of them still holds the mutex. */
  lemma QuietExactly(xs: seq<Bounded>, acts: seq<Act>, workers: nat)
    requires Quiet(xs, acts, workers) && workers > 0
    ensures |acts| <= Left(xs[0])
    ensures !Enough(xs[0], workers) ==> xs[|acts|].Applying? && xs[|acts|].todo != []
    ensures Ended(xs[|acts|], workers) ==>
      if Enough(xs[0], workers) then xs[|acts|].Free? && Settled(xs[|acts|].w) else Jammed(xs[|acts|], workers)
  {
    hide Moves, Inv, Ended, Settled, Left;
    QuietKeeps(xs, acts, workers, |acts|);
    EndedMeans(xs[|acts|], workers);
    assert Left(xs[|acts|]) == 0 ==> xs[|acts|].Free?;
  }

  /** And such an end is always reached. */
  lemma {:induction false} QuietEnds(x: Bounded, workers: nat) returns (xs: seq<Bounded>, acts: seq<Act>)
    requires Sound(x, workers) && workers > 0
    ensures Quiet(xs, acts, workers) && xs[0] == x && Ended(xs[|acts|], workers)
    decreases Left(x)
  {
    hide Moves, Sound, Left, Jammed, Ended;
    EndedMeans(x, workers);
    if Left(x) == 0 || Jammed(x, workers) {
      return [x], [];
    }
    var a, x' := MoveThere(x, workers);
    MoveKeeps(x, a, x', workers);
    MoveProgress(x, a, x', workers);
    var rest, others := QuietEnds(x', workers);
    xs, acts := [x] + rest, [a] + others;
  }

  // ---------------------------------------------------------------- one clip too many

  /** What validation asks of a folder's and a clip's name. */
  predicate NameOk(name: string) {
    && 0 < |name| <= 200 && name[0] != '.' && name[0] != ' ' && name[|name| - 1] != ' '
    && forall c :: c in name ==> ' ' <= c && c != '/' && c != '\\' && c != 127 as char
  }

  /** A clip's path: its group's folders, and its output. */
  function PathOf(group: seq<string>, output: string): string {
    if group == [] then output else group[0] + "/" + PathOf(group[1..], output)
  }

  ghost predicate Acceptable(e: Entry) {
    && !e.problem && NameOk(e.clip.output) && 0 <= e.clip.start < e.clip.end
    && exists group :: e.clip.path == PathOf(group, e.clip.output) && forall g :: g in group ==> NameOk(g)
  }

  function Folders(k: nat): seq<string> { if k == 0 then [] else ["a"] + Folders(k - 1) }

  /** The clip a in k folders. */
  function Nested(k: nat): Clip { Clip(PathOf(Folders(k), "a"), "m.mkv", "a", 0, 10, 0) }

  /** n new clips of one source file. */
  function Many(n: nat): seq<Entry> {
    if n == 0 then [] else Many(n - 1) + [Entry(Nested(n - 1), false)]
  }

  function Paths(n: nat): seq<string> {
    if n == 0 then [] else Paths(n - 1) + [Nested(n - 1).path]
  }

  const ANY_SOURCE := FileID("m.mkv", 1)

  function NoneIndexed(file: seq<Entry>): map<string, View> {
    map p | p in Want(file) :: View(Some("m.mkv"), Some(ANY_SOURCE), true, None)
  }

  lemma {:induction false} NestedOk(k: nat)
    ensures |Nested(k).path| == 2 * k + 1 && Acceptable(Entry(Nested(k), false))
    ensures forall g :: g in Folders(k) ==> NameOk(g)
  {
    if k > 0 {
      NestedOk(k - 1);
      assert Folders(k)[1..] == Folders(k - 1);
    }
  }

  lemma NoneOfThem()
    ensures Many(0) == [] && Paths(0) == []
  {
  }

  lemma NothingWanted()
    ensures Want([]) == map[] && Rejected([]) == {}
  {
  }

  lemma OneMorePath(paths: seq<string>, keys: set<string>, path: string)
    requires multiset(paths) == multiset(keys) && path !in keys
    ensures multiset(paths + [path]) == multiset(keys + {path})
  {
  }

  lemma {:induction false} ManyWanted(n: nat)
    ensures Rejected(Many(n)) == {} && |Paths(n)| == n
    ensures multiset(Paths(n)) == multiset(Want(Many(n)).Keys)
    ensures forall p :: p in Want(Many(n)).Keys ==> |p| < 2 * n
  {
    hide Nested, Acceptable, Want, Rejected, Many, Paths;
    if n == 0 {
      NothingWanted();
      NoneOfThem();
    } else {
      ManyWanted(n - 1);
      NestedOk(n - 1);
      var before, path := Want(Many(n - 1)).Keys, Nested(n - 1).path;
      ManyOneMore(n - 1);
      OneMorePath(Paths(n - 1), before, path);
    }
  }

  lemma ManyOneMore(n: nat)
    ensures Want(Many(n + 1)).Keys == Want(Many(n)).Keys + {Nested(n).path}
    ensures Rejected(Many(n + 1)) == Rejected(Many(n)) && Paths(n + 1) == Paths(n) + [Nested(n).path]
  {
    hide Nested, Want, Rejected;
    WantMore(Many(n), Entry(Nested(n), false));
  }

  lemma {:induction false} ManyAcceptable(n: nat)
    ensures |Many(n)| == n && forall e :: e in Many(n) ==> Acceptable(e)
  {
    hide Nested, Acceptable;
    if n > 0 {
      ManyAcceptable(n - 1);
      NestedOk(n - 1);
    }
  }

  /** A new engine after that, with the paths queued in some order. */
  function Filled(file: seq<Entry>, queue: seq<string>): World {
    var want := Want(file);
    World(map p | p in want :: ClipState(want[p], "m.mkv", ClipKey(want[p], ANY_SOURCE), Pending, None),
          queue, want.Keys, 0, multiset{}, multiset{}, map[])
  }

  lemma NewAppliedAt(file: seq<Entry>, p: string)
    ensures AppliedAt(START, Want(file), NoneIndexed(file), p).out == None
    ensures p in Want(file) ==>
      AppliedAt(START, Want(file), NoneIndexed(file), p) ==
        Local(ClipState(Want(file)[p], "m.mkv", ClipKey(Want(file)[p], ANY_SOURCE), Pending, None), None, true)
  {
    hide Want;
  }

  /** Applying any new clips of one source file to a new engine. */
  lemma NewApplied(file: seq<Entry>, queue: seq<string>)
    requires Rejected(file) == {} && multiset(queue) == multiset(Want(file).Keys)
    ensures Next(START, Apply(file, NoneIndexed(file)), Filled(file, queue))
  {
    hide Want, Rejected, AppliedAt;
    var views, w := NoneIndexed(file), Filled(file, queue);
    forall p
      ensures AppliedAt(START, Want(file), views, p).out == None
      ensures p in Want(file) ==> AppliedAt(START, Want(file), views, p).build
      ensures p in Want(file) ==> AppliedAt(START, Want(file), views, p).st == w.clips[p]
    {
      NewAppliedAt(file, p);
    }
    assert Queued(START, file, views) == Want(file).Keys;
    assert w.queue[|START.queue|..] == queue;
  }

  /** After entering Apply with x, whatever happens, it is never over, and when nothing more happens everything
      is jammed. */
  ghost predicate NeverOver(x: Bounded, workers: nat) {
    forall xs: seq<Bounded>, acts :: Quiet(xs, acts, workers) && xs[0] == x ==> HeldUp(xs[|acts|], workers)
  }

  ghost predicate HeldUp(x: Bounded, workers: nat) {
    x.Applying? && x.todo != [] && (Ended(x, workers) ==> Jammed(x, workers))
  }

  /** A new engine and a file of acceptable clips, one more than there are places for. */
  lemma TooMany(workers: nat) returns (file: seq<Entry>, x: Bounded)
    requires workers > 0
    ensures |file| == CAPACITY + workers + 1 && forall e :: e in file ==> Acceptable(e)
    ensures Moves(Free(START), Enter(file, NoneIndexed(file)), x, workers) && NeverOver(x, workers)
  {
    hide Many, Paths, Next, NoneIndexed, Acceptable, Ended, Jammed, Want, Rejected, Moves, Sound;
    var n := CAPACITY + workers + 1;
    file := Many(n);
    ManyAcceptable(n);
    ManyWanted(n);
    NewApplied(file, Paths(n));
    x := Entered(file, Paths(n));
    EnteredMoves(file, Paths(n), workers);
    forall xs: seq<Bounded>, acts | Quiet(xs, acts, workers) && xs[0] == x
      ensures HeldUp(xs[|acts|], workers)
    {
      QuietExactly(xs, acts, workers);
    }
  }

  function Entered(file: seq<Entry>, queue: seq<string>): Bounded {
    Applying(Filled(file, queue), queue, [], multiset{})
  }

  lemma EnteredMoves(file: seq<Entry>, queue: seq<string>, workers: nat)
    requires Next(START, Apply(file, NoneIndexed(file)), Filled(file, queue))
    ensures Moves(Free(START), Enter(file, NoneIndexed(file)), Entered(file, queue), workers)
    ensures Enough(Entered(file, queue), workers) <==> |queue| <= CAPACITY + workers
  {
    hide Next, NoneIndexed, Want;
    assert Filled(file, queue).queue == [] + queue;
  }
}
