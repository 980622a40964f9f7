/**
 Runs of the session pool that lose a live subprocess, one for each way to lose
 one: a cancelled admission, a turn on a session that has left the pool, and a
 drop that pops a newer session of the same slug.
 */
module LostProcesses {
  import opened Collections
  import opened Options
  import opened SessionPool
  import opened PoolTracking

  // ----- Playing a run scene by scene ------------------------------------------------------

  /** A task whose lock was free on arrival acts next. */
  ghost predicate Prompt(s: State, a: Action) {
    forall u: nat | u < |s.tasks| && Awaits(s.tasks[u]).Some? && !s.tasks[u].queued :: a == Acquire(u)
  }

  ghost predicate AlwaysPrompt(s: State, run: seq<Action>)
    requires Possible(s, run)
    decreases run
  {
    run == [] || (Prompt(s, run[0]) && AlwaysPrompt(Next(s, run[0]), run[1..]))
  }

  ghost predicate Shot(s: State, a: Action, after: State) {
    Enabled(s, a) && Prompt(s, a) && Next(s, a) == after
  }

  /** Scene n + 1 is what action n makes of scene n. */
  ghost predicate Follows(scene: nat -> State, run: seq<Action>, n: nat)
    requires n < |run|
  {
    Shot(scene(n), run[n], scene(n + 1))
  }

  lemma {:induction false} Plays(scene: nat -> State, run: seq<Action>, n: nat)
    requires n <= |run| && forall k: nat | k < |run| :: Follows(scene, run, k)
    ensures Possible(scene(n), run[n..]) && AlwaysPrompt(scene(n), run[n..]) && After(scene(n), run[n..]) == scene(|run|)
    decreases |run| - n
  {
    hide Enabled, Next, Prompt;
    if n < |run| {
      assert run[n..][0] == run[n] && run[n..][1..] == run[n + 1..];
      assert Follows(scene, run, n);
      Plays(scene, run, n + 1);
    } else {
      assert run[n..] == [];
    }
  }

  /** With at most one session in the pool, the peak is one once a session was locked. */
  lemma PeakStays(s: State, a: Action, after: State)
    requires Enabled(s, a) && Effect(s, a) == after && after.peak == 1 && |after.pool| <= 1
    ensures Next(s, a) == after
  {
    hide Enabled, Effect;
    assert Busy(after) <= after.pool.Keys;
    SubsetSize(Busy(after), after.pool.Keys);
  }

  // ----- The scenes ---------------------------------------------------------------------------

  function Scene(pool: map<string, nat>, sps: seq<Session>, procs: seq<Proc>, homes: seq<Home>, tasks: seq<Pc>): State {
    State(1, 1800, pool, sps, procs, homes, tasks, 1)
  }

  /** Task 0 boots a subprocess for "a", and task 1 queues behind its turn. */
  function Opening(): seq<Action> {
    [Admit(0, "a", 0, None), Acquire(0), FindDead(0), StageHome(0), Boot(0), Admit(1, "a", 1, None)]
  }

  function OpeningScene(n: nat): State
    requires n <= 6
  {
    var a := map["a" := 0];
    var home, proc := [Home(0, true)], [Proc(0, 0, true)];
    match n
    case 0 => Scene(map[], [], [], [], [Idle, Idle, Idle]).(peak := 0)
    case 1 => Scene(a, [Session("a", None, None, None, 0)], [], [], [TurnWait(0, false), Idle, Idle]).(peak := 0)
    case 2 => Scene(a, [Session("a", None, None, Some(0), 0)], [], [], [Turn(0, Checking), Idle, Idle])
    case 3 => Scene(a, [Session("a", None, None, Some(0), 0)], [], [], [Turn(0, Staging), Idle, Idle])
    case 4 => Scene(a, [Session("a", None, Some(0), Some(0), 0)], [], home, [Turn(0, Booting), Idle, Idle])
    case 5 => Scene(a, [Session("a", Some(0), Some(0), Some(0), 0)], proc, home, [Turn(0, Driving(0)), Idle, Idle])
    case 6 => Scene(a, [Session("a", Some(0), Some(0), Some(0), 0)], proc, home, [Turn(0, Driving(0)), TurnWait(0, true), Idle])
  }

  lemma OpeningStart()
    ensures OpeningScene(0) == Start(1, 1800, 3)
  {
    assert seq(3, _ => Idle) == [Idle, Idle, Idle];
  }

  lemma OpeningFollows(n: nat)
    requires n < 6
    ensures Shot(OpeningScene(n), Opening()[n], OpeningScene(n + 1))
  {
    if n == 0 {
      FirstAdmitted();
    } else if n == 1 {
      FirstLocked();
    } else if n < 4 {
      FirstStages(n);
    } else {
      FirstBoots(n);
    }
  }

  lemma FirstStages(n: nat)
    requires 2 <= n < 4
    ensures Shot(OpeningScene(n), Opening()[n], OpeningScene(n + 1))
  {
    hide AdmitOk, Evictable, Admitted, Popped, Busy, Max;
    PeakStays(OpeningScene(n), Opening()[n], OpeningScene(n + 1));
  }

  lemma FirstBoots(n: nat)
    requires 4 <= n < 6
    ensures Shot(OpeningScene(n), Opening()[n], OpeningScene(n + 1))
  {
    hide OpeningScene, Opening, Shot;
    if n == 4 { FirstBooted(); } else { SecondQueues(); }
  }

  lemma FirstBooted()
    ensures Shot(OpeningScene(4), Opening()[4], OpeningScene(5))
  {
    hide AdmitOk, Evictable, Admitted, Popped, Busy, Max;
    PeakStays(OpeningScene(4), Opening()[4], OpeningScene(5));
  }

  lemma SecondQueues()
    ensures Shot(OpeningScene(5), Opening()[5], OpeningScene(6))
  {
    PeakStays(OpeningScene(5), Opening()[5], OpeningScene(6));
  }

  lemma FirstAdmitted()
    ensures Shot(OpeningScene(0), Opening()[0], OpeningScene(1))
  {
    assert Busy(OpeningScene(1)) == {};
  }

  lemma FirstLocked()
    ensures Shot(OpeningScene(1), Opening()[1], OpeningScene(2))
  {
    var after := OpeningScene(2);
    assert Effect(OpeningScene(1), Acquire(0)) == after.(peak := 0);
    assert Busy(after.(peak := 0)) == {"a"};
  }

  // ----- A cancelled admission ---------------------------------------------------------------------

  /** The first turn ends and wakes the second; before that one resumes, task 2
      admits "b", pops "a" and queues for its lock. The woken turn takes the
      lock, the admission is cancelled, the turn ends. */
  function Cancelled(): seq<Action> {
    Opening() + [Finish(0, 2), Complete(0), EndTurn(0), Admit(2, "b", 3, Some("a")), Acquire(1), FindAlive(1),
                 Cancel(2), Finish(1, 4), Complete(1), EndTurn(1)]
  }

  function CancelledScene(n: nat): State {
    if n <= 6 then OpeningScene(n) else
    var a, b := map["a" := 0], map["b" := 1];
    var home, proc := [Home(0, true)], [Proc(0, 0, true)];
    var newer := Session("b", None, None, None, 3);
    match n
    case 7 => Scene(a, [Session("a", Some(0), Some(0), Some(0), 2)], proc, home, [Turn(0, Completing), TurnWait(0, true), Idle])
    case 8 => Scene(a, [Session("a", Some(0), Some(0), Some(0), 2)], proc, home, [Turn(0, Yielding), TurnWait(0, true), Idle])
    case 9 => Scene(a, [Session("a", Some(0), Some(0), None, 2)], proc, home, [Idle, TurnWait(0, true), Idle])
    case 10 => Scene(b, [Session("a", Some(0), Some(0), None, 2), newer], proc, home, [Idle, TurnWait(0, true), LruWait(1, 0, true)])
    case 11 => Scene(b, [Session("a", Some(0), Some(0), Some(1), 2), newer], proc, home, [Idle, Turn(0, Checking), LruWait(1, 0, true)])
    case 12 => Scene(b, [Session("a", Some(0), Some(0), Some(1), 2), newer], proc, home, [Idle, Turn(0, Driving(0)), LruWait(1, 0, true)])
    case 13 => Scene(b, [Session("a", Some(0), Some(0), Some(1), 2), newer], proc, home, [Idle, Turn(0, Driving(0)), Idle])
    case 14 => Scene(b, [Session("a", Some(0), Some(0), Some(1), 4), newer], proc, home, [Idle, Turn(0, Completing), Idle])
    case 15 => Scene(b, [Session("a", Some(0), Some(0), Some(1), 4), newer], proc, home, [Idle, Turn(0, Yielding), Idle])
    case _ => Scene(b, [Session("a", Some(0), Some(0), None, 4), newer], proc, home, [Idle, Idle, Idle])
  }

  lemma FirstEnds(n: nat)
    requires 6 <= n < 9
    ensures Shot(CancelledScene(n), Cancelled()[n], CancelledScene(n + 1))
  {
    hide AdmitOk, Evictable, Admitted, Popped, Busy, Max;
    PeakStays(CancelledScene(n), Cancelled()[n], CancelledScene(n + 1));
  }

  lemma SecondAdmitted()
    ensures Shot(CancelledScene(9), Cancelled()[9], CancelledScene(10))
  {
    hide Enabled, Effect, Prompt, Next, Busy;
    var s := CancelledScene(9);
    SecondMayEnter(s);
    SecondEnters(s);
    PeakStays(s, Cancelled()[9], CancelledScene(10));
  }

  lemma SecondMayEnter(s: State)
    requires s == CancelledScene(9)
    ensures Enabled(s, Admit(2, "b", 3, Some("a"))) && Prompt(s, Admit(2, "b", 3, Some("a")))
  {
    assert Registered(s, "b", 3).pool == map["a" := 0, "b" := 1];
  }

  lemma SecondEnters(s: State)
    requires s == CancelledScene(9) && Enabled(s, Admit(2, "b", 3, Some("a")))
    ensures Effect(s, Admit(2, "b", 3, Some("a"))) == CancelledScene(10)
  {
    hide Enabled;
    assert Awaits(s.tasks[1]) == Some(0);
    assert map["a" := 0, "b" := 1] - {"a"} == map["b" := 1];
  }

  lemma WokenDrives(n: nat)
    requires 10 <= n < 12
    ensures Shot(CancelledScene(n), Cancelled()[n], CancelledScene(n + 1))
  {
    hide AdmitOk, Evictable, Admitted, Popped, Busy, Max;
    PeakStays(CancelledScene(n), Cancelled()[n], CancelledScene(n + 1));
  }

  lemma AdmissionCancelled(n: nat)
    requires 12 <= n < 14
    ensures Shot(CancelledScene(n), Cancelled()[n], CancelledScene(n + 1))
  {
    hide AdmitOk, Evictable, Admitted, Popped, Busy, Max;
    PeakStays(CancelledScene(n), Cancelled()[n], CancelledScene(n + 1));
  }

  lemma WokenEnds(n: nat)
    requires 14 <= n < 16
    ensures Shot(CancelledScene(n), Cancelled()[n], CancelledScene(n + 1))
  {
    hide AdmitOk, Evictable, Admitted, Popped, Busy, Max;
    PeakStays(CancelledScene(n), Cancelled()[n], CancelledScene(n + 1));
  }

  lemma CancelledPlays()
    ensures var s := Start(1, 1800, 3);
            Possible(s, Cancelled()) && AlwaysPrompt(s, Cancelled()) && After(s, Cancelled()) == CancelledScene(16)
  {
    hide Cancelled, CancelledScene, OpeningScene, Opening, Possible, AlwaysPrompt, After, Shot, Start;
    CancelledParts();
    forall n: nat | n < |Cancelled()| ensures Follows(CancelledScene, Cancelled(), n) {
      if n < 6 { OpeningFollows(n); }
      else if n < 9 { FirstEnds(n); }
      else if n == 9 { SecondAdmitted(); }
      else if n < 12 { WokenDrives(n); }
      else if n < 14 { AdmissionCancelled(n); }
      else { WokenEnds(n); }
    }
    Plays(CancelledScene, Cancelled(), 0);
    OpeningStart();
    assert Cancelled()[0..] == Cancelled();
  }

  lemma CancelledParts()
    ensures |Cancelled()| == 16 && forall n: nat | n < 6 :: Cancelled()[n] == Opening()[n]
    ensures forall n: nat | n <= 6 :: CancelledScene(n) == OpeningScene(n)
  {
  }

  /** A run that loses a subprocess by a cancelled admission. */
  lemma CancelledAdmissionLoses()
    ensures var s := Start(1, 1800, 3); Possible(s, Cancelled()) && AlwaysPrompt(s, Cancelled()) && Untracked(After(s, Cancelled()), 0)
  {
    hide Possible, AlwaysPrompt, After;
    CancelledPlays();
  }

  // ----- A turn on a session that has left the pool ----------------------------------------------------

  /** The first turn fails, evicts and drops its session; the second turn, queued
      for its lock, boots a subprocess on it. */
  function Orphaned(): seq<Action> {
    Opening() + [Fail(0), Evict(0), Evict(0), Evict(0), Drop(0), EndTurn(0), Acquire(1), FindDead(1), StageHome(1), Boot(1),
                 Finish(1, 2), Complete(1), EndTurn(1)]
  }

  function OrphanedScene(n: nat): State {
    if n <= 6 then OpeningScene(n) else
    var a := map["a" := 0];
    var home, gone, second := [Home(0, true)], [Home(0, false)], [Home(0, false), Home(0, true)];
    var proc, dead, other := [Proc(0, 0, true)], [Proc(0, 0, false)], [Proc(0, 0, false), Proc(0, 1, true)];
    match n
    case 7 => Scene(a, [Session("a", Some(0), Some(0), Some(0), 0)], proc, home, [Turn(0, Evicting(Killing)), TurnWait(0, true), Idle])
    case 8 => Scene(a, [Session("a", None, Some(0), Some(0), 0)], dead, home, [Turn(0, Evicting(Persisting)), TurnWait(0, true), Idle])
    case 9 => Scene(a, [Session("a", None, Some(0), Some(0), 0)], dead, home, [Turn(0, Evicting(Removing)), TurnWait(0, true), Idle])
    case 10 => Scene(a, [Session("a", None, None, Some(0), 0)], dead, gone, [Turn(0, Dropping), TurnWait(0, true), Idle])
    case 11 => Scene(map[], [Session("a", None, None, Some(0), 0)], dead, gone, [Turn(0, Yielding), TurnWait(0, true), Idle])
    case 12 => Scene(map[], [Session("a", None, None, None, 0)], dead, gone, [Idle, TurnWait(0, true), Idle])
    case 13 => Scene(map[], [Session("a", None, None, Some(1), 0)], dead, gone, [Idle, Turn(0, Checking), Idle])
    case 14 => Scene(map[], [Session("a", None, None, Some(1), 0)], dead, gone, [Idle, Turn(0, Staging), Idle])
    case 15 => Scene(map[], [Session("a", None, Some(1), Some(1), 0)], dead, second, [Idle, Turn(0, Booting), Idle])
    case 16 => Scene(map[], [Session("a", Some(1), Some(1), Some(1), 0)], other, second, [Idle, Turn(0, Driving(1)), Idle])
    case 17 => Scene(map[], [Session("a", Some(1), Some(1), Some(1), 2)], other, second, [Idle, Turn(0, Completing), Idle])
    case 18 => Scene(map[], [Session("a", Some(1), Some(1), Some(1), 2)], other, second, [Idle, Turn(0, Yielding), Idle])
    case _ => Scene(map[], [Session("a", Some(1), Some(1), None, 2)], other, second, [Idle, Idle, Idle])
  }

  lemma TurnFails(n: nat)
    requires 6 <= n < 8
    ensures Shot(OrphanedScene(n), Orphaned()[n], OrphanedScene(n + 1))
  {
    hide AdmitOk, Evictable, Admitted, Popped, Busy, Max;
    PeakStays(OrphanedScene(n), Orphaned()[n], OrphanedScene(n + 1));
  }

  lemma TurnEvicts(n: nat)
    requires 8 <= n < 10
    ensures Shot(OrphanedScene(n), Orphaned()[n], OrphanedScene(n + 1))
  {
    hide AdmitOk, Evictable, Admitted, Popped, Busy, Max;
    PeakStays(OrphanedScene(n), Orphaned()[n], OrphanedScene(n + 1));
  }

  lemma TurnDrops(n: nat)
    requires 10 <= n < 12
    ensures Shot(OrphanedScene(n), Orphaned()[n], OrphanedScene(n + 1))
  {
    hide AdmitOk, Evictable, Admitted, Popped, Busy, Max;
    PeakStays(OrphanedScene(n), Orphaned()[n], OrphanedScene(n + 1));
  }

  lemma OrphanStages(n: nat)
    requires 12 <= n < 14
    ensures Shot(OrphanedScene(n), Orphaned()[n], OrphanedScene(n + 1))
  {
    hide AdmitOk, Evictable, Admitted, Popped, Busy, Max;
    PeakStays(OrphanedScene(n), Orphaned()[n], OrphanedScene(n + 1));
  }

  lemma OrphanBoots(n: nat)
    requires 14 <= n < 16
    ensures Shot(OrphanedScene(n), Orphaned()[n], OrphanedScene(n + 1))
  {
    hide AdmitOk, Evictable, Admitted, Popped, Busy, Max;
    PeakStays(OrphanedScene(n), Orphaned()[n], OrphanedScene(n + 1));
  }

  lemma OrphanFinishes(n: nat)
    requires 16 <= n < 18
    ensures Shot(OrphanedScene(n), Orphaned()[n], OrphanedScene(n + 1))
  {
    hide AdmitOk, Evictable, Admitted, Popped, Busy, Max;
    PeakStays(OrphanedScene(n), Orphaned()[n], OrphanedScene(n + 1));
  }

  lemma OrphanEnds()
    ensures Shot(OrphanedScene(18), Orphaned()[18], OrphanedScene(19))
  {
    PeakStays(OrphanedScene(18), Orphaned()[18], OrphanedScene(19));
  }

  lemma OrphanedFollows(n: nat)
    requires n < 19
    ensures Shot(OrphanedScene(n), Orphaned()[n], OrphanedScene(n + 1))
  {
    hide Orphaned, OrphanedScene, OpeningScene, Opening, Shot;
    OrphanedParts();
    if n < 6 { OpeningFollows(n); }
    else if n < 8 { TurnFails(n); }
    else if n < 10 { TurnEvicts(n); }
    else if n < 12 { TurnDrops(n); }
    else if n < 14 { OrphanStages(n); }
    else if n < 16 { OrphanBoots(n); }
    else if n < 18 { OrphanFinishes(n); }
    else { OrphanEnds(); }
  }

  lemma OrphanedParts()
    ensures |Orphaned()| == 19 && forall n: nat | n < 6 :: Orphaned()[n] == Opening()[n]
    ensures forall n: nat | n <= 6 :: OrphanedScene(n) == OpeningScene(n)
  {
  }

  lemma OrphanedPlays()
    ensures var s := Start(1, 1800, 3);
            Possible(s, Orphaned()) && AlwaysPrompt(s, Orphaned()) && After(s, Orphaned()) == OrphanedScene(19)
  {
    hide Orphaned, OrphanedScene, OpeningScene, Opening, Possible, AlwaysPrompt, After, Shot, Start;
    OrphanedParts();
    forall n: nat | n < |Orphaned()| ensures Follows(OrphanedScene, Orphaned(), n) {
      OrphanedFollows(n);
    }
    Plays(OrphanedScene, Orphaned(), 0);
    OpeningStart();
    assert Orphaned()[0..] == Orphaned();
  }

  /** A run that loses a subprocess by a turn that boots it outside the pool. */
  lemma OrphanedTurnLoses()
    ensures var s := Start(1, 1800, 3); Possible(s, Orphaned()) && AlwaysPrompt(s, Orphaned()) && Untracked(After(s, Orphaned()), 1)
  {
    hide Possible, AlwaysPrompt, After;
    OrphanedPlays();
  }

  // ----- A drop of a newer session -------------------------------------------------------------------------

  /** As before, but while the orphaned turn is in flight task 0 has a turn on a
      new session for "a"; then the orphaned turn fails and drops "a". */
  function Dropped(): seq<Action> {
    Orphaned()[..16] + [Admit(0, "a", 2, None), Acquire(0), FindDead(0), StageHome(0), Boot(0), Finish(0, 3), Complete(0), EndTurn(0),
                        Fail(1), Evict(1), Evict(1), Evict(1), Drop(1)]
  }

  function DroppedScene(n: nat): State {
    if n <= 16 then OrphanedScene(n) else
    var a, former := map["a" := 1], Session("a", Some(1), Some(1), Some(1), 0);
    var home2, home3 := [Home(0, false), Home(0, true)], [Home(0, false), Home(0, true), Home(1, true)];
    var home4 := [Home(0, false), Home(0, false), Home(1, true)];
    var proc2, proc3 := [Proc(0, 0, false), Proc(0, 1, true)], [Proc(0, 0, false), Proc(0, 1, true), Proc(1, 2, true)];
    var after := [Proc(0, 0, false), Proc(0, 1, false), Proc(1, 2, true)];
    var newer := Session("a", Some(2), Some(2), None, 3);
    match n
    case 17 => Scene(a, [former, Session("a", None, None, None, 2)], proc2, home2, [TurnWait(1, false), Turn(0, Driving(1)), Idle])
    case 18 => Scene(a, [former, Session("a", None, None, Some(0), 2)], proc2, home2, [Turn(1, Checking), Turn(0, Driving(1)), Idle])
    case 19 => Scene(a, [former, Session("a", None, None, Some(0), 2)], proc2, home2, [Turn(1, Staging), Turn(0, Driving(1)), Idle])
    case 20 => Scene(a, [former, Session("a", None, Some(2), Some(0), 2)], proc2, home3, [Turn(1, Booting), Turn(0, Driving(1)), Idle])
    case 21 => Scene(a, [former, Session("a", Some(2), Some(2), Some(0), 2)], proc3, home3, [Turn(1, Driving(2)), Turn(0, Driving(1)), Idle])
    case 22 => Scene(a, [former, Session("a", Some(2), Some(2), Some(0), 3)], proc3, home3, [Turn(1, Completing), Turn(0, Driving(1)), Idle])
    case 23 => Scene(a, [former, Session("a", Some(2), Some(2), Some(0), 3)], proc3, home3, [Turn(1, Yielding), Turn(0, Driving(1)), Idle])
    case 24 => Scene(a, [former, newer], proc3, home3, [Idle, Turn(0, Driving(1)), Idle])
    case 25 => Scene(a, [former, newer], proc3, home3, [Idle, Turn(0, Evicting(Killing)), Idle])
    case 26 => Scene(a, [former.(proc := None), newer], after, home3, [Idle, Turn(0, Evicting(Persisting)), Idle])
    case 27 => Scene(a, [former.(proc := None), newer], after, home3, [Idle, Turn(0, Evicting(Removing)), Idle])
    case 28 => Scene(a, [former.(proc := None, home := None), newer], after, home4, [Idle, Turn(0, Dropping), Idle])
    case _ => Scene(map[], [former.(proc := None, home := None), newer], after, home4, [Idle, Turn(0, Yielding), Idle])
  }

  lemma NewerAdmitted(n: nat)
    requires 16 <= n < 18
    ensures Shot(DroppedScene(n), Dropped()[n], DroppedScene(n + 1))
  {
    hide DroppedScene, Dropped, Shot;
    if n == 16 { NewerEnters(); } else { NewerLocked(); }
  }

  lemma NewerEnters()
    ensures Shot(DroppedScene(16), Dropped()[16], DroppedScene(17))
  {
    PeakStays(DroppedScene(16), Dropped()[16], DroppedScene(17));
  }

  lemma NewerLocked()
    ensures Shot(DroppedScene(17), Dropped()[17], DroppedScene(18))
  {
    hide AdmitOk, Evictable, Admitted, Popped, Busy, Max;
    PeakStays(DroppedScene(17), Dropped()[17], DroppedScene(18));
  }

  lemma NewerStages(n: nat)
    requires 18 <= n < 20
    ensures Shot(DroppedScene(n), Dropped()[n], DroppedScene(n + 1))
  {
    hide AdmitOk, Evictable, Admitted, Popped, Busy, Max;
    PeakStays(DroppedScene(n), Dropped()[n], DroppedScene(n + 1));
  }

  lemma NewerBoots(n: nat)
    requires 20 <= n < 22
    ensures Shot(DroppedScene(n), Dropped()[n], DroppedScene(n + 1))
  {
    hide AdmitOk, Evictable, Admitted, Popped, Busy, Max;
    PeakStays(DroppedScene(n), Dropped()[n], DroppedScene(n + 1));
  }

  lemma NewerEnds(n: nat)
    requires 22 <= n < 24
    ensures Shot(DroppedScene(n), Dropped()[n], DroppedScene(n + 1))
  {
    hide AdmitOk, Evictable, Admitted, Popped, Busy, Max;
    PeakStays(DroppedScene(n), Dropped()[n], DroppedScene(n + 1));
  }

  lemma OrphanFails(n: nat)
    requires 24 <= n < 26
    ensures Shot(DroppedScene(n), Dropped()[n], DroppedScene(n + 1))
  {
    hide DroppedScene, Dropped, Shot;
    if n == 24 { OrphanBreaks(); } else { OrphanKilled(); }
  }

  lemma OrphanBreaks()
    ensures Shot(DroppedScene(24), Dropped()[24], DroppedScene(25))
  {
    hide AdmitOk, Evictable, Admitted, Popped, Busy, Max;
    PeakStays(DroppedScene(24), Dropped()[24], DroppedScene(25));
  }

  lemma OrphanKilled()
    ensures Shot(DroppedScene(25), Dropped()[25], DroppedScene(26))
  {
    hide AdmitOk, Evictable, Admitted, Popped, Busy, Max;
    PeakStays(DroppedScene(25), Dropped()[25], DroppedScene(26));
  }

  lemma OrphanEvicts(n: nat)
    requires 26 <= n < 28
    ensures Shot(DroppedScene(n), Dropped()[n], DroppedScene(n + 1))
  {
    hide DroppedScene, Dropped, Shot;
    if n == 26 { OrphanPersists(); } else { OrphanRemoves(); }
  }

  lemma OrphanPersists()
    ensures Shot(DroppedScene(26), Dropped()[26], DroppedScene(27))
  {
    hide AdmitOk, Evictable, Admitted, Popped, Busy, Max;
    PeakStays(DroppedScene(26), Dropped()[26], DroppedScene(27));
  }

  lemma OrphanRemoves()
    ensures Shot(DroppedScene(27), Dropped()[27], DroppedScene(28))
  {
    hide AdmitOk, Evictable, Admitted, Popped, Busy, Max;
    PeakStays(DroppedScene(27), Dropped()[27], DroppedScene(28));
  }

  lemma OrphanDrops()
    ensures Shot(DroppedScene(28), Dropped()[28], DroppedScene(29))
  {
    PeakStays(DroppedScene(28), Dropped()[28], DroppedScene(29));
  }

  lemma DroppedFollows(n: nat)
    requires n < 29
    ensures Shot(DroppedScene(n), Dropped()[n], DroppedScene(n + 1))
  {
    hide Orphaned, OrphanedScene, Dropped, DroppedScene, Shot;
    DroppedParts();
    if n < 16 { OrphanedFollows(n); }
    else if n < 18 { NewerAdmitted(n); }
    else if n < 20 { NewerStages(n); }
    else if n < 22 { NewerBoots(n); }
    else if n < 24 { NewerEnds(n); }
    else if n < 26 { OrphanFails(n); }
    else if n < 28 { OrphanEvicts(n); }
    else { OrphanDrops(); }
  }

  lemma DroppedParts()
    ensures |Orphaned()| == 19 && |Dropped()| == 29 && forall n: nat | n < 16 :: Dropped()[n] == Orphaned()[n]
    ensures forall n: nat | n <= 16 :: DroppedScene(n) == OrphanedScene(n)
  {
  }

  lemma DroppedPlays()
    ensures var s := Start(1, 1800, 3);
            Possible(s, Dropped()) && AlwaysPrompt(s, Dropped()) && After(s, Dropped()) == DroppedScene(29)
  {
    hide Dropped, DroppedScene, OrphanedScene, OpeningScene, Orphaned, Possible, AlwaysPrompt, After, Shot, Start;
    DroppedParts();
    OrphanedParts();
    forall n: nat | n < |Dropped()| ensures Follows(DroppedScene, Dropped(), n) {
      DroppedFollows(n);
    }
    Plays(DroppedScene, Dropped(), 0);
    OpeningStart();
    assert Dropped()[0..] == Dropped();
  }

  /** A run that loses a subprocess by a drop that pops the session it belongs to. */
  lemma DropLoses()
    ensures var s := Start(1, 1800, 3); Possible(s, Dropped()) && AlwaysPrompt(s, Dropped()) && Untracked(After(s, Dropped()), 2)
  {
    hide Possible, AlwaysPrompt, After;
    DroppedPlays();
  }
}
