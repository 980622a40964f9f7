/**
 What every interleaving of the session pool keeps.
 */
module PoolSafety {
  import opened Collections
  import opened Options
  import opened SessionPool

  // ----- The invariant --------------------------------------------------------------

  /** Locks and program counters agree: a task is inside exactly what it holds. */
  ghost predicate HolderOk(s: State, i: nat)
    requires i < |s.sps|
  {
    s.sps[i].holder.Some? ==> s.sps[i].holder.value < |s.tasks| && Inside(s.tasks[s.sps[i].holder.value]) == Some(i)
  }

  ghost predicate InsideOk(s: State, t: nat)
    requires t < |s.tasks|
  {
    Inside(s.tasks[t]).Some? ==> Inside(s.tasks[t]).value < |s.sps| && s.sps[Inside(s.tasks[t]).value].holder == Some(t)
  }

  /** A session's subprocess and HOME are its own, and its HOME is on disk. */
  ghost predicate SpOk(s: State, i: nat)
    requires i < |s.sps|
  {
    (s.sps[i].proc.Some? ==> s.sps[i].proc.value < |s.procs| && s.procs[s.sps[i].proc.value].sp == i)
    && (s.sps[i].home.Some? ==>
          s.sps[i].home.value < |s.homes| && s.homes[s.sps[i].home.value].sp == i && s.homes[s.sps[i].home.value].there)
  }

  /** A live subprocess is its session's current one, running in its current HOME. */
  ghost predicate ProcOk(s: State, p: nat)
    requires p < |s.procs|
  {
    s.procs[p].sp < |s.sps|
    && (s.procs[p].live ==> s.sps[s.procs[p].sp].proc == Some(p) && s.sps[s.procs[p].sp].home == Some(s.procs[p].home))
  }

  ghost predicate EvictionOk(s: State, i: nat, step: Eviction)
    requires i < |s.sps|
  {
    step != Killing ==> s.sps[i].proc.None?
  }

  /** What a task's progress says of the session it is inside. */
  ghost predicate StageOk(s: State, t: nat)
    requires t < |s.tasks|
  {
    var pc := s.tasks[t];
    Inside(pc).Some? && Inside(pc).value < |s.sps| ==>
      var i := Inside(pc).value;
      match pc
      case LruEvict(_, _, step) => EvictionOk(s, i, step)
      case ReapEvict(_, step, _) => EvictionOk(s, i, step)
      case Turn(_, Evicting(step)) => EvictionOk(s, i, step)
      case Turn(_, Staging) => DeadOrNone(s, i) && s.sps[i].home.None?
      case Turn(_, Booting) => DeadOrNone(s, i) && s.sps[i].home.Some?
      case Turn(_, Driving(p)) => s.sps[i].proc == Some(p)
      case Turn(_, Dropping) => s.sps[i].proc.None?
      case _ => true
  }

  /** A session being evicted by someone else's admission or by the reaper has left the pool. */
  ghost predicate VictimOk(s: State, t: nat)
    requires t < |s.tasks|
  {
    (Victim(s.tasks[t]).Some? ==> Victim(s.tasks[t]).value < |s.sps| && !Pooled(s, Victim(s.tasks[t]).value))
    && (Target(s.tasks[t]).Some? ==> Target(s.tasks[t]).value < |s.sps|)
  }

  ghost predicate PoolOk(s: State) {
    forall slug | slug in s.pool :: s.pool[slug] < |s.sps| && s.sps[s.pool[slug]].slug == slug
  }

  ghost predicate Inv(s: State) {
    PoolOk(s)
    && (forall i: nat | i < |s.sps| :: HolderOk(s, i) && SpOk(s, i))
    && (forall p: nat | p < |s.procs| :: ProcOk(s, p))
    && (forall h: nat | h < |s.homes| :: s.homes[h].sp < |s.sps|)
    && (forall t: nat | t < |s.tasks| :: InsideOk(s, t) && StageOk(s, t) && VictimOk(s, t))
  }

  // ----- What one task does to one session ----------------------------------------------

  /** Only task t, session i, and i's subprocesses and HOMEs differ. */
  ghost predicate LocalTo(s: State, s': State, t: nat, i: nat) {
    t < |s.tasks| == |s'.tasks| && i < |s.sps| == |s'.sps| && s'.pool == s.pool
    && (forall u: nat | u < |s.tasks| && u != t :: s'.tasks[u] == s.tasks[u])
    && (forall j: nat | j < |s.sps| && j != i :: s'.sps[j] == s.sps[j])
    && s'.sps[i].slug == s.sps[i].slug
    && |s.procs| <= |s'.procs|
    && (forall p: nat | p < |s'.procs| :: if p < |s.procs| && s.procs[p].sp != i then s'.procs[p] == s.procs[p] else s'.procs[p].sp == i)
    && |s.homes| <= |s'.homes|
    && (forall h: nat | h < |s'.homes| :: if h < |s.homes| && s.homes[h].sp != i then s'.homes[h] == s.homes[h] else s'.homes[h].sp == i)
  }

  /** The session and the task that moved are right again. */
  ghost predicate Settled(s: State, t: nat, i: nat)
    requires t < |s.tasks| && i < |s.sps|
  {
    SpOk(s, i) && (forall p: nat | p < |s.procs| && s.procs[p].sp == i :: ProcOk(s, p))
    && StageOk(s, t)
    && (Inside(s.tasks[t]) == Some(i) <==> s.sps[i].holder == Some(t))
    && (Inside(s.tasks[t]).None? || Inside(s.tasks[t]) == Some(i))
    && (s.sps[i].holder.None? || s.sps[i].holder == Some(t))
    && (forall v | Victim(s.tasks[t]) == Some(v) :: v < |s.sps| && !Pooled(s, v))
    && (Target(s.tasks[t]).Some? ==> Target(s.tasks[t]).value < |s.sps|)
  }

  /** Whoever holds, or takes, a free session's lock disturbs no other task. */
  lemma LocalKeeps(s: State, s': State, t: nat, i: nat)
    requires Inv(s) && LocalTo(s, s', t, i) && Settled(s', t, i)
    requires s.sps[i].holder == Some(t) || (s.sps[i].holder.None? && Inside(s.tasks[t]).None?)
    ensures Inv(s')
  {
    hide *;
    OthersLeftAlone(s, s', t, i);
    LocalSessions(s, s', t, i);
    LocalProcs(s, s', t, i);
    LocalTasks(s, s', t, i);
    LocalInv(s, s', t, i);
  }

  lemma OthersLeftAlone(s: State, s': State, t: nat, i: nat)
    requires Inv(s) && LocalTo(s, s', t, i)
    requires s.sps[i].holder == Some(t) || (s.sps[i].holder.None? && Inside(s.tasks[t]).None?)
    ensures forall u: nat | u < |s.tasks| && u != t :: Inside(s.tasks[u]) != Some(i)
  {
    hide Inside, StageOk, VictimOk, SpOk, ProcOk, PoolOk, HolderOk;
    forall u: nat | u < |s.tasks| && u != t ensures Inside(s.tasks[u]) != Some(i) {
      assert InsideOk(s, u);
    }
  }

  lemma LocalSessions(s: State, s': State, t: nat, i: nat)
    requires Inv(s) && LocalTo(s, s', t, i) && Settled(s', t, i)
    requires forall u: nat | u < |s.tasks| && u != t :: Inside(s.tasks[u]) != Some(i)
    requires s.sps[i].holder == Some(t) || (s.sps[i].holder.None? && Inside(s.tasks[t]).None?)
    ensures PoolOk(s')
    ensures forall j: nat | j < |s'.sps| :: HolderOk(s', j) && SpOk(s', j)
    ensures forall h: nat | h < |s'.homes| :: s'.homes[h].sp < |s'.sps|
  {
    hide Inside, StageOk, VictimOk, ProcOk, Victim, Target;
    assert HolderOk(s, i);
    forall j: nat | j < |s'.sps| ensures HolderOk(s', j) && SpOk(s', j) {
      if j != i {
        assert HolderOk(s, j) && SpOk(s, j) && InsideOk(s, t);
      } else if s'.sps[i].holder.Some? {
        assert s'.sps[i].holder == Some(t);
      }
    }
  }

  lemma LocalProcs(s: State, s': State, t: nat, i: nat)
    requires Inv(s) && LocalTo(s, s', t, i) && Settled(s', t, i)
    ensures forall p: nat | p < |s'.procs| :: ProcOk(s', p)
  {
    hide Inside, StageOk, VictimOk, InsideOk, SpOk, HolderOk, PoolOk, Victim, Target;
    forall p: nat | p < |s'.procs| ensures ProcOk(s', p) {
      if p < |s.procs| && s.procs[p].sp != i {
        assert ProcOk(s, p);
      }
    }
  }

  lemma LocalTasks(s: State, s': State, t: nat, i: nat)
    requires Inv(s) && LocalTo(s, s', t, i) && Settled(s', t, i)
    requires forall u: nat | u < |s.tasks| && u != t :: Inside(s.tasks[u]) != Some(i)
    ensures forall u: nat | u < |s'.tasks| :: InsideOk(s', u) && StageOk(s', u) && VictimOk(s', u)
  {
    hide StageOk, VictimOk, InsideOk, HolderOk, PoolOk, ProcOk, Inside, Victim, Target, SpOk;
    forall u: nat | u < |s'.tasks| ensures InsideOk(s', u) && StageOk(s', u) && VictimOk(s', u) {
      if u == t {
        MovedTask(s', t, i);
      } else {
        assert InsideOk(s, u) && StageOk(s, u) && VictimOk(s, u);
        OtherTask(s, s', t, i, u);
      }
    }
  }

  lemma MovedTask(s: State, t: nat, i: nat)
    requires t < |s.tasks| && i < |s.sps| && Settled(s, t, i)
    ensures InsideOk(s, t) && StageOk(s, t) && VictimOk(s, t)
  {
    hide StageOk, Inside, Victim, Target, SpOk, ProcOk, Pooled;
  }

  lemma OtherTask(s: State, s': State, t: nat, i: nat, u: nat)
    requires Inv(s) && LocalTo(s, s', t, i)
    requires u < |s.tasks| && u != t && Inside(s.tasks[u]) != Some(i)
    ensures InsideOk(s', u) && StageOk(s', u) && VictimOk(s', u)
  {
    assert InsideOk(s, u) && StageOk(s, u) && VictimOk(s, u);
    assert Victim(s.tasks[u]).Some? && Pooled(s', Victim(s.tasks[u]).value) ==> Pooled(s, Victim(s.tasks[u]).value);
    assert forall j: nat | j < |s.sps| && j != i :: s'.sps[j] == s.sps[j];
    if Inside(s.tasks[u]).Some? {
      var j := Inside(s.tasks[u]).value;
      SameDead(s, s', t, i, j);
    }
  }

  lemma SameDead(s: State, s': State, t: nat, i: nat, j: nat)
    requires Inv(s) && LocalTo(s, s', t, i) && j < |s.sps| && j != i
    ensures DeadOrNone(s', j) == DeadOrNone(s, j)
  {
    hide HolderOk, StageOk, VictimOk, InsideOk, ProcOk, PoolOk;
    assert SpOk(s, j);
  }

  lemma LocalInv(s: State, s': State, t: nat, i: nat)
    requires PoolOk(s')
    requires forall j: nat | j < |s'.sps| :: HolderOk(s', j) && SpOk(s', j)
    requires forall h: nat | h < |s'.homes| :: s'.homes[h].sp < |s'.sps|
    requires forall p: nat | p < |s'.procs| :: ProcOk(s', p)
    requires forall u: nat | u < |s'.tasks| :: InsideOk(s', u) && StageOk(s', u) && VictimOk(s', u)
    ensures Inv(s')
  {
    hide PoolOk, HolderOk, SpOk, ProcOk, InsideOk, StageOk, VictimOk;
  }

  // ----- Each action ---------------------------------------------------------------------

  /** What the invariant says about a task inside session i. */
  lemma Holds(s: State, t: nat, i: nat)
    requires Inv(s) && t < |s.tasks| && Inside(s.tasks[t]) == Some(i)
    ensures i < |s.sps| && s.sps[i].holder == Some(t) && SpOk(s, i) && StageOk(s, t) && VictimOk(s, t)
    ensures forall p: nat | p < |s.procs| && s.procs[p].sp == i :: ProcOk(s, p)
  {
    assert InsideOk(s, t) && StageOk(s, t) && VictimOk(s, t);
    hide StageOk, VictimOk, ProcOk, PoolOk, HolderOk;
  }

  lemma NoneLive(s: State, i: nat)
    requires i < |s.sps| && DeadOrNone(s, i)
    requires forall p: nat | p < |s.procs| && s.procs[p].sp == i :: ProcOk(s, p)
    ensures forall p: nat | p < |s.procs| && s.procs[p].sp == i :: !s.procs[p].live
  {
    forall p: nat | p < |s.procs| && s.procs[p].sp == i ensures !s.procs[p].live {
      assert ProcOk(s, p);
    }
  }

  /** Steps that only move the task's program counter inside its turn. */
  lemma MovesOn(s: State, t: nat, i: nat, pc: Pc)
    requires Inv(s) && t < |s.tasks| && Inside(s.tasks[t]) == Some(i) == Inside(pc)
    requires Victim(pc) == Victim(s.tasks[t]) && Target(pc) == Target(s.tasks[t])
    requires StageOk(Goto(s, t, pc), t)
    ensures Inv(Goto(s, t, pc))
  {
    Holds(s, t, i);
    var s' := Goto(s, t, pc);
    hide Inv, StageOk, Inside, Victim, Target;
    LocalKeeps(s, s', t, i);
  }

  /** Steps that change session i and the place of the task that holds it. */
  lemma ChangesOwn(s: State, s1: State, t: nat, i: nat, pc: Pc)
    requires Inv(s) && t < |s.tasks| && Inside(s.tasks[t]) == Some(i) && s1.tasks == s.tasks
    requires LocalTo(s, s1, t, i) && Settled(Goto(s1, t, pc), t, i)
    ensures Inv(Goto(s1, t, pc))
  {
    Holds(s, t, i);
    hide Inv, Settled, Inside;
    LocalKeeps(s, Goto(s1, t, pc), t, i);
  }

  lemma FindDeadKeeps(s: State, t: nat)
    requires Inv(s) && Enabled(s, FindDead(t))
    ensures Inv(Effect(s, FindDead(t)))
  {
    var i := s.tasks[t].sp;
    Holds(s, t, i);
    hide Inv, Enabled, LocalTo, Settled, PoolOk, HolderOk, InsideOk, VictimOk;
    NoneLive(s, i);
    TornDownLocal(s, t, i);
    TornDownSettled(s, t, i, Turn(i, Staging));
    ChangesOwn(s, TornDown(s, i), t, i, Turn(i, Staging));
  }

  lemma TornDownLocal(s: State, t: nat, i: nat)
    requires t < |s.tasks| && i < |s.sps| && SpOk(s, i)
    requires forall p: nat | p < |s.procs| && s.procs[p].sp == i :: ProcOk(s, p)
    ensures LocalTo(s, TornDown(s, i), t, i) && TornDown(s, i).tasks == s.tasks
  {
  }

  /** Removing the HOME is safe once no subprocess of the session lives. */
  lemma TornDownSettled(s: State, t: nat, i: nat, pc: Pc)
    requires t < |s.tasks| && i < |s.sps| && SpOk(s, i)
    requires pc == Turn(i, Staging) || (pc == Turn(i, Dropping) && s.sps[i].proc.None?)
    requires s.sps[i].holder == Some(t)
    requires forall p: nat | p < |s.procs| && s.procs[p].sp == i :: !s.procs[p].live
    requires DeadOrNone(s, i)
    ensures Settled(Goto(TornDown(s, i), t, pc), t, i)
  {
  }

  lemma FindAliveKeeps(s: State, t: nat)
    requires Inv(s) && Enabled(s, FindAlive(t))
    ensures Inv(Effect(s, FindAlive(t)))
  {
    hide Inv;
    var i := s.tasks[t].sp;
    MovesOn(s, t, i, Turn(i, Driving(s.sps[i].proc.value)));
  }

  lemma StageHomeKeeps(s: State, t: nat)
    requires Inv(s) && Enabled(s, StageHome(t))
    ensures Inv(Effect(s, StageHome(t)))
  {
    hide Inv;
    var i := s.tasks[t].sp;
    Holds(s, t, i);
    NoneLive(s, i);
    StagedLocal(s, t, i);
    hide Settled, LocalTo;
    ChangesOwn(s, Staged(s, i), t, i, Turn(i, Booting));
  }

  lemma StagedLocal(s: State, t: nat, i: nat)
    requires t < |s.tasks| && i < |s.sps| && SpOk(s, i) && s.sps[i].holder == Some(t) && DeadOrNone(s, i)
    requires forall p: nat | p < |s.procs| && s.procs[p].sp == i :: ProcOk(s, p) && !s.procs[p].live
    ensures LocalTo(s, Staged(s, i), t, i) && Settled(Goto(Staged(s, i), t, Turn(i, Booting)), t, i)
  {
  }

  lemma BootKeeps(s: State, t: nat)
    requires Inv(s) && Enabled(s, Boot(t))
    ensures Inv(Effect(s, Boot(t)))
  {
    hide Inv;
    var i := s.tasks[t].sp;
    Holds(s, t, i);
    NoneLive(s, i);
    BootedLocal(s, t, i);
    hide Settled, LocalTo;
    ChangesOwn(s, Booted(s, i), t, i, Turn(i, Driving(|s.procs|)));
  }

  lemma BootedLocal(s: State, t: nat, i: nat)
    requires t < |s.tasks| && i < |s.sps| && SpOk(s, i) && s.sps[i].holder == Some(t) && s.sps[i].home.Some?
    requires forall p: nat | p < |s.procs| && s.procs[p].sp == i :: ProcOk(s, p) && !s.procs[p].live
    ensures LocalTo(s, Booted(s, i), t, i) && Settled(Goto(Booted(s, i), t, Turn(i, Driving(|s.procs|))), t, i)
  {
  }

  /** Killing the session's current subprocess leaves it none alive. */
  lemma TerminatedLocal(s: State, t: nat, i: nat)
    requires t < |s.tasks| && i < |s.sps| && SpOk(s, i) && s.sps[i].holder == Some(t)
    requires forall p: nat | p < |s.procs| && s.procs[p].sp == i :: ProcOk(s, p)
    ensures var s1 := Terminated(s, i);
            LocalTo(s, s1, t, i) && SpOk(s1, i) && s1.sps[i].proc.None? && s1.sps[i].holder == Some(t) && s1.tasks == s.tasks
            && (forall p: nat | p < |s1.procs| && s1.procs[p].sp == i :: ProcOk(s1, p) && !s1.procs[p].live)
  {
    var s1 := Terminated(s, i);
    forall p: nat | p < |s1.procs| && s1.procs[p].sp == i ensures ProcOk(s1, p) && !s1.procs[p].live {
      assert ProcOk(s, p);
    }
  }

  lemma LocalTwice(s: State, s1: State, s2: State, t: nat, i: nat)
    requires LocalTo(s, s1, t, i) && LocalTo(s1, s2, t, i)
    ensures LocalTo(s, s2, t, i)
  {
  }

  lemma RespawnKeeps(s: State, t: nat)
    requires Inv(s) && Enabled(s, Respawn(t))
    ensures Inv(Effect(s, Respawn(t)))
  {
    hide Inv;
    var i := s.tasks[t].sp;
    Holds(s, t, i);
    TerminatedLocal(s, t, i);
    var s1 := Terminated(s, i);
    hide Settled, LocalTo, Terminated, TornDown, SpOk, ProcOk;
    TornDownLocal(s1, t, i);
    TornDownSettled(s1, t, i, Turn(i, Staging));
    LocalTwice(s, s1, TornDown(s1, i), t, i);
    ChangesOwn(s, TornDown(s1, i), t, i, Turn(i, Staging));
  }

  /** The steps of a turn that touch nothing but its own progress. */
  lemma ProgressKeeps(s: State, a: Action)
    requires Inv(s) && Enabled(s, a) && (a.CannotResume? || a.Fail? || a.Complete?)
    ensures Inv(Effect(s, a))
  {
    hide Inv;
    var i := s.tasks[a.t].sp;
    Holds(s, a.t, i);
    if a.CannotResume? {
      MovesOn(s, a.t, i, Turn(i, Recovering));
    } else if a.Fail? {
      MovesOn(s, a.t, i, Turn(i, Evicting(Killing)));
    } else {
      MovesOn(s, a.t, i, Turn(i, Yielding));
    }
  }

  lemma FinishKeeps(s: State, t: nat, now: int)
    requires Inv(s) && Enabled(s, Finish(t, now))
    ensures Inv(Effect(s, Finish(t, now)))
  {
    hide Inv;
    var i := s.tasks[t].sp;
    Holds(s, t, i);
    TouchedLocal(s, t, i, now);
    hide Settled, LocalTo;
    ChangesOwn(s, WithSp(s, i, s.sps[i].(lastActive := now)), t, i, Turn(i, Completing));
  }

  lemma TouchedLocal(s: State, t: nat, i: nat, now: int)
    requires t < |s.tasks| && i < |s.sps| && SpOk(s, i) && s.sps[i].holder == Some(t)
    requires forall p: nat | p < |s.procs| && s.procs[p].sp == i :: ProcOk(s, p)
    ensures var s1 := WithSp(s, i, s.sps[i].(lastActive := now));
            LocalTo(s, s1, t, i) && Settled(Goto(s1, t, Turn(i, Completing)), t, i)
  {
    var s1 := Goto(WithSp(s, i, s.sps[i].(lastActive := now)), t, Turn(i, Completing));
    forall p: nat | p < |s1.procs| && s1.procs[p].sp == i ensures ProcOk(s1, p) {
      assert ProcOk(s, p);
    }
  }

  /** Leaving the session, to a place that is inside none and evicts none. */
  lemma ReleasedLocal(s: State, t: nat, i: nat, pc: Pc)
    requires t < |s.tasks| && i < |s.sps| && SpOk(s, i) && s.sps[i].holder == Some(t)
    requires forall p: nat | p < |s.procs| && s.procs[p].sp == i :: ProcOk(s, p)
    requires Inside(pc).None? && Victim(pc).None? && (Target(pc).Some? ==> Target(pc).value < |s.sps|)
    ensures LocalTo(s, Released(s, i), t, i) && Settled(Goto(Released(s, i), t, pc), t, i)
  {
    hide Inside, Victim, Target;
    var s1 := Goto(Released(s, i), t, pc);
    forall p: nat | p < |s1.procs| && s1.procs[p].sp == i ensures ProcOk(s1, p) {
      assert ProcOk(s, p);
    }
  }

  lemma LeaveKeeps(s: State, t: nat, i: nat)
    requires Inv(s) && t < |s.tasks| && Inside(s.tasks[t]) == Some(i)
    ensures i < |s.sps| && Inv(Goto(Released(s, i), t, Idle))
  {
    hide Inv;
    Holds(s, t, i);
    hide Settled, LocalTo, SpOk, ProcOk, Released;
    ReleasedLocal(s, t, i, Idle);
    SameTasks(s, i);
    ChangesOwn(s, Released(s, i), t, i, Idle);
  }

  lemma SameTasks(s: State, i: nat)
    requires i < |s.sps|
    ensures Released(s, i).tasks == s.tasks && TornDown(s, i).tasks == s.tasks && Terminated(s, i).tasks == s.tasks
    ensures |Released(s, i).sps| == |TornDown(s, i).sps| == |Terminated(s, i).sps| == |s.sps|
  {
  }

  // ----- Eviction ----------------------------------------------------------------------------

  lemma EvictKeeps(s: State, t: nat)
    requires Inv(s) && Enabled(s, Evict(t))
    ensures Inv(Effect(s, Evict(t)))
  {
    hide Inv;
    var pc := s.tasks[t];
    var i := Inside(pc).value;
    Holds(s, t, i);
    var step := if pc.Turn? then pc.stage.step else pc.step;
    hide Settled, LocalTo, SpOk, ProcOk, Released, TornDown, Terminated, PoolInRange;
    if step == Killing {
      KillKeeps(s, t, i, Stepped(pc, Persisting));
    } else if step == Persisting {
      MovesOn(s, t, i, Stepped(pc, Removing));
    } else {
      RemoveKeeps(s, t, i);
    }
  }

  lemma KillKeeps(s: State, t: nat, i: nat, pc: Pc)
    requires Inv(s) && t < |s.tasks| && Inside(s.tasks[t]) == Some(i) && i < |s.sps|
    requires s.tasks[t].Turn? ==> s.tasks[t].stage.Evicting?
    requires pc == Stepped(s.tasks[t], Persisting)
    ensures Inv(Goto(Terminated(s, i), t, pc))
  {
    hide Inv;
    Holds(s, t, i);
    TerminatedLocal(s, t, i);
    hide Terminated, SpOk, ProcOk;
    var s1 := Terminated(s, i);
    KilledSettled(s, s1, t, i, pc);
    hide Settled, LocalTo;
    ChangesOwn(s, s1, t, i, pc);
  }

  lemma KilledSettled(s: State, s1: State, t: nat, i: nat, pc: Pc)
    requires t < |s.tasks| && i < |s.sps| && LocalTo(s, s1, t, i) && VictimOk(s, t) && s1.tasks == s.tasks
    requires Inside(s.tasks[t]) == Some(i) && (s.tasks[t].Turn? ==> s.tasks[t].stage.Evicting?)
    requires pc == Stepped(s.tasks[t], Persisting)
    requires SpOk(s1, i) && s1.sps[i].proc.None? && s1.sps[i].holder == Some(t)
    requires forall p: nat | p < |s1.procs| && s1.procs[p].sp == i :: ProcOk(s1, p)
    ensures Settled(Goto(s1, t, pc), t, i)
  {
    var s2 := Goto(s1, t, pc);
    assert Inside(pc) == Some(i) && Victim(pc) == Victim(s.tasks[t]) && Target(pc) == Target(s.tasks[t]);
    assert StageOk(s2, t);
    assert forall p: nat | p < |s2.procs| && s2.procs[p].sp == i :: ProcOk(s1, p) ==> ProcOk(s2, p);
    assert SpOk(s2, i);
    hide StageOk, SpOk, ProcOk, Inside, Victim, Target;
  }

  lemma RemoveKeeps(s: State, t: nat, i: nat)
    requires Inv(s) && t < |s.tasks| && Inside(s.tasks[t]) == Some(i) && i < |s.sps| && s.sps[i].proc.None?
    ensures var pc, s1 := s.tasks[t], TornDown(s, i);
            i < |s1.sps|
            && var s2 := if pc.Turn? then s1 else Released(s1, i);
               Inv(Goto(s2, t, AfterEviction(s2, pc)))
  {
    hide Inv;
    Holds(s, t, i);
    NoneLive(s, i);
    var pc, s1 := s.tasks[t], TornDown(s, i);
    SameTasks(s, i);
    TornDownLocal(s, t, i);
    if pc.Turn? {
      TornDownSettled(s, t, i, Turn(i, Dropping));
      hide Settled, LocalTo, TornDown;
      ChangesOwn(s, s1, t, i, Turn(i, Dropping));
    } else {
      TornDownStays(s, t, i);
      hide Settled, LocalTo, TornDown, Released, SpOk, ProcOk;
      SameTasks(s1, i);
      ReleasedLocal(s1, t, i, AfterEviction(Released(s1, i), pc));
      LocalTwice(s, s1, Released(s1, i), t, i);
      ChangesOwn(s, Released(s1, i), t, i, AfterEviction(Released(s1, i), pc));
    }
  }

  lemma TornDownStays(s: State, t: nat, i: nat)
    requires t < |s.tasks| && i < |s.sps| && SpOk(s, i) && s.sps[i].holder == Some(t) && VictimOk(s, t)
    requires forall p: nat | p < |s.procs| && s.procs[p].sp == i :: ProcOk(s, p) && !s.procs[p].live
    ensures var s1 := TornDown(s, i);
            SpOk(s1, i) && s1.sps[i].holder == Some(t) && (forall p: nat | p < |s1.procs| && s1.procs[p].sp == i :: ProcOk(s1, p))
    ensures forall s2: State | Target(AfterEviction(s2, s.tasks[t])).Some? && !s.tasks[t].Turn? ::
              Target(AfterEviction(s2, s.tasks[t])).value < |s.sps|
  {
    var s1 := TornDown(s, i);
    forall p: nat | p < |s1.procs| && s1.procs[p].sp == i ensures ProcOk(s1, p) {
      assert ProcOk(s, p);
    }
  }

  // ----- Waiting, and the pool -----------------------------------------------------------------

  /** A task inside no session goes where it is inside none. */
  lemma MovesFree(s: State, t: nat, pc: Pc)
    requires Inv(s) && t < |s.tasks| && Inside(s.tasks[t]).None? && Inside(pc).None?
    requires VictimOk(Goto(s, t, pc), t)
    ensures Inv(Goto(s, t, pc))
  {
    var s' := Goto(s, t, pc);
    hide Inside, Victim, Target, StageOk;
    forall u: nat | u < |s'.tasks| ensures InsideOk(s', u) && StageOk(s', u) && VictimOk(s', u) {
      OutsideStage(s', u);
      if u != t {
        assert InsideOk(s, u) && StageOk(s, u) && VictimOk(s, u);
        SameStage(s, s', u);
      }
    }
    hide VictimOk;
    forall i: nat | i < |s'.sps| ensures HolderOk(s', i) && SpOk(s', i) {
      assert HolderOk(s, i) && SpOk(s, i);
    }
    hide SpOk, HolderOk;
    forall p: nat | p < |s'.procs| ensures ProcOk(s', p) {
      assert ProcOk(s, p);
    }
  }

  lemma OutsideStage(s: State, u: nat)
    requires u < |s.tasks|
    ensures Inside(s.tasks[u]).None? ==> StageOk(s, u)
  {
  }

  lemma SameStage(s: State, s': State, u: nat)
    requires u < |s.tasks| == |s'.tasks| && s.tasks[u] == s'.tasks[u] && s.sps == s'.sps && s.procs == s'.procs
    ensures StageOk(s, u) == StageOk(s', u)
  {
  }

  lemma AcquireKeeps(s: State, t: nat)
    requires Inv(s) && Enabled(s, Acquire(t))
    ensures Inv(Effect(s, Acquire(t)))
  {
    var pc, s' := s.tasks[t], Effect(s, Acquire(t));
    var i := Awaits(pc).value;
    assert VictimOk(s, t);
    TakenLocal(s, t, i, s'.tasks[t]);
    hide Inv, Settled, LocalTo;
    LocalKeeps(s, s', t, i);
  }

  lemma TakenLocal(s: State, t: nat, i: nat, pc: Pc)
    requires Inv(s) && t < |s.tasks| && i < |s.sps| && s.sps[i].holder.None? && VictimOk(s, t)
    requires pc == match s.tasks[t]
                   case LruWait(sp, v, _) => LruEvict(sp, v, Killing)
                   case ReapWait(v, rest, _) => ReapEvict(v, Killing, rest)
                   case TurnWait(sp, _) => Turn(sp, Checking)
                   case _ => Idle
    requires Inside(pc) == Some(i)
    ensures var s' := Goto(WithSp(s, i, s.sps[i].(holder := Some(t))), t, pc);
            LocalTo(s, s', t, i) && Settled(s', t, i)
  {
    var s' := Goto(WithSp(s, i, s.sps[i].(holder := Some(t))), t, pc);
    assert HolderOk(s, i) && SpOk(s, i);
    hide HolderOk, InsideOk, PoolOk;
    forall p: nat | p < |s'.procs| && s'.procs[p].sp == i ensures ProcOk(s', p) {
      assert ProcOk(s, p);
    }
  }

  lemma CancelKeeps(s: State, t: nat)
    requires Inv(s) && Enabled(s, Cancel(t))
    ensures Inv(Effect(s, Cancel(t)))
  {
    hide Inv;
    if Inside(s.tasks[t]).Some? {
      LeaveKeeps(s, t, Inside(s.tasks[t]).value);
    } else {
      MovesFree(s, t, Idle);
    }
  }

  lemma EndTurnKeeps(s: State, t: nat)
    requires Inv(s) && Enabled(s, EndTurn(t))
    ensures Inv(Effect(s, EndTurn(t)))
  {
    hide Inv, Released;
    LeaveKeeps(s, t, s.tasks[t].sp);
  }

  lemma SweepKeeps(s: State, t: nat, now: int, stale: seq<string>)
    requires Inv(s) && Enabled(s, Sweep(t, now, stale))
    ensures Inv(Effect(s, Sweep(t, now, stale)))
  {
    hide Inv, Evictable;
    MovesFree(s, t, Sweeping(stale));
  }

  /** Dropping a slug from the pool disturbs nothing else. */
  lemma PopKeeps(s: State, slug: string)
    requires Inv(s)
    ensures Inv(s.(pool := s.pool - {slug}))
    ensures slug in s.pool ==> s.pool[slug] < |s.sps| && !Pooled(s.(pool := s.pool - {slug}), s.pool[slug])
  {
    var s' := s.(pool := s.pool - {slug});
    hide Inside, Victim, Target, StageOk;
    forall u: nat | u < |s'.tasks| ensures InsideOk(s', u) && StageOk(s', u) && VictimOk(s', u) {
      assert InsideOk(s, u) && StageOk(s, u) && VictimOk(s, u);
      SameStage(s, s', u);
    }
    hide VictimOk, InsideOk, StageOk;
    forall i: nat | i < |s'.sps| ensures HolderOk(s', i) && SpOk(s', i) {
      assert HolderOk(s, i) && SpOk(s, i);
    }
    hide SpOk, HolderOk;
    forall p: nat | p < |s'.procs| ensures ProcOk(s', p) {
      assert ProcOk(s, p);
    }
  }

  lemma DropKeeps(s: State, t: nat)
    requires Inv(s) && Enabled(s, Drop(t))
    ensures Inv(Effect(s, Drop(t)))
  {
    hide Inv;
    var i := s.tasks[t].sp;
    PopKeeps(s, s.sps[i].slug);
    MovesOn(s.(pool := s.pool - {s.sps[i].slug}), t, i, Turn(i, Yielding));
  }

  lemma ReapNextKeeps(s: State, t: nat)
    requires Inv(s) && Enabled(s, ReapNext(t))
    ensures Inv(Effect(s, ReapNext(t)))
  {
    hide Inv;
    var rest := s.tasks[t].rest;
    if rest == [] {
      MovesFree(s, t, Idle);
    } else if rest[0] in s.pool {
      PopKeeps(s, rest[0]);
      var j := s.pool[rest[0]];
      MovesFree(s.(pool := s.pool - {rest[0]}), t, ReapWait(j, rest[1..], j < |s.sps| && Contended(s, j)));
    } else {
      MovesFree(s, t, Sweeping(rest[1..]));
    }
  }

  lemma RegisterKeeps(s: State, slug: string, now: int)
    requires Inv(s)
    ensures Inv(Registered(s, slug, now)) && Registered(s, slug, now).tasks == s.tasks
    ensures slug in Registered(s, slug, now).pool && PoolOk(Registered(s, slug, now))
  {
    if slug !in s.pool {
      var s' := Registered(s, slug, now);
      hide Inside, Victim, Target, StageOk;
      forall u: nat | u < |s'.tasks| ensures InsideOk(s', u) && StageOk(s', u) && VictimOk(s', u) {
        assert InsideOk(s, u) && StageOk(s, u) && VictimOk(s, u);
        MoreStage(s, s', u);
      }
      hide VictimOk, InsideOk, StageOk;
      forall i: nat | i < |s'.sps| ensures HolderOk(s', i) && SpOk(s', i) {
        assert i < |s.sps| ==> HolderOk(s, i) && SpOk(s, i);
      }
      hide SpOk, HolderOk;
      forall p: nat | p < |s'.procs| ensures ProcOk(s', p) {
        assert ProcOk(s, p);
      }
    }
  }

  lemma MoreStage(s: State, s': State, u: nat)
    requires u < |s.tasks| == |s'.tasks| && s.tasks[u] == s'.tasks[u] && s.procs == s'.procs
    requires |s.sps| <= |s'.sps| && forall i | 0 <= i < |s.sps| :: s'.sps[i] == s.sps[i]
    requires InsideOk(s, u)
    ensures StageOk(s, u) ==> StageOk(s', u)
    ensures InsideOk(s', u)
  {
  }

  lemma AdmitKeeps(s: State, a: Action)
    requires a.Admit? && Inv(s) && Enabled(s, a)
    ensures Inv(Effect(s, a))
  {
    hide Inv, Registered, PoolInRange;
    var s1 := Registered(s, a.slug, a.now);
    RegisteredInRange(s, a.slug, a.now);
    RegisterKeeps(s, a.slug, a.now);
    assert Inside(s.tasks[a.t]).None?;
    match a.victim
    case None =>
      var i := s1.pool[a.slug];
      MovesFree(s1, a.t, TurnWait(i, i < |s1.sps| && Contended(s1, i)));
    case Some(v) =>
      assert a.victim.Some? && Candidate(s1, a.slug, a.victim);
      PopKeeps(s1, v);
      var j := s1.pool[v];
      MovesFree(s1.(pool := s1.pool - {v}), a.t, LruWait(s1.pool[a.slug], j, j < |s1.sps| && Contended(s1, j)));
  }

  /** A subprocess may die at any moment. */
  lemma DieKeeps(s: State, p: nat)
    requires Inv(s) && Enabled(s, Die(p))
    ensures Inv(Effect(s, Die(p)))
  {
    var s' := Effect(s, Die(p));
    hide Inside, Victim, Target, StageOk, PoolInRange, Enabled;
    forall u: nat | u < |s'.tasks| ensures InsideOk(s', u) && StageOk(s', u) && VictimOk(s', u) {
      assert InsideOk(s, u) && StageOk(s, u) && VictimOk(s, u);
      DeadStage(s, s', p, u);
    }
    hide VictimOk, InsideOk, StageOk;
    forall i: nat | i < |s'.sps| ensures HolderOk(s', i) && SpOk(s', i) {
      assert HolderOk(s, i) && SpOk(s, i);
    }
    hide SpOk, HolderOk;
    forall q: nat | q < |s'.procs| ensures ProcOk(s', q) {
      assert ProcOk(s, q);
    }
  }

  lemma DeadStage(s: State, s': State, p: nat, u: nat)
    requires u < |s.tasks| && s' == Killed(s, Some(p)) && StageOk(s, u)
    ensures StageOk(s', u)
  {
  }

  // ----- Every run --------------------------------------------------------------------------------

  lemma EffectKeeps(s: State, a: Action)
    requires Inv(s) && Enabled(s, a)
    ensures Inv(Effect(s, a))
  {
    hide *;
    match a
    case Admit(_, _, _, _) => AdmitKeeps(s, a);
    case Acquire(t) => AcquireKeeps(s, t);
    case FindAlive(t) => FindAliveKeeps(s, t);
    case FindDead(t) => FindDeadKeeps(s, t);
    case StageHome(t) => StageHomeKeeps(s, t);
    case Boot(t) => BootKeeps(s, t);
    case CannotResume(_) => ProgressKeeps(s, a);
    case Respawn(t) => RespawnKeeps(s, t);
    case Finish(t, now) => FinishKeeps(s, t, now);
    case Complete(_) => ProgressKeeps(s, a);
    case EndTurn(t) => EndTurnKeeps(s, t);
    case Fail(_) => ProgressKeeps(s, a);
    case Evict(t) => EvictKeeps(s, t);
    case Drop(t) => DropKeeps(s, t);
    case Cancel(t) => CancelKeeps(s, t);
    case Sweep(t, now, stale) => SweepKeeps(s, t, now, stale);
    case ReapNext(t) => ReapNextKeeps(s, t);
    case Die(p) => DieKeeps(s, p);
  }

  lemma PeakKeeps(s: State, peak: nat)
    requires Inv(s)
    ensures Inv(s.(peak := peak))
  {
    var s' := s.(peak := peak);
    hide Inside, Victim, Target, StageOk, SpOk, HolderOk;
    forall u: nat | u < |s'.tasks| ensures InsideOk(s', u) && StageOk(s', u) && VictimOk(s', u) {
      assert InsideOk(s, u) && StageOk(s, u) && VictimOk(s, u);
      SameStage(s, s', u);
    }
    forall i: nat | i < |s'.sps| ensures HolderOk(s', i) && SpOk(s', i) {
      assert HolderOk(s, i) && SpOk(s, i);
      SameSp(s, s', i);
    }
    forall q: nat | q < |s'.procs| ensures ProcOk(s', q) {
      assert ProcOk(s, q);
    }
  }

  lemma SameSp(s: State, s': State, i: nat)
    requires i < |s.sps| && s' == s.(peak := s'.peak)
    ensures HolderOk(s, i) == HolderOk(s', i) && SpOk(s, i) == SpOk(s', i)
  {
  }

  /** The pool is never larger than its cap, or one more than the most sessions
      ever mid-turn at once. */
  ghost predicate SizeOk(s: State) {
    |s.pool| <= Max(s.cap, 1 + s.peak) && |Busy(s)| <= s.peak
  }

  lemma SizeStep(s: State, a: Action)
    requires Inv(s) && SizeOk(s) && Enabled(s, a)
    ensures SizeOk(Next(s, a))
  {
    hide Inv, Effect, Enabled;
    var s1 := Effect(s, a);
    EffectSize(s, a);
    BusyIgnoresPeak(s1, Max(s1.peak, |Busy(s1)|));
  }

  lemma BusyIgnoresPeak(s: State, peak: nat)
    ensures Busy(s.(peak := peak)) == Busy(s)
  {
    forall slug ensures Locked(s.(peak := peak), slug) == Locked(s, slug) {
    }
  }

  lemma EffectSize(s: State, a: Action)
    requires Inv(s) && Enabled(s, a)
    ensures Effect(s, a).peak == s.peak && Effect(s, a).cap == s.cap
    ensures |Effect(s, a).pool| <= |s.pool| || |Effect(s, a).pool| <= s.cap || |Effect(s, a).pool| <= 1 + |Busy(Effect(s, a))|
  {
    hide *;
    if a.Admit? {
      AdmitSize(s, a);
    } else if a.Evict? {
      EvictSize(s, a.t);
    } else if a.ReapNext? {
      ReapSize(s, a.t);
    } else if a.Drop? {
      DropSize(s, a.t);
    } else {
      SamePool(s, a);
    }
  }

  lemma DropSize(s: State, t: nat)
    requires Enabled(s, Drop(t))
    ensures Effect(s, Drop(t)).peak == s.peak && Effect(s, Drop(t)).cap == s.cap && |Effect(s, Drop(t)).pool| <= |s.pool|
  {
    Shrinks(s.pool, s.sps[s.tasks[t].sp].slug);
  }

  lemma ReapSize(s: State, t: nat)
    requires Enabled(s, ReapNext(t))
    ensures Effect(s, ReapNext(t)).peak == s.peak && Effect(s, ReapNext(t)).cap == s.cap
    ensures |Effect(s, ReapNext(t)).pool| <= |s.pool|
  {
    if s.tasks[t].rest != [] {
      Shrinks(s.pool, s.tasks[t].rest[0]);
    }
  }

  lemma SamePool(s: State, a: Action)
    requires Enabled(s, a) && !a.Admit? && !a.Evict? && !a.ReapNext? && !a.Drop?
    ensures Effect(s, a).peak == s.peak && Effect(s, a).cap == s.cap && Effect(s, a).pool == s.pool
  {
    hide Enabled;
  }

  lemma EvictSize(s: State, t: nat)
    requires Enabled(s, Evict(t))
    ensures Effect(s, Evict(t)).pool == s.pool && Effect(s, Evict(t)).peak == s.peak && Effect(s, Evict(t)).cap == s.cap
  {
  }

  lemma Shrinks(pool: map<string, nat>, slug: string)
    ensures |pool - {slug}| <= |pool|
    ensures slug in pool ==> |pool - {slug}| == |pool| - 1
  {
    assert (pool - {slug}).Keys == pool.Keys - {slug};
  }

  lemma AdmitSize(s: State, a: Action)
    requires a.Admit? && Inv(s) && Enabled(s, a)
    ensures Effect(s, a).peak == s.peak && Effect(s, a).cap == s.cap
    ensures |Effect(s, a).pool| <= |s.pool| || |Effect(s, a).pool| <= s.cap || |Effect(s, a).pool| <= 1 + |Busy(Effect(s, a))|
  {
    hide Inv, Busy, Candidate, PoolInRange;
    var s1 := Registered(s, a.slug, a.now);
    RegisteredInRange(s, a.slug, a.now);
    if a.slug !in s.pool && |s1.pool| > s.cap {
      assert s1.pool - {a.slug} == s.pool;
      Shrinks(s1.pool, a.slug);
      if a.victim.Some? {
        VictimPooled(s1, a.slug, a.victim);
        Shrinks(s1.pool, a.victim.value);
      } else {
        assert a.victim == None;
        AllBusy(s, a);
      }
    }
  }

  lemma RegisteredInRange(s: State, slug: string, now: int)
    requires PoolInRange(s)
    ensures PoolInRange(Registered(s, slug, now))
  {
  }

  lemma VictimPooled(s: State, slug: string, victim: Option<string>)
    requires PoolInRange(s) && Candidate(s, slug, victim)
    ensures victim.Some? ==> victim.value in s.pool
  {
  }

  /** Over the cap with no candidate: every other pooled session is locked. */
  lemma AllBusy(s: State, a: Action)
    requires a.Admit? && Inv(s) && Enabled(s, a) && a.slug !in s.pool && a.victim.None?
    requires PoolInRange(Registered(s, a.slug, a.now)) && Candidate(Registered(s, a.slug, a.now), a.slug, None)
    ensures |Effect(s, a).pool| <= 1 + |Busy(Effect(s, a))|
  {
    hide Inv, Busy, PoolInRange, Candidate;
    var s1, s' := Registered(s, a.slug, a.now), Effect(s, a);
    assert s'.pool == s1.pool && s'.sps == s1.sps && s1.pool == s.pool[a.slug := |s.sps|];
    hide *;
    OthersBusy(s1, s', a.slug);
    assert s'.pool.Keys == s.pool.Keys + {a.slug};
    assert s.pool.Keys <= Busy(s');
    SubsetSize(s.pool.Keys, Busy(s'));
  }

  lemma OthersBusy(s: State, s': State, slug: string)
    requires PoolInRange(s) && Candidate(s, slug, None) && s'.pool == s.pool && s'.sps == s.sps
    ensures forall other | other in s.pool && other != slug :: other in Busy(s')
  {
    forall other | other in s.pool && other != slug ensures other in Busy(s') {
      assert Locked(s, other);
    }
  }

  lemma Starts(cap: nat, idleTimeout: int, tasks: nat)
    ensures Inv(Start(cap, idleTimeout, tasks)) && SizeOk(Start(cap, idleTimeout, tasks))
  {
    assert Busy(Start(cap, idleTimeout, tasks)) == {};
  }

  /** In every interleaving of turns, admissions, sweeps, failures and cancellations. */
  lemma {:induction false} EveryRun(s: State, run: seq<Action>)
    requires Inv(s) && SizeOk(s) && Possible(s, run)
    ensures Inv(After(s, run)) && SizeOk(After(s, run)) && After(s, run).cap == s.cap
    decreases run
  {
    hide Inv, SizeOk, Enabled, Effect;
    if run != [] {
      EffectSize(s, run[0]);
      EffectKeeps(s, run[0]);
      SizeStep(s, run[0]);
      PeakKeeps(Effect(s, run[0]), Next(s, run[0]).peak);
      EveryRun(Next(s, run[0]), run[1..]);
    }
  }

  // ----- What it means ------------------------------------------------------------------------------

  ghost predicate RunsEviction(s: State, t: nat, i: nat)
    requires t < |s.tasks|
  {
    Inside(s.tasks[t]) == Some(i) && !(s.tasks[t].Turn? && !s.tasks[t].stage.Evicting?)
  }

  ghost predicate MidTurn(s: State, t: nat, i: nat)
    requires t < |s.tasks|
  {
    s.tasks[t].Turn? && s.tasks[t].sp == i
  }

  /** While a turn on a session is in flight no other task runs the eviction
      body on it, no other turn is in flight on it, and no other turn drives
      its subprocess from any session. */
  lemma TurnsAreAlone(cap: nat, idleTimeout: int, tasks: nat, run: seq<Action>, t: nat, u: nat, i: nat)
    requires Possible(Start(cap, idleTimeout, tasks), run)
    requires var s := After(Start(cap, idleTimeout, tasks), run); t < |s.tasks| && u < |s.tasks| && t != u && MidTurn(s, t, i)
    ensures var s := After(Start(cap, idleTimeout, tasks), run);
            !RunsEviction(s, u, i) && !MidTurn(s, u, i)
            && (s.tasks[t].stage.Driving? && s.tasks[u].Turn? && s.tasks[u].stage.Driving? ==>
                  s.tasks[t].stage.proc != s.tasks[u].stage.proc)
  {
    hide Possible, After, SizeOk;
    var s := After(Start(cap, idleTimeout, tasks), run);
    Starts(cap, idleTimeout, tasks);
    EveryRun(Start(cap, idleTimeout, tasks), run);
    Alone(s, t, u, i);
  }

  lemma Alone(s: State, t: nat, u: nat, i: nat)
    requires Inv(s) && t < |s.tasks| && u < |s.tasks| && t != u && MidTurn(s, t, i)
    ensures !RunsEviction(s, u, i) && !MidTurn(s, u, i)
    ensures s.tasks[t].stage.Driving? && s.tasks[u].Turn? && s.tasks[u].stage.Driving? ==>
              s.tasks[t].stage.proc != s.tasks[u].stage.proc
  {
    assert InsideOk(s, t) && InsideOk(s, u) && StageOk(s, t) && StageOk(s, u);
    assert SpOk(s, i);
    assert s.tasks[u].Turn? ==> SpOk(s, s.tasks[u].sp);
  }

  /** A live subprocess's HOME exists, and is the one its session would remove. */
  lemma LiveHomesExist(cap: nat, idleTimeout: int, tasks: nat, run: seq<Action>, p: nat)
    requires Possible(Start(cap, idleTimeout, tasks), run)
    requires var s := After(Start(cap, idleTimeout, tasks), run); p < |s.procs| && s.procs[p].live
    ensures var s := After(Start(cap, idleTimeout, tasks), run);
            s.procs[p].home < |s.homes| && s.homes[s.procs[p].home].there
  {
    hide Possible, After, SizeOk;
    var s := After(Start(cap, idleTimeout, tasks), run);
    Starts(cap, idleTimeout, tasks);
    EveryRun(Start(cap, idleTimeout, tasks), run);
    assert ProcOk(s, p) && SpOk(s, s.procs[p].sp);
  }

  /** Every locked session of the pool is mid-turn: whoever evicts from outside pops first. */
  lemma PooledLocksAreTurns(cap: nat, idleTimeout: int, tasks: nat, run: seq<Action>, slug: string)
    requires Possible(Start(cap, idleTimeout, tasks), run)
    requires Locked(After(Start(cap, idleTimeout, tasks), run), slug)
    ensures var s := After(Start(cap, idleTimeout, tasks), run);
            exists t: nat :: t < |s.tasks| && MidTurn(s, t, s.pool[slug])
  {
    hide Possible, After, SizeOk;
    var s := After(Start(cap, idleTimeout, tasks), run);
    Starts(cap, idleTimeout, tasks);
    EveryRun(Start(cap, idleTimeout, tasks), run);
    LockedIsTurn(s, slug);
  }

  lemma LockedIsTurn(s: State, slug: string)
    requires Inv(s) && Locked(s, slug)
    ensures exists t: nat :: t < |s.tasks| && MidTurn(s, t, s.pool[slug])
  {
    var i := s.pool[slug];
    assert HolderOk(s, i);
    var t := s.sps[i].holder.value;
    assert VictimOk(s, t);
    assert MidTurn(s, t, i);
  }

  /** The pool's size: its cap, or one more than the most sessions mid-turn at once. */
  lemma PoolSize(cap: nat, idleTimeout: int, tasks: nat, run: seq<Action>)
    requires Possible(Start(cap, idleTimeout, tasks), run)
    ensures var s := After(Start(cap, idleTimeout, tasks), run);
            |s.pool| <= cap
            || exists n :: 0 <= n <= |run| && Possible(Start(cap, idleTimeout, tasks), run[..n])
                 && |s.pool| <= 1 + |Busy(After(Start(cap, idleTimeout, tasks), run[..n]))|
  {
    hide Possible, After, Inv, Busy;
    var s := Start(cap, idleTimeout, tasks);
    Starts(cap, idleTimeout, tasks);
    EveryRun(s, run);
    PeakReached(s, run);
    if After(s, run).peak == 0 {
      NoActions(s, run);
    }
  }

  lemma NoActions(s: State, run: seq<Action>)
    ensures run[..0] == [] && Possible(s, run[..0]) && After(s, run[..0]) == s
  {
  }

  /** `peak` was reached at some point of the run. */
  lemma {:induction false} PeakReached(s: State, run: seq<Action>)
    requires Inv(s) && SizeOk(s) && Possible(s, run)
    ensures After(s, run).peak == s.peak
            || exists n :: 0 <= n <= |run| && Possible(s, run[..n]) && |Busy(After(s, run[..n]))| == After(s, run).peak
    decreases run
  {
    hide Inv, Enabled, Effect, SizeOk, Busy;
    if run != [] {
      var a, rest, s1 := run[0], run[1..], Next(s, run[0]);
      NextFacts(s, a);
      PeakReached(s1, rest);
      if After(s1, rest).peak == s1.peak {
        OneAction(s, run);
      } else {
        var n :| 0 <= n <= |rest| && Possible(s1, rest[..n]) && |Busy(After(s1, rest[..n]))| == After(s1, rest).peak;
        assert run[..n + 1][0] == a && run[..n + 1][1..] == rest[..n];
        assert After(s, run[..n + 1]) == After(s1, rest[..n]);
      }
    }
  }

  lemma NextFacts(s: State, a: Action)
    requires Inv(s) && SizeOk(s) && Enabled(s, a)
    ensures Inv(Next(s, a)) && SizeOk(Next(s, a))
    ensures Next(s, a).peak == s.peak || Next(s, a).peak == |Busy(Next(s, a))|
  {
    hide Inv, Enabled, Effect, SizeOk, Busy;
    EffectKeeps(s, a);
    SizeStep(s, a);
    EffectSize(s, a);
    PeakKeeps(Effect(s, a), Next(s, a).peak);
    BusyIgnoresPeak(Effect(s, a), Next(s, a).peak);
  }

  lemma OneAction(s: State, run: seq<Action>)
    requires run != [] && Possible(s, run)
    ensures Possible(s, run[..1]) && After(s, run[..1]) == Next(s, run[0])
  {
    hide Enabled, Effect;
    assert run[..1][0] == run[0] && run[..1][1..] == [];
    assert Possible(Next(s, run[0]), []);
  }
}
