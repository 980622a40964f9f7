/**
 Whether a live subprocess can be forgotten. `_evict_session` pops a session
 before it waits for its lock, so that no caller spawns onto a session that is
 no longer in the pool. That does not keep every subprocess tracked: this module
 says exactly which actions lose one.
 */
module PoolTracking {
  import opened Options
  import opened SessionPool
  import opened PoolSafety

  /** The task will still evict the session, or drive a turn on it. */
  predicate Refers(pc: Pc, i: nat) {
    Victim(pc) == Some(i) || Target(pc) == Some(i)
  }

  ghost predicate Referred(s: State, i: nat) {
    exists t: nat :: t < |s.tasks| && Refers(s.tasks[t], i)
  }

  predicate Live(s: State, p: nat) {
    p < |s.procs| && s.procs[p].live
  }

  /** A live subprocess whose session has left the pool and that no task will touch again. */
  ghost predicate Untracked(s: State, p: nat) {
    Live(s, p) && !Pooled(s, s.procs[p].sp) && !Referred(s, s.procs[p].sp)
  }

  /** The three ways to lose a subprocess. A task is cancelled, or its turn ends,
      when the session has left the pool and no other task refers to it; or a
      failed turn drops its slug and thereby pops a newer session. */
  ghost predicate Loses(s: State, a: Action, p: nat) {
    Live(s, p) && (a.Cancel? || a.EndTurn? || a.Drop?) && a.t < |s.tasks|
    && var i, pc := s.procs[p].sp, s.tasks[a.t];
       if a.Drop?
       then Pooled(s, i) && !Referred(s, i) && pc.Turn? && pc.sp < |s.sps| && s.sps[pc.sp].slug == s.sps[i].slug
       else !Pooled(s, i) && Refers(pc, i) && forall u: nat | u < |s.tasks| && u != a.t :: !Refers(s.tasks[u], i)
  }

  // ----- One action ---------------------------------------------------------------------

  /** The actions that change neither the pool nor what any task refers to. */
  predicate Quiet(a: Action) {
    !(a.Admit? || a.ReapNext? || a.Drop? || a.Cancel? || a.EndTurn? || a.Evict?)
  }

  /** Same pool, same slugs, same references. */
  ghost predicate SameView(s: State, s': State) {
    s'.pool == s.pool && |s'.sps| == |s.sps| && (forall i: nat | i < |s.sps| :: s'.sps[i].slug == s.sps[i].slug)
    && |s'.tasks| == |s.tasks|
    && forall u: nat | u < |s.tasks| :: Victim(s'.tasks[u]) == Victim(s.tasks[u]) && Target(s'.tasks[u]) == Target(s.tasks[u])
  }

  lemma QuietView(s: State, a: Action)
    requires Enabled(s, a) && Quiet(a)
    ensures SameView(s, Next(s, a))
  {
    hide *;
    if a.Die? || a.Respawn? || a.Boot? || a.StageHome? || a.FindDead? {
      ChangeView(s, a);
    } else {
      MoveView(s, a);
    }
    PeakView(s, Effect(s, a), a);
  }

  lemma PeakView(s: State, s1: State, a: Action)
    requires Enabled(s, a) && s1 == Effect(s, a) && SameView(s, s1)
    ensures SameView(s, Next(s, a))
  {
    hide Enabled, Effect, Busy, Victim, Target;
  }

  lemma MoveView(s: State, a: Action)
    requires Enabled(s, a) && Quiet(a) && !(a.Die? || a.Respawn? || a.Boot? || a.StageHome? || a.FindDead?)
    ensures SameView(s, Effect(s, a))
  {
    hide PoolInRange, DeadOrNone, Evictable;
  }

  lemma ChangeView(s: State, a: Action)
    requires Enabled(s, a) && (a.Die? || a.Respawn? || a.Boot? || a.StageHome? || a.FindDead?)
    ensures SameView(s, Effect(s, a))
  {
    hide PoolInRange, DeadOrNone, SameView, Victim, Target, Terminated, TornDown, Staged, Booted;
    if a.Die? {
      DieView(s, a);
    } else {
      var i := s.tasks[a.t].sp;
      SameTasks(s, i);
      var s1 := if a.FindDead? then TornDown(s, i) else if a.StageHome? then Staged(s, i)
                else if a.Boot? then Booted(s, i) else TornDown(Terminated(s, i), i);
      SessionView(s, i);
      SessionView(Terminated(s, i), i);
      TurnView(s, s1, a.t, i, Effect(s, a).tasks[a.t]);
    }
  }

  lemma DieView(s: State, a: Action)
    requires Enabled(s, a) && a.Die?
    ensures SameView(s, Effect(s, a))
  {
    hide Victim, Target, PoolInRange;
  }

  /** The pool, the slugs and the tasks are the same. */
  ghost predicate SameOutside(s: State, s': State) {
    s'.pool == s.pool && s'.tasks == s.tasks && |s'.sps| == |s.sps| && forall j: nat | j < |s.sps| :: s'.sps[j].slug == s.sps[j].slug
  }

  lemma SessionView(s: State, i: nat)
    requires i < |s.sps|
    ensures SameOutside(s, TornDown(s, i)) && SameOutside(s, Staged(s, i)) && SameOutside(s, Terminated(s, i))
    ensures s.sps[i].home.Some? ==> SameOutside(s, Booted(s, i))
  {
  }

  lemma TurnView(s: State, s1: State, t: nat, i: nat, pc: Pc)
    requires SameOutside(s, s1) && t < |s.tasks| && s.tasks[t].Turn? && s.tasks[t].sp == i && pc.Turn? && pc.sp == i
    ensures SameView(s, Goto(s1, t, pc))
  {
  }

  lemma SameRefs(s: State, s': State, i: nat)
    requires SameView(s, s')
    ensures Pooled(s', i) == Pooled(s, i) && Referred(s', i) == Referred(s, i)
  {
    hide Victim, Target;
    if Referred(s, i) {
      var t: nat :| t < |s.tasks| && Refers(s.tasks[t], i);
      assert Refers(s'.tasks[t], i);
    }
    if Referred(s', i) {
      var t: nat :| t < |s'.tasks| && Refers(s'.tasks[t], i);
      assert Refers(s.tasks[t], i);
    }
  }

  /** Subprocesses keep their session; one dies by itself or at the hands of a
      task that refers to its session; a new one belongs to a turn's session. */
  lemma ProcsStep(s: State, a: Action, p: nat)
    requires Inv(s) && Enabled(s, a)
    ensures p < |s.procs| ==> p < |Next(s, a).procs| && Next(s, a).procs[p].sp == s.procs[p].sp
    ensures Live(Next(s, a), p) && p < |s.procs| ==> Live(s, p)
    ensures Live(s, p) && !Live(Next(s, a), p) ==> a == Die(p) || ((a.Respawn? || a.Evict?) && Refers(s.tasks[a.t], s.procs[p].sp))
    ensures a == Die(p) ==> !Live(Next(s, a), p)
    ensures Live(Next(s, a), p) && p >= |s.procs| ==> a.Boot? && s.tasks[a.t].Turn? && Next(s, a).procs[p].sp == s.tasks[a.t].sp
  {
    hide Inv, Enabled, Effect, Next, Refers;
    assert Next(s, a).procs == Effect(s, a).procs by { PeakProcs(s, a); }
    if a.Evict? || a.Respawn? {
      KillsOwn(s, a, p);
    } else if a.Boot? {
      BootsOwn(s, a, p);
    } else if a.Die? {
      DiesAlone(s, a, p);
    } else {
      SameProcs(s, a);
    }
  }

  lemma PeakProcs(s: State, a: Action)
    requires Enabled(s, a)
    ensures Next(s, a).procs == Effect(s, a).procs
  {
    hide Enabled, Effect, Busy;
  }

  lemma SameProcs(s: State, a: Action)
    requires Enabled(s, a) && !a.Evict? && !a.Respawn? && !a.Boot? && !a.Die?
    ensures Effect(s, a).procs == s.procs
  {
    hide PoolInRange, DeadOrNone, Evictable, Contended, Candidate;
  }

  lemma DiesAlone(s: State, a: Action, p: nat)
    requires Enabled(s, a) && a.Die?
    ensures var procs := Effect(s, a).procs;
            |procs| == |s.procs| && (p < |procs| ==> procs[p] == if a.p == p then s.procs[p].(live := false) else s.procs[p])
  {
  }

  lemma BootsOwn(s: State, a: Action, p: nat)
    requires Enabled(s, a) && a.Boot?
    ensures var procs := Effect(s, a).procs;
            s.tasks[a.t].Turn? && |procs| == |s.procs| + 1 && (p < |s.procs| ==> procs[p] == s.procs[p])
            && (p == |s.procs| ==> procs[p].sp == s.tasks[a.t].sp)
  {
    hide PoolInRange;
  }

  lemma KillsOwn(s: State, a: Action, p: nat)
    requires Inv(s) && Enabled(s, a) && (a.Evict? || a.Respawn?)
    ensures var procs := Effect(s, a).procs;
            |procs| == |s.procs|
            && (p < |procs| ==> procs[p] == s.procs[p] || (procs[p] == s.procs[p].(live := false) && Refers(s.tasks[a.t], s.procs[p].sp)))
  {
    var i := Inside(s.tasks[a.t]).value;
    Holds(s, a.t, i);
    hide Inv, PoolInRange, StageOk, VictimOk, ProcOk, Contended;
  }

  // ----- When an action loses a subprocess ----------------------------------------------------

  /** A subprocess is untracked after an action exactly if it was before, and
      did not die, or the action is one that loses it. */
  lemma StepTracks(s: State, a: Action, p: nat)
    requires Inv(s) && Enabled(s, a)
    ensures Untracked(Next(s, a), p) <==> (Untracked(s, p) && a != Die(p)) || Loses(s, a, p)
  {
    hide Inv, Enabled, Next, Untracked, Referred, Pooled, Refers;
    if Quiet(a) {
      QuietTracks(s, a, p);
    } else if a.Cancel? || a.EndTurn? {
      LeavingTracks(s, a, p);
    } else if a.Drop? {
      DropTracks(s, a, p);
    } else if a.Evict? {
      EvictTracks(s, a, p);
    } else if a.Admit? {
      AdmitTracks(s, a, p);
    } else {
      ReapTracks(s, a, p);
    }
  }

  lemma QuietTracks(s: State, a: Action, p: nat)
    requires Inv(s) && Enabled(s, a) && Quiet(a)
    ensures Untracked(Next(s, a), p) <==> Untracked(s, p) && a != Die(p)
  {
    hide Inv, Enabled, Next, Pooled, Referred, SameView;
    ProcsStep(s, a, p);
    QuietView(s, a);
    var s' := Next(s, a);
    if p < |s.procs| {
      SameRefs(s, s', s.procs[p].sp);
      if Live(s, p) && !Live(s', p) && a != Die(p) {
        TaskExists(s, a);
        IsReferred(s, a.t, s.procs[p].sp);
      }
    } else if Live(s', p) {
      TaskExists(s, a);
      SameRefs(s, s', s'.procs[p].sp);
      IsReferred(s, a.t, s'.procs[p].sp);
    }
  }

  lemma TaskExists(s: State, a: Action)
    requires Enabled(s, a) && !a.Die?
    ensures a.t < |s.tasks|
  {
    hide PoolInRange;
  }

  lemma IsReferred(s: State, t: nat, i: nat)
    requires t < |s.tasks| && Refers(s.tasks[t], i)
    ensures Referred(s, i)
  {
  }

  /** A cancelled wait and an ended turn leave the task idle. */
  lemma LeavingTracks(s: State, a: Action, p: nat)
    requires Inv(s) && Enabled(s, a) && (a.Cancel? || a.EndTurn?)
    ensures Untracked(Next(s, a), p) <==> Untracked(s, p) || Loses(s, a, p)
  {
    hide Inv, Enabled, Next, Pooled, Refers;
    ProcsStep(s, a, p);
    TaskExists(s, a);
    LeavingView(s, a);
    if Live(s, p) {
      LeavingRefs(s, Next(s, a), a.t, s.procs[p].sp);
    }
  }

  lemma LeavingView(s: State, a: Action)
    requires Enabled(s, a) && (a.Cancel? || a.EndTurn?)
    ensures var s' := Next(s, a);
            s'.pool == s.pool && s'.tasks == s.tasks[a.t := Idle]
            && |s'.sps| == |s.sps| && forall j: nat | j < |s.sps| :: s'.sps[j].slug == s.sps[j].slug
  {
    hide PoolInRange, Busy;
  }

  lemma LeavingRefs(s: State, s': State, t: nat, i: nat)
    requires t < |s.tasks| && s'.pool == s.pool && s'.tasks == s.tasks[t := Idle]
    requires |s'.sps| == |s.sps| && forall j: nat | j < |s.sps| :: s'.sps[j].slug == s.sps[j].slug
    ensures Pooled(s', i) == Pooled(s, i)
    ensures Referred(s', i) <==> exists u: nat :: u < |s.tasks| && u != t && Refers(s.tasks[u], i)
    ensures Referred(s, i) <==> Refers(s.tasks[t], i) || exists u: nat :: u < |s.tasks| && u != t && Refers(s.tasks[u], i)
  {
    hide Victim, Target;
    assert !Refers(Idle, i) by { IdleRefers(i); }
    if u: nat :| u < |s.tasks| && u != t && Refers(s.tasks[u], i) {
      assert Refers(s'.tasks[u], i);
    }
    if Referred(s', i) {
      var u: nat :| u < |s'.tasks| && Refers(s'.tasks[u], i);
      assert u != t && Refers(s.tasks[u], i);
    }
  }

  lemma IdleRefers(i: nat)
    ensures !Refers(Idle, i)
  {
  }

  lemma DropTracks(s: State, a: Action, p: nat)
    requires Inv(s) && Enabled(s, a) && a.Drop?
    ensures Untracked(Next(s, a), p) <==> Untracked(s, p) || Loses(s, a, p)
  {
    hide Inv, Enabled, Next, Pooled, Referred;
    ProcsStep(s, a, p);
    TaskExists(s, a);
    DropView(s, a);
    if Live(s, p) {
      DropRefs(s, a, s.procs[p].sp);
    }
  }

  lemma DropView(s: State, a: Action)
    requires Enabled(s, a) && a.Drop?
    ensures s.tasks[a.t].Turn? && s.tasks[a.t].sp < |s.sps|
    ensures var s' := Next(s, a);
            s'.pool == s.pool - {s.sps[s.tasks[a.t].sp].slug} && s'.sps == s.sps
            && s'.tasks == s.tasks[a.t := Turn(s.tasks[a.t].sp, Yielding)]
  {
    hide PoolInRange, Busy;
  }

  lemma DropRefs(s: State, a: Action, i: nat)
    requires Enabled(s, a) && a.Drop? && s.tasks[a.t].Turn? && s.tasks[a.t].sp < |s.sps|
    requires var s' := Next(s, a);
             s'.pool == s.pool - {s.sps[s.tasks[a.t].sp].slug} && s'.sps == s.sps
             && s'.tasks == s.tasks[a.t := Turn(s.tasks[a.t].sp, Yielding)]
    ensures Pooled(Next(s, a), i) <==> Pooled(s, i) && s.sps[i].slug != s.sps[s.tasks[a.t].sp].slug
    ensures Referred(Next(s, a), i) == Referred(s, i)
  {
    TaskExists(s, a);
    hide Enabled, Next, Victim, Target;
    var s' := Next(s, a);
    TurnRefers(s.tasks[a.t], Yielding, i);
    SameTaskRefs(s, s', i);
  }

  lemma TurnRefers(pc: Pc, stage: Stage, i: nat)
    requires pc.Turn?
    ensures Refers(pc, i) <==> pc.sp == i
    ensures Refers(Turn(pc.sp, stage), i) <==> pc.sp == i
  {
  }

  lemma SameTaskRefs(s: State, s': State, i: nat)
    requires |s.tasks| == |s'.tasks| && forall u: nat | u < |s.tasks| :: Refers(s.tasks[u], i) == Refers(s'.tasks[u], i)
    ensures Referred(s', i) == Referred(s, i)
  {
    hide Refers;
    if Referred(s, i) {
      var t: nat :| t < |s.tasks| && Refers(s.tasks[t], i);
      assert Refers(s'.tasks[t], i);
    }
    if Referred(s', i) {
      var t: nat :| t < |s'.tasks| && Refers(s'.tasks[t], i);
      assert Refers(s.tasks[t], i);
    }
  }

  /** Eviction forgets its victim last, when the subprocess is gone. */
  lemma EvictTracks(s: State, a: Action, p: nat)
    requires Inv(s) && Enabled(s, a) && a.Evict?
    ensures Untracked(Next(s, a), p) <==> Untracked(s, p)
  {
    hide Inv, Enabled, Next, Pooled, Referred, Inside, Refers;
    ProcsStep(s, a, p);
    TaskExists(s, a);
    EvictView(s, a);
    if Live(s, p) {
      var i := s.procs[p].sp;
      EvictRefs(s, a, i);
      if Refers(s.tasks[a.t], i) {
        IsReferred(s, a.t, i);
        if Live(Next(s, a), p) {
          KeepsLive(s, a, p);
          IsReferred(Next(s, a), a.t, i);
        }
      }
    }
  }

  lemma EvictView(s: State, a: Action)
    requires Enabled(s, a) && a.Evict?
    ensures var s' := Next(s, a);
            s'.pool == s.pool && |s'.tasks| == |s.tasks| && (forall u: nat | u < |s.tasks| && u != a.t :: s'.tasks[u] == s.tasks[u])
            && |s'.sps| == |s.sps| && forall j: nat | j < |s.sps| :: s'.sps[j].slug == s.sps[j].slug
    ensures forall i: nat :: Refers(Next(s, a).tasks[a.t], i) ==> Refers(s.tasks[a.t], i)
  {
    hide PoolInRange, Busy, Contended;
  }

  lemma EvictRefs(s: State, a: Action, i: nat)
    requires Enabled(s, a) && a.Evict?
    requires var s' := Next(s, a);
             s'.pool == s.pool && |s'.tasks| == |s.tasks| && (forall u: nat | u < |s.tasks| && u != a.t :: s'.tasks[u] == s.tasks[u])
             && |s'.sps| == |s.sps| && (forall j: nat | j < |s.sps| :: s'.sps[j].slug == s.sps[j].slug)
             && forall i: nat :: Refers(s'.tasks[a.t], i) ==> Refers(s.tasks[a.t], i)
    ensures Pooled(Next(s, a), i) == Pooled(s, i)
    ensures Referred(Next(s, a), i) ==> Referred(s, i)
    ensures !Refers(s.tasks[a.t], i) ==> Referred(Next(s, a), i) == Referred(s, i)
  {
    TaskExists(s, a);
    hide Enabled, Next, Refers;
    var s' := Next(s, a);
    if Referred(s', i) {
      var u: nat :| u < |s'.tasks| && Refers(s'.tasks[u], i);
      assert Refers(s.tasks[u], i);
    }
    if Referred(s, i) && !Refers(s.tasks[a.t], i) {
      var u: nat :| u < |s.tasks| && Refers(s.tasks[u], i);
      assert Refers(s'.tasks[u], i);
    }
  }

  /** A task that has not killed a subprocess of a session it refers to still refers to it. */
  lemma KeepsLive(s: State, a: Action, p: nat)
    requires Inv(s) && Enabled(s, a) && a.Evict? && Live(Next(s, a), p) && Live(s, p) && Refers(s.tasks[a.t], s.procs[p].sp)
    ensures a.t < |Next(s, a).tasks| && Refers(Next(s, a).tasks[a.t], s.procs[p].sp)
  {
    assert ProcOk(s, p) && StageOk(s, a.t);
    hide Inv, PoolInRange, Busy, Contended;
  }

  lemma AdmitTracks(s: State, a: Action, p: nat)
    requires Inv(s) && Enabled(s, a) && a.Admit?
    ensures Untracked(Next(s, a), p) <==> Untracked(s, p)
  {
    hide Inv, Enabled, Next, Pooled, Referred;
    ProcsStep(s, a, p);
    if Live(s, p) {
      ProcSession(s, p);
      AdmitRefs(s, a, s.procs[p].sp);
    }
  }

  lemma ProcSession(s: State, p: nat)
    requires Inv(s) && Live(s, p)
    ensures s.procs[p].sp < |s.sps|
  {
    assert ProcOk(s, p);
  }

  /** Admission refers to the sessions it takes out of the pool, and to no
      session that the pool had lost. */
  lemma AdmitRefs(s: State, a: Action, i: nat)
    requires Inv(s) && Enabled(s, a) && a.Admit? && i < |s.sps|
    ensures Pooled(Next(s, a), i) || Referred(Next(s, a), i) <==> Pooled(s, i) || Referred(s, i)
  {
    var s' := Next(s, a);
    AdmitView(s, a, i);
    TaskExists(s, a);
    hide Inv, Enabled, Next, Pooled, Victim, Target;
    if Referred(s, i) {
      var u: nat :| u < |s.tasks| && Refers(s.tasks[u], i);
      assert u != a.t && Refers(s'.tasks[u], i);
    }
    if Referred(s', i) {
      var u: nat :| u < |s'.tasks| && Refers(s'.tasks[u], i);
      assert u != a.t ==> Refers(s.tasks[u], i);
    }
    if Pooled(s, i) && !Pooled(s', i) {
      IsReferred(s', a.t, i);
    }
  }

  lemma AdmitView(s: State, a: Action, i: nat)
    requires Inv(s) && Enabled(s, a) && a.Admit? && i < |s.sps|
    ensures var s' := Next(s, a);
            |s'.tasks| == |s.tasks| && (forall u: nat | u < |s.tasks| && u != a.t :: s'.tasks[u] == s.tasks[u])
            && !Refers(s.tasks[a.t], i)
            && (Refers(s'.tasks[a.t], i) ==> Pooled(s, i))
            && (Pooled(s', i) ==> Pooled(s, i))
            && (Pooled(s, i) && !Pooled(s', i) ==> Victim(s'.tasks[a.t]) == Some(i))
  {
    hide *;
    PoolInRangeNow(s);
    IdleBefore(s, a);
    AdmitNext(s, a);
    AdmitRefers(s, a, i);
    AdmitPools(s, a, i);
  }

  lemma PoolInRangeNow(s: State)
    requires Inv(s)
    ensures PoolOk(s)
  {
    hide PoolOk;
  }

  lemma AdmitRefers(s: State, a: Action, i: nat)
    requires PoolOk(s) && Enabled(s, a) && a.Admit? && i < |s.sps|
    ensures a.t < |s.tasks| && |Next(s, a).tasks| == |s.tasks| && !Refers(s.tasks[a.t], i)
    ensures Refers(Next(s, a).tasks[a.t], i) ==> Pooled(s, i)
  {
    IdleBefore(s, a);
    AdmitNext(s, a);
    hide Next, Enabled;
  }

  lemma AdmitPools(s: State, a: Action, i: nat)
    requires PoolOk(s) && Enabled(s, a) && a.Admit? && i < |s.sps|
    ensures a.t < |s.tasks| && |Next(s, a).tasks| == |s.tasks|
    ensures Pooled(Next(s, a), i) ==> Pooled(s, i)
    ensures Pooled(s, i) && !Pooled(Next(s, a), i) ==> Victim(Next(s, a).tasks[a.t]) == Some(i)
  {
    IdleBefore(s, a);
    AdmitNext(s, a);
    hide Next, Enabled, PoolOk;
    assert Next(s, a).sps[i].slug == s.sps[i].slug by {
      assert Next(s, a).sps[..|s.sps|][i] == Next(s, a).sps[i];
    }
  }

  lemma IdleBefore(s: State, a: Action)
    requires Enabled(s, a) && a.Admit?
    ensures a.t < |s.tasks| && s.tasks[a.t].Idle?
  {
    hide AdmitOk, Stale;
  }

  lemma AdmitNext(s: State, a: Action)
    requires PoolOk(s) && Enabled(s, a) && a.Admit?
    ensures var s', known := Next(s, a), a.slug in s.pool;
            var i, pc := if known then s.pool[a.slug] else |s.sps|, s'.tasks[a.t];
            s'.tasks == s.tasks[a.t := pc] && s'.sps[..|s.sps|] == s.sps && |s'.sps| == |s.sps| + (if known then 0 else 1)
            && (!known ==> s'.sps[|s.sps|].slug == a.slug)
            && (if a.victim.None? then pc.TurnWait? && pc.sp == i && s'.pool == s.pool[a.slug := i]
                else a.victim.value in s.pool && a.victim.value != a.slug
                     && pc.LruWait? && pc.sp == i && pc.victim == s.pool[a.victim.value]
                     && s'.pool == s.pool[a.slug := i] - {a.victim.value})
  {
    hide Busy, Contended, Stale, DeadOrNone;
    assert s.pool == if a.slug in s.pool then s.pool[a.slug := s.pool[a.slug]] else s.pool;
  }

  lemma ReapTracks(s: State, a: Action, p: nat)
    requires Inv(s) && Enabled(s, a) && a.ReapNext?
    ensures Untracked(Next(s, a), p) <==> Untracked(s, p)
  {
    hide Inv, Enabled, Next, Pooled, Referred;
    ProcsStep(s, a, p);
    if Live(s, p) {
      ReapRefs(s, a, s.procs[p].sp);
    }
  }

  lemma ReapRefs(s: State, a: Action, i: nat)
    requires Inv(s) && Enabled(s, a) && a.ReapNext?
    ensures Pooled(Next(s, a), i) || Referred(Next(s, a), i) <==> Pooled(s, i) || Referred(s, i)
  {
    var s' := Next(s, a);
    ReapView(s, a, i);
    TaskExists(s, a);
    hide Inv, Enabled, Next, Pooled, Victim, Target;
    if Referred(s, i) {
      var u: nat :| u < |s.tasks| && Refers(s.tasks[u], i);
      assert u != a.t && Refers(s'.tasks[u], i);
    }
    if Referred(s', i) {
      var u: nat :| u < |s'.tasks| && Refers(s'.tasks[u], i);
      assert u != a.t ==> Refers(s.tasks[u], i);
    }
    if Pooled(s, i) && !Pooled(s', i) {
      IsReferred(s', a.t, i);
    }
  }

  lemma ReapView(s: State, a: Action, i: nat)
    requires Inv(s) && Enabled(s, a) && a.ReapNext?
    ensures var s' := Next(s, a);
            |s'.tasks| == |s.tasks| && (forall u: nat | u < |s.tasks| && u != a.t :: s'.tasks[u] == s.tasks[u])
            && !Refers(s.tasks[a.t], i)
            && (Refers(s'.tasks[a.t], i) ==> Pooled(s, i))
            && (Pooled(s', i) ==> Pooled(s, i))
            && (Pooled(s, i) && !Pooled(s', i) ==> Victim(s'.tasks[a.t]) == Some(i))
  {
    assert PoolOk(s);
    hide Inv, Busy, Contended, PoolInRange;
  }

  // ----- When a run loses a subprocess -----------------------------------------------------------

  /** Some action of the run loses the subprocess, which does not die after it. */
  ghost predicate LostIn(s: State, run: seq<Action>, p: nat) {
    exists k :: 0 <= k < |run| && LostAt(s, run, k, p)
  }

  ghost predicate LostAt(s: State, run: seq<Action>, k: nat, p: nat)
    requires k < |run|
  {
    Possible(s, run[..k]) && Loses(After(s, run[..k]), run[k], p) && Die(p) !in run[k + 1..]
  }

  lemma {:induction false} Continues(s: State, run: seq<Action>, a: Action)
    ensures Possible(s, run + [a]) <==> Possible(s, run) && Enabled(After(s, run), a)
    ensures Possible(s, run + [a]) ==> After(s, run + [a]) == Next(After(s, run), a)
    decreases run
  {
    hide Enabled, Next;
    var more := run + [a];
    if run == [] {
      assert more[1..] == [];
      if Enabled(s, a) {
        assert Possible(Next(s, a), []);
      }
    } else {
      assert more[0] == run[0] && more[1..] == run[1..] + [a];
      if Enabled(s, run[0]) {
        Continues(Next(s, run[0]), run[1..], a);
      }
    }
  }

  lemma LostLater(s: State, run: seq<Action>, a: Action, p: nat)
    requires Possible(s, run)
    ensures LostIn(s, run + [a], p) <==> (LostIn(s, run, p) && a != Die(p)) || Loses(After(s, run), a, p)
  {
    hide Possible, After, Loses;
    var more, n := run + [a], |run|;
    assert more[..n] == run && more[n] == a && more[n + 1..] == [];
    forall k | 0 <= k < n ensures LostAt(s, more, k, p) <==> LostAt(s, run, k, p) && a != Die(p) {
      assert more[..k] == run[..k] && more[k + 1..] == run[k + 1..] + [a];
    }
    assert LostAt(s, more, n, p) <==> Loses(After(s, run), a, p);
    hide LostAt;
    if LostIn(s, more, p) {
      var k :| 0 <= k < |more| && LostAt(s, more, k, p);
      assert k == n || LostAt(s, run, k, p);
    }
    if LostIn(s, run, p) && a != Die(p) {
      var k :| 0 <= k < |run| && LostAt(s, run, k, p);
      assert LostAt(s, more, k, p);
    }
  }

  /** In every run, exactly the subprocesses that some action lost, and that
      have not died since, are untracked. */
  lemma {:induction false} UntrackedExactly(cap: nat, idleTimeout: int, tasks: nat, run: seq<Action>, p: nat)
    requires Possible(Start(cap, idleTimeout, tasks), run)
    ensures Untracked(After(Start(cap, idleTimeout, tasks), run), p) <==> LostIn(Start(cap, idleTimeout, tasks), run, p)
    decreases run
  {
    hide *;
    var s := Start(cap, idleTimeout, tasks);
    if run == [] {
      NothingRuns(cap, idleTimeout, tasks, p);
    } else {
      var init, a := run[..|run| - 1], run[|run| - 1];
      assert run == init + [a];
      Continues(s, init, a);
      UntrackedExactly(cap, idleTimeout, tasks, init, p);
      Starts(cap, idleTimeout, tasks);
      EveryRun(s, init);
      StepTracks(After(s, init), a, p);
      LostLater(s, init, a, p);
    }
  }

  lemma NothingRuns(cap: nat, idleTimeout: int, tasks: nat, p: nat)
    ensures var s := Start(cap, idleTimeout, tasks); !Untracked(After(s, []), p) && !LostIn(s, [], p)
  {
  }

  // ----- Runs that lose none ---------------------------------------------------------------------

  /** In the pool, or popped by a task that is about to evict it. */
  ghost predicate Watched(s: State, i: nat) {
    Pooled(s, i) || exists t: nat :: t < |s.tasks| && Victim(s.tasks[t]) == Some(i)
  }

  /** No wait for a victim is cancelled, no turn takes the lock of a session
      that has left the pool, and no turn drops another session than its own. */
  ghost predicate Careful(s: State, a: Action)
    requires Enabled(s, a)
  {
    match a
    case Cancel(t) => !s.tasks[t].LruWait? && !s.tasks[t].ReapWait?
    case Acquire(t) => s.tasks[t].TurnWait? ==> Pooled(s, s.tasks[t].sp)
    case Drop(t) => s.sps[s.tasks[t].sp].slug in s.pool ==> Pooled(s, s.tasks[t].sp)
    case _ => true
  }

  /** A turn that may still boot a subprocess. */
  predicate MayBoot(pc: Pc, i: nat) {
    pc.Turn? && pc.sp == i && !pc.stage.Yielding?
  }

  ghost predicate Kept(s: State) {
    (forall p: nat | Live(s, p) :: Watched(s, s.procs[p].sp))
    && forall t: nat | t < |s.tasks| && s.tasks[t].Turn? && MayBoot(s.tasks[t], s.tasks[t].sp) :: Watched(s, s.tasks[t].sp)
  }

  /** The acting task holds the session, and its subprocess is gone. */
  ghost predicate GivesUp(s: State, a: Action, i: nat) {
    (a.Drop? || a.Cancel? || a.Evict?) && a.t < |s.tasks| && (a.Evict? ==> Victim(s.tasks[a.t]) == Some(i))
    && Inside(s.tasks[a.t]) == Some(i) && i < |s.sps| && s.sps[i].proc.None?
  }

  lemma WatchedStep(s: State, a: Action, i: nat)
    requires Inv(s) && Enabled(s, a) && Careful(s, a) && i < |s.sps| && Watched(s, i)
    ensures Watched(Next(s, a), i) || GivesUp(s, a, i)
  {
    hide Inv, Enabled, Next, Watched, Careful, GivesUp, SameView;
    if Quiet(a) {
      QuietView(s, a);
      SameWatched(s, Next(s, a), i);
    } else if a.Cancel? || a.EndTurn? {
      LeavingWatched(s, a, i);
    } else if a.Drop? {
      DropWatched(s, a, i);
    } else if a.Evict? {
      EvictWatched(s, a, i);
    } else {
      PopWatched(s, a, i);
    }
  }

  lemma SameWatched(s: State, s': State, i: nat)
    requires SameView(s, s') && Watched(s, i)
    ensures Watched(s', i)
  {
    hide Victim, Target;
    if !Pooled(s, i) {
      var t: nat :| t < |s.tasks| && Victim(s.tasks[t]) == Some(i);
      assert Victim(s'.tasks[t]) == Some(i);
    }
  }

  lemma LeavingWatched(s: State, a: Action, i: nat)
    requires Inv(s) && Enabled(s, a) && Careful(s, a) && Watched(s, i) && (a.Cancel? || a.EndTurn?)
    ensures Watched(Next(s, a), i) || GivesUp(s, a, i)
  {
    TaskExists(s, a);
    LeavingView(s, a);
    var s' := Next(s, a);
    if !Pooled(s, i) {
      var t: nat :| t < |s.tasks| && Victim(s.tasks[t]) == Some(i);
      if t == a.t {
        assert StageOk(s, t) && InsideOk(s, t);
        hide Inv, Next, StageOk, InsideOk, PoolInRange;
        VictimInside(s.tasks[t], i);
      } else {
        assert Victim(s'.tasks[t]) == Some(i);
      }
    }
  }

  lemma VictimInside(pc: Pc, i: nat)
    requires Victim(pc) == Some(i)
    ensures Awaits(pc) == Some(i) || Inside(pc) == Some(i)
  {
  }

  lemma DropWatched(s: State, a: Action, i: nat)
    requires Inv(s) && Enabled(s, a) && Careful(s, a) && i < |s.sps| && Watched(s, i) && a.Drop?
    ensures Watched(Next(s, a), i) || GivesUp(s, a, i)
  {
    TaskExists(s, a);
    DropView(s, a);
    var s' := Next(s, a);
    if !Pooled(s, i) {
      var t: nat :| t < |s.tasks| && Victim(s.tasks[t]) == Some(i);
      assert t != a.t && Victim(s'.tasks[t]) == Some(i);
    } else {
      assert StageOk(s, a.t);
      hide Inv, Next, PoolInRange;
    }
  }

  lemma EvictWatched(s: State, a: Action, i: nat)
    requires Inv(s) && Enabled(s, a) && i < |s.sps| && Watched(s, i) && a.Evict?
    ensures Watched(Next(s, a), i) || GivesUp(s, a, i)
  {
    TaskExists(s, a);
    EvictView(s, a);
    var s' := Next(s, a);
    if !Pooled(s, i) {
      var t: nat :| t < |s.tasks| && Victim(s.tasks[t]) == Some(i);
      if t != a.t {
        assert Victim(s'.tasks[t]) == Some(i);
      } else {
        EvictKeepsVictim(s, a, i);
      }
    }
  }

  /** An eviction refers to its victim until the subprocess is gone. */
  lemma EvictKeepsVictim(s: State, a: Action, i: nat)
    requires Inv(s) && Enabled(s, a) && a.Evict? && a.t < |s.tasks| && Victim(s.tasks[a.t]) == Some(i)
    ensures GivesUp(s, a, i) || (a.t < |Next(s, a).tasks| && Victim(Next(s, a).tasks[a.t]) == Some(i))
  {
    assert StageOk(s, a.t) && InsideOk(s, a.t);
    hide Inv, StageOk, InsideOk, PoolInRange, Busy, Contended;
  }

  lemma PopWatched(s: State, a: Action, i: nat)
    requires Inv(s) && Enabled(s, a) && i < |s.sps| && Watched(s, i) && (a.Admit? || a.ReapNext?)
    ensures Watched(Next(s, a), i)
  {
    TaskExists(s, a);
    if a.Admit? {
      AdmitView(s, a, i);
    } else {
      ReapView(s, a, i);
    }
    hide Inv, Enabled, Next, Pooled, Target;
    var s' := Next(s, a);
    if !Pooled(s, i) {
      var t: nat :| t < |s.tasks| && Victim(s.tasks[t]) == Some(i);
      assert t != a.t && Victim(s'.tasks[t]) == Some(i);
    } else if !Pooled(s', i) {
      assert Victim(s'.tasks[a.t]) == Some(i);
    }
  }

  lemma KeptStep(s: State, a: Action)
    requires Inv(s) && Enabled(s, a) && Careful(s, a) && Kept(s)
    ensures Kept(Next(s, a))
  {
    hide Inv, Enabled, Next, Watched, Careful, GivesUp, MayBoot;
    var s' := Next(s, a);
    forall p: nat | Live(s', p) ensures Watched(s', s'.procs[p].sp) {
      LiveKept(s, a, p);
    }
    forall t: nat | t < |s'.tasks| && s'.tasks[t].Turn? && MayBoot(s'.tasks[t], s'.tasks[t].sp) ensures Watched(s', s'.tasks[t].sp) {
      TurnKept(s, a, t, s'.tasks[t].sp);
    }
  }

  lemma LiveKept(s: State, a: Action, p: nat)
    requires Inv(s) && Enabled(s, a) && Careful(s, a) && Kept(s) && Live(Next(s, a), p)
    ensures Watched(Next(s, a), Next(s, a).procs[p].sp)
  {
    hide Inv, Enabled, Next, Watched, Careful, GivesUp, MayBoot;
    ProcsStep(s, a, p);
    if p < |s.procs| {
      ProcSession(s, p);
      WatchedStep(s, a, s.procs[p].sp);
      LivesNot(s, a, p);
    } else {
      BootsWatched(s, a);
      WatchedStep(s, a, s.tasks[a.t].sp);
      BootGivesNothing(s, a, s.tasks[a.t].sp);
    }
  }

  lemma LivesNot(s: State, a: Action, p: nat)
    requires Inv(s) && Live(s, p)
    ensures !GivesUp(s, a, s.procs[p].sp)
  {
    assert ProcOk(s, p);
  }

  lemma BootsWatched(s: State, a: Action)
    requires Inv(s) && Enabled(s, a) && Kept(s) && a.Boot?
    ensures a.t < |s.tasks| && s.tasks[a.t].Turn? && s.tasks[a.t].sp < |s.sps| && Watched(s, s.tasks[a.t].sp)
  {
    hide Inv, Watched, PoolInRange;
  }

  lemma BootGivesNothing(s: State, a: Action, i: nat)
    requires a.Boot?
    ensures !GivesUp(s, a, i)
  {
  }

  lemma TurnKept(s: State, a: Action, t: nat, i: nat)
    requires Inv(s) && Enabled(s, a) && Careful(s, a) && Kept(s)
    requires t < |Next(s, a).tasks| && MayBoot(Next(s, a).tasks[t], i)
    ensures Watched(Next(s, a), i)
  {
    TurnBefore(s, a, t, i);
    hide Inv, Enabled, Next, Watched, Careful, GivesUp;
    WatchedStep(s, a, i);
    TurnGivesNothing(s, a, t, i);
  }

  /** A turn that may boot did so before, or has just taken the lock. */
  lemma TurnBefore(s: State, a: Action, t: nat, i: nat)
    requires Inv(s) && Enabled(s, a) && Careful(s, a) && Kept(s)
    requires t < |Next(s, a).tasks| && MayBoot(Next(s, a).tasks[t], i)
    ensures t < |s.tasks| && i < |s.sps| && Watched(s, i)
    ensures a == Acquire(t) || MayBoot(s.tasks[t], i)
  {
    hide Inv, Enabled, Next, Pooled, Victim;
    OthersStay(s, a, t);
    if !a.Die? && t == a.t {
      TaskExists(s, a);
      TurnStep(s, a, i);
    }
    TargetInRange(s, t);
  }

  lemma TargetInRange(s: State, t: nat)
    requires Inv(s) && t < |s.tasks|
    ensures Target(s.tasks[t]).Some? ==> Target(s.tasks[t]).value < |s.sps|
  {
    assert VictimOk(s, t);
  }

  lemma OthersStay(s: State, a: Action, t: nat)
    requires Enabled(s, a)
    ensures |Next(s, a).tasks| == |s.tasks|
    ensures t < |s.tasks| && (a.Die? || t != a.t) ==> Next(s, a).tasks[t] == s.tasks[t]
  {
    hide Enabled, Next, Victim, Target;
    if a.Evict? {
      TaskExists(s, a);
      EvictView(s, a);
    } else if a.Respawn? || a.Boot? || a.StageHome? || a.FindDead? {
      ChangedTasks(s, a);
    } else {
      MovedTasks(s, a, t);
    }
  }

  lemma MovedTasks(s: State, a: Action, t: nat)
    requires Enabled(s, a) && !(a.Evict? || a.Respawn? || a.Boot? || a.StageHome? || a.FindDead?)
    ensures |Next(s, a).tasks| == |s.tasks|
    ensures t < |s.tasks| && (a.Die? || t != a.t) ==> Next(s, a).tasks[t] == s.tasks[t]
  {
    hide PoolInRange, Busy, Contended, AdmitOk, Evictable, DeadOrNone, Inside;
  }

  lemma ChangedTasks(s: State, a: Action)
    requires Enabled(s, a) && (a.Respawn? || a.Boot? || a.StageHome? || a.FindDead?)
    ensures a.t < |s.tasks| && s.tasks[a.t].Turn? && !s.tasks[a.t].stage.Yielding?
    ensures |Next(s, a).tasks| == |s.tasks| && Next(s, a).tasks[a.t].Turn? && Next(s, a).tasks[a.t].sp == s.tasks[a.t].sp
    ensures Next(s, a).tasks == s.tasks[a.t := Next(s, a).tasks[a.t]]
  {
    hide PoolInRange, Busy, DeadOrNone;
  }

  lemma TurnStep(s: State, a: Action, i: nat)
    requires Enabled(s, a) && !a.Die? && a.t < |s.tasks| == |Next(s, a).tasks| && MayBoot(Next(s, a).tasks[a.t], i)
    ensures MayBoot(s.tasks[a.t], i) || (a.Acquire? && s.tasks[a.t].TurnWait? && s.tasks[a.t].sp == i)
  {
    hide Enabled, Next;
    if a.Evict? {
      EvictTurn(s, a, i);
    } else if a.Cancel? || a.EndTurn? {
      LeavingView(s, a);
    } else if a.Drop? {
      DropView(s, a);
    } else if a.Respawn? || a.Boot? || a.StageHome? || a.FindDead? {
      ChangedTasks(s, a);
    } else {
      MovedTurn(s, a, i);
    }
  }

  lemma EvictTurn(s: State, a: Action, i: nat)
    requires Enabled(s, a) && a.Evict? && a.t < |s.tasks| == |Next(s, a).tasks| && MayBoot(Next(s, a).tasks[a.t], i)
    ensures MayBoot(s.tasks[a.t], i)
  {
    hide PoolInRange, Busy, Contended;
  }

  lemma MovedTurn(s: State, a: Action, i: nat)
    requires Enabled(s, a) && !a.Die? && a.t < |s.tasks| == |Next(s, a).tasks| && MayBoot(Next(s, a).tasks[a.t], i)
    requires !(a.Evict? || a.Cancel? || a.EndTurn? || a.Drop? || a.Respawn? || a.Boot? || a.StageHome? || a.FindDead?)
    ensures MayBoot(s.tasks[a.t], i) || (a.Acquire? && s.tasks[a.t].TurnWait? && s.tasks[a.t].sp == i)
  {
    hide PoolInRange, Busy, Contended, AdmitOk, Evictable;
  }

  lemma TurnGivesNothing(s: State, a: Action, t: nat, i: nat)
    requires Inv(s) && Enabled(s, a) && t < |s.tasks| && (a == Acquire(t) || MayBoot(s.tasks[t], i))
    requires t < |Next(s, a).tasks| && MayBoot(Next(s, a).tasks[t], i)
    ensures !GivesUp(s, a, i)
  {
    if GivesUp(s, a, i) {
      assert InsideOk(s, t) && InsideOk(s, a.t);
      if a.Drop? {
        DropView(s, a);
      } else if a.Cancel? {
        LeavingView(s, a);
      }
      hide Inv, Enabled, Next;
    }
  }

  ghost predicate AlwaysCareful(s: State, run: seq<Action>)
    requires Possible(s, run)
    decreases run
  {
    run == [] || (Careful(s, run[0]) && AlwaysCareful(Next(s, run[0]), run[1..]))
  }

  lemma {:induction false} KeptEveryRun(s: State, run: seq<Action>)
    requires Inv(s) && SizeOk(s) && Kept(s) && Possible(s, run) && AlwaysCareful(s, run)
    ensures Kept(After(s, run))
    decreases run
  {
    hide Inv, SizeOk, Kept, Careful, Enabled, Next;
    if run != [] {
      KeptStep(s, run[0]);
      NextFacts(s, run[0]);
      KeptEveryRun(Next(s, run[0]), run[1..]);
    }
  }

  /** In a run without such an action, every live subprocess is in the pool or about to be evicted. */
  lemma CarefulRunsLoseNone(cap: nat, idleTimeout: int, tasks: nat, run: seq<Action>, p: nat)
    requires Possible(Start(cap, idleTimeout, tasks), run) && AlwaysCareful(Start(cap, idleTimeout, tasks), run)
    requires Live(After(Start(cap, idleTimeout, tasks), run), p)
    ensures var s := After(Start(cap, idleTimeout, tasks), run); Watched(s, s.procs[p].sp)
  {
    hide Possible, AlwaysCareful, After, Watched;
    Starts(cap, idleTimeout, tasks);
    KeptEveryRun(Start(cap, idleTimeout, tasks), run);
  }
}
