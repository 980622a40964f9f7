/**
 When a pooled session was last active, and so which ones the idle reaper and
 the LRU admission may choose.
 */
module PoolLaws {
  import opened Options
  import opened SessionPool
  import opened PoolSafety

  /** The action admits session i for the first time, or ends a turn on it. */
  function Touched(s: State, a: Action, i: nat): Option<int> {
    match a
    case Admit(_, slug, now, _) => if slug !in s.pool && i == |s.sps| then Some(now) else None
    case Finish(t, now) => if t < |s.tasks| && s.tasks[t].Turn? && s.tasks[t].sp == i then Some(now) else None
    case _ => None
  }

  /** The last such moment in a run, if any. */
  function LastTouch(s: State, run: seq<Action>, i: nat): Option<int>
    requires Possible(s, run)
    decreases run
  {
    if run == [] then None
    else
      var later := LastTouch(Next(s, run[0]), run[1..], i);
      if later.Some? then later else Touched(s, run[0], i)
  }

  /** Only an admission or a finished turn changes when a session was last active. */
  ghost predicate TimesKept(s: State, a: Action)
    requires Enabled(s, a)
  {
    var s' := Next(s, a);
    |s'.sps| >= |s.sps|
    && (forall i: nat | i < |s.sps| ::
          s'.sps[i].slug == s.sps[i].slug
          && s'.sps[i].lastActive == if Touched(s, a, i).Some? then Touched(s, a, i).value else s.sps[i].lastActive)
    && (forall i: nat | |s.sps| <= i < |s'.sps| :: Touched(s, a, i) == Some(s'.sps[i].lastActive))
  }

  lemma AdmitTimes(s: State, a: Action)
    requires Enabled(s, a) && a.Admit?
    ensures TimesKept(s, a)
  {
    hide Contended, AdmitOk, Busy, Stale;
  }

  lemma FinishTimes(s: State, a: Action)
    requires Enabled(s, a) && a.Finish?
    ensures TimesKept(s, a)
  {
  }

  lemma EvictTimes(s: State, a: Action)
    requires Enabled(s, a) && a.Evict?
    ensures TimesKept(s, a)
  {
    hide AfterEviction, Stepped, Busy, Stale, DeadOrNone, Contended, AdmitOk;
  }

  lemma TurnTimes(s: State, a: Action)
    requires Enabled(s, a) && (a.FindAlive? || a.CannotResume? || a.Complete? || a.EndTurn? || a.Fail? || a.Drop?)
    ensures TimesKept(s, a)
  {
    hide Busy, Stale, DeadOrNone, Contended, AdmitOk;
  }

  lemma BootTimes(s: State, a: Action)
    requires Enabled(s, a) && (a.FindDead? || a.StageHome? || a.Boot? || a.Respawn?)
    ensures TimesKept(s, a)
  {
    hide Busy, Stale, DeadOrNone, Contended, AdmitOk;
  }

  lemma LockTimes(s: State, a: Action)
    requires Enabled(s, a) && (a.Acquire? || a.Cancel?)
    ensures TimesKept(s, a)
  {
    hide Busy, Stale, DeadOrNone, Contended, AdmitOk;
  }

  lemma ReapTimes(s: State, a: Action)
    requires Enabled(s, a) && (a.Sweep? || a.ReapNext? || a.Die?)
    ensures TimesKept(s, a)
  {
    hide Busy, Stale, DeadOrNone, Contended, AdmitOk;
  }

  lemma StepTimes(s: State, a: Action)
    requires Enabled(s, a)
    ensures TimesKept(s, a)
  {
    hide Enabled, TimesKept;
    match a
    case Admit(_, _, _, _) => AdmitTimes(s, a);
    case Finish(_, _) => FinishTimes(s, a);
    case Evict(_) => EvictTimes(s, a);
    case Acquire(_) => LockTimes(s, a);
    case Cancel(_) => LockTimes(s, a);
    case Sweep(_, _, _) => ReapTimes(s, a);
    case ReapNext(_) => ReapTimes(s, a);
    case Die(_) => ReapTimes(s, a);
    case FindDead(_) => BootTimes(s, a);
    case StageHome(_) => BootTimes(s, a);
    case Boot(_) => BootTimes(s, a);
    case Respawn(_) => BootTimes(s, a);
    case _ => TurnTimes(s, a);
  }

  /** In every run, a session was last active when it was admitted or when the
      last turn on it ended; nothing in between counts. */
  lemma {:induction false} LastActiveIs(s: State, run: seq<Action>, i: nat)
    requires Possible(s, run)
    ensures |After(s, run).sps| >= |s.sps|
    ensures i < |After(s, run).sps| ==>
              if LastTouch(s, run, i).Some? then After(s, run).sps[i].lastActive == LastTouch(s, run, i).value
              else i < |s.sps| && After(s, run).sps[i].lastActive == s.sps[i].lastActive
    decreases run
  {
    hide Enabled, Next, Touched;
    if run != [] {
      StepTimes(s, run[0]);
      LastActiveIs(Next(s, run[0]), run[1..], i);
    }
  }

  /** A sweep goes after exactly the pooled sessions that are idle past the
      timeout and not mid-turn. */
  lemma SweepTakes(s: State, t: nat, now: int, stale: seq<string>, slug: string)
    requires Enabled(s, Sweep(t, now, stale)) && Inv(s)
    ensures slug in stale <==>
            slug in s.pool && s.sps[s.pool[slug]].holder.None? && now - s.sps[s.pool[slug]].lastActive > s.idleTimeout
  {
    hide Inv;
  }

  /** An admission over the cap goes after the session idle longest of those not
      mid-turn, never the newcomer; and after none exactly if all are mid-turn. */
  lemma AdmissionTakes(s: State, t: nat, slug: string, now: int, victim: Option<string>)
    requires Enabled(s, Admit(t, slug, now, victim)) && Inv(s)
    ensures slug in s.pool || |s.pool| < s.cap ==> victim.None?
    ensures slug !in s.pool && |s.pool| >= s.cap && victim.None? ==> forall v | v in s.pool :: s.sps[s.pool[v]].holder.Some?
    ensures victim.Some? ==>
              victim.value in s.pool && victim.value != slug && s.sps[s.pool[victim.value]].holder.None?
              && forall v | v in s.pool && s.sps[s.pool[v]].holder.None? ::
                   s.sps[s.pool[victim.value]].lastActive <= s.sps[s.pool[v]].lastActive
  {
    hide Inv;
    RegisteredIs(s, slug, now);
    AdmitIs(s, t, slug, now, victim);
    hide Enabled, Registered, Candidate;
  }

  lemma RegisteredIs(s: State, slug: string, now: int)
    requires PoolInRange(s)
    ensures PoolInRange(Registered(s, slug, now)) && slug in Registered(s, slug, now).pool
    ensures slug !in s.pool ==> |Registered(s, slug, now).pool| == |s.pool| + 1
    ensures forall v | v in s.pool ::
              var s1 := Registered(s, slug, now);
              v in s1.pool && s1.pool[v] == s.pool[v] && s1.pool[v] < |s1.sps| && s1.sps[s1.pool[v]] == s.sps[s.pool[v]]
    ensures forall v | v in Registered(s, slug, now).pool && v != slug :: v in s.pool
  {
    var s1 := Registered(s, slug, now);
    if slug !in s.pool {
      assert s1.pool.Keys == s.pool.Keys + {slug};
    }
  }

  lemma AdmitIs(s: State, t: nat, slug: string, now: int, victim: Option<string>)
    requires Enabled(s, Admit(t, slug, now, victim)) && PoolInRange(Registered(s, slug, now))
    ensures PoolInRange(s)
    ensures slug in s.pool || |Registered(s, slug, now).pool| <= s.cap ==> victim.None?
    ensures !(slug in s.pool || |Registered(s, slug, now).pool| <= s.cap) ==> Among(Registered(s, slug, now), slug, victim)
  {
    hide Stale, DeadOrNone;
  }

  /** Longest idle of the others that are not mid-turn. */
  ghost predicate Among(s: State, slug: string, victim: Option<string>)
    requires PoolInRange(s)
  {
    (victim.None? ==> forall v | v in s.pool && v != slug :: s.sps[s.pool[v]].holder.Some?)
    && (victim.Some? ==>
          victim.value in s.pool && victim.value != slug && s.sps[s.pool[victim.value]].holder.None?
          && forall v | v in s.pool && v != slug && s.sps[s.pool[v]].holder.None? ::
               s.sps[s.pool[victim.value]].lastActive <= s.sps[s.pool[v]].lastActive)
  }
}
