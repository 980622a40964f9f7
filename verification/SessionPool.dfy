/**
 The pool of long-lived CLI subprocesses of apps/common/cli_backend.py, as a
 state machine. Tasks (turns, LRU admissions, the idle reaper) interleave at
 their awaits; a section under the dict lock awaits nothing, so it is one action.
 */
module SessionPool {
  import opened Options

  /** `_evict_locked`, between its awaits. */
  datatype Eviction = Killing | Persisting | Removing

  /** A turn, holding its session's lock. */
  datatype Stage =
    | Checking
    | Staging               // awaiting the staged HOME
    | Booting               // awaiting the subprocess
    | Driving(proc: nat)    // one message in flight
    | Recovering            // terminating a subprocess that could not resume
    | Completing            // persisting refreshed credentials
    | Evicting(step: Eviction)
    | Dropping
    | Yielding              // handing over the turn's last event

  /** `queued`: the lock was not free on arrival, so the task is suspended.
      A task that is not queued takes the lock without awaiting anything. */
  datatype Pc =
    | Idle
    | LruWait(sp: nat, victim: nat, queued: bool)
    | LruEvict(sp: nat, victim: nat, step: Eviction)
    | TurnWait(sp: nat, queued: bool)
    | Turn(sp: nat, stage: Stage)
    | Sweeping(rest: seq<string>)
    | ReapWait(victim: nat, rest: seq<string>, queued: bool)
    | ReapEvict(victim: nat, step: Eviction, rest: seq<string>)

  /** One SessionProcess. `holder` is the task that holds its lock. */
  datatype Session = Session(slug: string, proc: Option<nat>, home: Option<nat>, holder: Option<nat>, lastActive: int)

  /** A subprocess and a staged HOME, each with the session it was made for. */
  datatype Proc = Proc(sp: nat, home: nat, live: bool)
  datatype Home = Home(sp: nat, there: bool)

  /** `sps`, `procs` and `homes` list everything ever made; `pool` is
      `_sessions`; `peak` is the largest number of pooled sessions ever locked. */
  datatype State = State(cap: nat, idleTimeout: int, pool: map<string, nat>, sps: seq<Session>,
                         procs: seq<Proc>, homes: seq<Home>, tasks: seq<Pc>, peak: nat)

  function Start(cap: nat, idleTimeout: int, tasks: nat): State {
    State(cap, idleTimeout, map[], [], [], [], seq(tasks, _ => Idle), 0)
  }

  /** The session whose lock the task holds. */
  function Inside(pc: Pc): Option<nat> {
    match pc
    case LruEvict(_, victim, _) => Some(victim)
    case ReapEvict(victim, _, _) => Some(victim)
    case Turn(sp, _) => Some(sp)
    case _ => None
  }

  /** The session the task has popped in order to evict it. */
  function Victim(pc: Pc): Option<nat> {
    match pc
    case LruWait(_, victim, _) => Some(victim)
    case LruEvict(_, victim, _) => Some(victim)
    case ReapWait(victim, _, _) => Some(victim)
    case ReapEvict(victim, _, _) => Some(victim)
    case _ => None
  }

  /** The session the task wants or has a turn on. */
  function Target(pc: Pc): Option<nat> {
    match pc
    case LruWait(sp, _, _) => Some(sp)
    case LruEvict(sp, _, _) => Some(sp)
    case TurnWait(sp, _) => Some(sp)
    case Turn(sp, _) => Some(sp)
    case _ => None
  }

  /** The session whose lock the task waits for. */
  function Awaits(pc: Pc): Option<nat> {
    match pc
    case LruWait(_, victim, _) => Some(victim)
    case TurnWait(sp, _) => Some(sp)
    case ReapWait(victim, _, _) => Some(victim)
    case _ => None
  }

  /** A lock is held, or others wait for it: a newcomer is suspended. */
  predicate Contended(s: State, i: nat)
    requires i < |s.sps|
  {
    s.sps[i].holder.Some? || exists u :: 0 <= u < |s.tasks| && Awaits(s.tasks[u]) == Some(i)
  }

  ghost predicate Pooled(s: State, i: nat) {
    i < |s.sps| && s.sps[i].slug in s.pool && s.pool[s.sps[i].slug] == i
  }

  predicate Locked(s: State, slug: string) {
    slug in s.pool && s.pool[slug] < |s.sps| && s.sps[s.pool[slug]].holder.Some?
  }

  function Busy(s: State): set<string> {
    set slug | slug in s.pool && Locked(s, slug)
  }

  function Max(a: nat, b: nat): nat {
    if a < b then b else a
  }

  // ----- Actions --------------------------------------------------------------

  datatype Action =
    | Admit(t: nat, slug: string, now: int, victim: Option<string>)
    | Acquire(t: nat)                 // of the lock the task waits for
    | FindAlive(t: nat)
    | FindDead(t: nat)
    | StageHome(t: nat)
    | Boot(t: nat)
    | CannotResume(t: nat)
    | Respawn(t: nat)
    | Finish(t: nat, now: int)        // the turn's terminal event
    | Complete(t: nat)
    | EndTurn(t: nat)
    | Fail(t: nat)                    // an error, or the consumer's cancellation
    | Evict(t: nat)                   // the next step of `_evict_locked`
    | Drop(t: nat)
    | Cancel(t: nat)                  // while suspended at a lock, or inside the eviction body
    | Sweep(t: nat, now: int, stale: seq<string>)
    | ReapNext(t: nat)
    | Die(p: nat)                     // a subprocess exits by itself

  /** `_lru_evict_candidate`: of the other unlocked sessions, one longest inactive. */
  ghost predicate Candidate(s: State, incoming: string, victim: Option<string>)
    requires PoolInRange(s)
  {
    match victim
    case None => forall slug | slug in s.pool && slug != incoming :: Locked(s, slug)
    case Some(v) =>
      v in s.pool && v != incoming && !Locked(s, v)
      && forall slug | slug in s.pool && slug != incoming && !Locked(s, slug) ::
           s.sps[s.pool[v]].lastActive <= s.sps[s.pool[slug]].lastActive
  }

  /** The search itself, over the keys of `_sessions` in their order. */
  method LruCandidate(s: State, slugs: seq<string>, incoming: string) returns (victim: Option<string>)
    requires PoolInRange(s) && (forall slug :: slug in slugs <==> slug in s.pool)
    ensures Candidate(s, incoming, victim)
  {
    victim := None;
    for k := 0 to |slugs|
      invariant forall j | 0 <= j < |slugs| :: slugs[j] in s.pool
      invariant victim.None? ==> forall j | 0 <= j < k && slugs[j] != incoming :: Locked(s, slugs[j])
      invariant victim.Some? ==> victim.value in s.pool && victim.value != incoming && !Locked(s, victim.value)
      invariant victim.Some? ==> forall j | 0 <= j < k && slugs[j] != incoming && !Locked(s, slugs[j]) ::
                                   s.sps[s.pool[victim.value]].lastActive <= s.sps[s.pool[slugs[j]]].lastActive
    {
      var slug := slugs[k];
      assert slug in slugs;
      if slug != incoming && !Locked(s, slug)
         && (victim.None? || s.sps[s.pool[slug]].lastActive < s.sps[s.pool[victim.value]].lastActive) {
        victim := Some(slug);
      }
    }
  }

  /** `_evictable_slugs`: idle past the timeout and not mid-turn. */
  ghost predicate Evictable(s: State, now: int, slug: string) {
    slug in s.pool && s.pool[slug] < |s.sps|
    && now - s.sps[s.pool[slug]].lastActive > s.idleTimeout && !Locked(s, slug)
  }

  /** All of them, each once. */
  ghost predicate Stale(s: State, now: int, stale: seq<string>) {
    (forall slug :: slug in stale <==> Evictable(s, now, slug)) && forall j, k | 0 <= j < k < |stale| :: stale[j] != stale[k]
  }

  /** The dict-lock section of `_get_or_create_session_process`, before the LRU pop. */
  function Registered(s: State, slug: string, now: int): State {
    if slug in s.pool then s
    else s.(pool := s.pool[slug := |s.sps|], sps := s.sps + [Session(slug, None, None, None, now)])
  }

  ghost predicate PoolInRange(s: State) {
    forall slug | slug in s.pool :: s.pool[slug] < |s.sps|
  }

  /** Whether the LRU pop happens, and of whom. */
  ghost predicate AdmitOk(s: State, slug: string, now: int, victim: Option<string>)
    requires PoolInRange(s)
  {
    var s1 := Registered(s, slug, now);
    if slug in s.pool || |s1.pool| <= s.cap then victim.None? else Candidate(s1, slug, victim)
  }

  predicate DeadOrNone(s: State, i: nat)
    requires i < |s.sps|
  {
    match s.sps[i].proc
    case None => true
    case Some(p) => p < |s.procs| && !s.procs[p].live
  }

  function StageOf(s: State, t: nat): Option<Stage> {
    if t < |s.tasks| && s.tasks[t].Turn? then Some(s.tasks[t].stage) else None
  }

  ghost predicate Enabled(s: State, a: Action) {
    PoolInRange(s)
    && (a.Die? || a.t < |s.tasks|)
    && match a
       case Admit(t, slug, now, victim) => s.tasks[t].Idle? && AdmitOk(s, slug, now, victim)
       case Acquire(t) =>
         var pc := s.tasks[t];
         Awaits(pc).Some? && Awaits(pc).value < |s.sps| && s.sps[Awaits(pc).value].holder.None?
       case FindAlive(t) =>
         StageOf(s, t) == Some(Checking) && s.tasks[t].sp < |s.sps| && s.sps[s.tasks[t].sp].proc.Some?
       case FindDead(t) =>
         StageOf(s, t) == Some(Checking) && s.tasks[t].sp < |s.sps| && DeadOrNone(s, s.tasks[t].sp)
       case StageHome(t) => StageOf(s, t) == Some(Staging) && s.tasks[t].sp < |s.sps|
       case Boot(t) => StageOf(s, t) == Some(Booting) && s.tasks[t].sp < |s.sps| && s.sps[s.tasks[t].sp].home.Some?
       case CannotResume(t) => StageOf(s, t).Some? && StageOf(s, t).value.Driving?
       case Respawn(t) => StageOf(s, t) == Some(Recovering) && s.tasks[t].sp < |s.sps|
       case Finish(t, now) => StageOf(s, t).Some? && StageOf(s, t).value.Driving? && s.tasks[t].sp < |s.sps|
       case Complete(t) => StageOf(s, t) == Some(Completing)
       case EndTurn(t) => StageOf(s, t) == Some(Yielding) && s.tasks[t].sp < |s.sps|
       case Fail(t) =>
         StageOf(s, t).Some?
         && var st := StageOf(s, t).value; st.Staging? || st.Booting? || st.Driving? || st.Recovering? || st.Completing?
       case Evict(t) =>
         Inside(s.tasks[t]).Some? && Inside(s.tasks[t]).value < |s.sps|
         && (s.tasks[t].Turn? ==> s.tasks[t].stage.Evicting?)
       case Drop(t) => StageOf(s, t) == Some(Dropping) && s.tasks[t].sp < |s.sps|
       case Cancel(t) =>
         var pc := s.tasks[t];
         (Inside(pc).Some? ==> Inside(pc).value < |s.sps|)
         && ((Awaits(pc).Some? && pc.queued)
             || (pc.LruEvict? && pc.step == Persisting) || (pc.ReapEvict? && pc.step == Persisting)
             || (pc.Turn? && (pc.stage == Evicting(Persisting) || pc.stage == Dropping)))
       case Sweep(t, now, stale) =>
         s.tasks[t].Idle? && Stale(s, now, stale)
       case ReapNext(t) => s.tasks[t].Sweeping?
       case Die(p) => p < |s.procs| && s.procs[p].live
  }

  // ----- Their effects --------------------------------------------------------------

  function Goto(s: State, t: nat, pc: Pc): State
    requires t < |s.tasks|
  {
    s.(tasks := s.tasks[t := pc])
  }

  function WithSp(s: State, i: nat, sp: Session): State
    requires i < |s.sps|
  {
    s.(sps := s.sps[i := sp])
  }

  function Killed(s: State, proc: Option<nat>): State {
    if proc.Some? && proc.value < |s.procs|
    then s.(procs := s.procs[proc.value := s.procs[proc.value].(live := false)])
    else s
  }

  function Removed(s: State, home: Option<nat>): State {
    if home.Some? && home.value < |s.homes|
    then s.(homes := s.homes[home.value := s.homes[home.value].(there := false)])
    else s
  }

  function Terminated(s: State, i: nat): State
    requires i < |s.sps|
  {
    WithSp(Killed(s, s.sps[i].proc), i, s.sps[i].(proc := None))
  }

  function TornDown(s: State, i: nat): State
    requires i < |s.sps|
  {
    WithSp(Removed(s, s.sps[i].home), i, s.sps[i].(home := None))
  }

  function Released(s: State, i: nat): State
    requires i < |s.sps|
  {
    WithSp(s, i, s.sps[i].(holder := None))
  }

  function Staged(s: State, i: nat): State
    requires i < |s.sps|
  {
    WithSp(s, i, s.sps[i].(home := Some(|s.homes|))).(homes := s.homes + [Home(i, true)])
  }

  function Booted(s: State, i: nat): State
    requires i < |s.sps| && s.sps[i].home.Some?
  {
    WithSp(s, i, s.sps[i].(proc := Some(|s.procs|))).(procs := s.procs + [Proc(i, s.sps[i].home.value, true)])
  }

  function Stepped(pc: Pc, step: Eviction): Pc
    requires Inside(pc).Some?
  {
    match pc
    case LruEvict(sp, victim, _) => LruEvict(sp, victim, step)
    case ReapEvict(victim, _, rest) => ReapEvict(victim, step, rest)
    case Turn(sp, _) => Turn(sp, Evicting(step))
  }

  /** Where a task is when its eviction is over. */
  function AfterEviction(s: State, pc: Pc): Pc {
    match pc
    case LruEvict(sp, _, _) => TurnWait(sp, sp < |s.sps| && Contended(s, sp))
    case ReapEvict(_, _, rest) => Sweeping(rest)
    case Turn(sp, _) => Turn(sp, Dropping)
    case _ => pc
  }

  function EvictNext(s: State, t: nat): State
    requires t < |s.tasks| && Inside(s.tasks[t]).Some? && Inside(s.tasks[t]).value < |s.sps|
    requires s.tasks[t].Turn? ==> s.tasks[t].stage.Evicting?
  {
    var pc := s.tasks[t];
    var i := Inside(pc).value;
    var step := if pc.Turn? then pc.stage.step else pc.step;
    match step
    case Killing => Goto(Terminated(s, i), t, Stepped(pc, Persisting))
    case Persisting => Goto(s, t, Stepped(pc, Removing))
    case Removing =>
      var s1 := TornDown(s, i);
      var s2 := if pc.Turn? then s1 else Released(s1, i);
      Goto(s2, t, AfterEviction(s2, pc))
  }

  function Admitted(s: State, t: nat, slug: string, now: int, victim: Option<string>): State
    requires t < |s.tasks| && PoolInRange(s)
    requires victim.Some? ==> victim.value in Registered(s, slug, now).pool
  {
    var s1 := Registered(s, slug, now);
    var i := s1.pool[slug];
    match victim
    case None => Goto(s1, t, TurnWait(i, i < |s1.sps| && Contended(s1, i)))
    case Some(v) =>
      var j := s1.pool[v];
      Goto(s1.(pool := s1.pool - {v}), t, LruWait(i, j, j < |s1.sps| && Contended(s1, j)))
  }

  function Acquired(s: State, t: nat): State
    requires t < |s.tasks|
    requires Awaits(s.tasks[t]).Some? && Awaits(s.tasks[t]).value < |s.sps|
  {
    match s.tasks[t]
    case LruWait(i, v, _) => Goto(WithSp(s, v, s.sps[v].(holder := Some(t))), t, LruEvict(i, v, Killing))
    case ReapWait(v, rest, _) => Goto(WithSp(s, v, s.sps[v].(holder := Some(t))), t, ReapEvict(v, Killing, rest))
    case TurnWait(i, _) => Goto(WithSp(s, i, s.sps[i].(holder := Some(t))), t, Turn(i, Checking))
  }

  function Popped(s: State, t: nat): State
    requires t < |s.tasks| && s.tasks[t].Sweeping?
  {
    var rest := s.tasks[t].rest;
    if rest == [] then Goto(s, t, Idle)
    else if rest[0] in s.pool then
      var j := s.pool[rest[0]];
      Goto(s.(pool := s.pool - {rest[0]}), t, ReapWait(j, rest[1..], j < |s.sps| && Contended(s, j)))
    else Goto(s, t, Sweeping(rest[1..]))
  }

  function Effect(s: State, a: Action): State
    requires Enabled(s, a)
  {
    match a
    case Admit(t, slug, now, victim) => Admitted(s, t, slug, now, victim)
    case Acquire(t) => Acquired(s, t)
    case FindAlive(t) => Goto(s, t, Turn(s.tasks[t].sp, Driving(s.sps[s.tasks[t].sp].proc.value)))
    case FindDead(t) => Goto(TornDown(s, s.tasks[t].sp), t, Turn(s.tasks[t].sp, Staging))
    case StageHome(t) => Goto(Staged(s, s.tasks[t].sp), t, Turn(s.tasks[t].sp, Booting))
    case Boot(t) => Goto(Booted(s, s.tasks[t].sp), t, Turn(s.tasks[t].sp, Driving(|s.procs|)))
    case CannotResume(t) => Goto(s, t, Turn(s.tasks[t].sp, Recovering))
    case Respawn(t) => Goto(TornDown(Terminated(s, s.tasks[t].sp), s.tasks[t].sp), t, Turn(s.tasks[t].sp, Staging))
    case Finish(t, now) =>
      var i := s.tasks[t].sp;
      Goto(WithSp(s, i, s.sps[i].(lastActive := now)), t, Turn(i, Completing))
    case Complete(t) => Goto(s, t, Turn(s.tasks[t].sp, Yielding))
    case EndTurn(t) => Goto(Released(s, s.tasks[t].sp), t, Idle)
    case Fail(t) => Goto(s, t, Turn(s.tasks[t].sp, Evicting(Killing)))
    case Evict(t) => EvictNext(s, t)
    case Drop(t) =>
      var i := s.tasks[t].sp;
      Goto(s.(pool := s.pool - {s.sps[i].slug}), t, Turn(i, Yielding))
    case Cancel(t) =>
      var pc := s.tasks[t];
      Goto(if Inside(pc).Some? then Released(s, Inside(pc).value) else s, t, Idle)
    case Sweep(t, _, stale) => Goto(s, t, Sweeping(stale))
    case ReapNext(t) => Popped(s, t)
    case Die(p) => Killed(s, Some(p))
  }

  /** One action; `peak` remembers the most sessions ever locked at once. */
  function Next(s: State, a: Action): State
    requires Enabled(s, a)
  {
    var s1 := Effect(s, a);
    s1.(peak := Max(s1.peak, |Busy(s1)|))
  }

  ghost predicate Possible(s: State, run: seq<Action>)
    decreases run
  {
    run == [] || (Enabled(s, run[0]) && Possible(Next(s, run[0]), run[1..]))
  }

  function After(s: State, run: seq<Action>): State
    requires Possible(s, run)
    decreases run
  {
    if run == [] then s else After(Next(s, run[0]), run[1..])
  }
}
