/**
 The cross-process refresh lock of apps/common/nova_auth_flow.py: any number of
 calls share one stored blob, whose refresh token is single-use and rotates
 (section 6 of RFC 6749), and one Redis key claimed with SET NX EX.
 */
module NovaRefresh {
  import opened Options

  const BUFFER := 300
  const LOCK_TTL := 30
  const WAIT_TIMEOUT := 5

  /** The stored credentials. Refresh tokens are numbered in the order the server issued them. */
  datatype Blob = Blob(refresh: Option<nat>, expiresAt: int)

  /** The token endpoint's answer; it may keep the refresh token, and leave `expires_in` out. */
  datatype Answer = Answer(rotates: bool, expiresIn: Option<nat>)

  /** The Redis key: its value, and when Redis drops it. */
  datatype Lock = Lock(token: nat, expires: int)

  datatype Stage =
    | Rereading
    | Posting(blob: Blob)
    | Storing(refresh: nat, expiresIn: Option<nat>)
    | Releasing

  /** One call of `get_fresh_token`, between its reads and writes. `token` is its lock token. */
  datatype Pc =
    | Idle
    | Waiting(token: nat, deadline: int)
    | Trying(token: nat, deadline: int)
    | Inside(token: nat, until: int, stage: Stage)

  /** `current` is the refresh token the server accepts; `stale` records that
      some call presented another one. */
  datatype State = State(now: int, lock: Option<Lock>, blob: Option<Blob>, current: nat, issued: nat,
                         calls: nat, stale: bool, tasks: seq<Pc>)

  datatype Action =
    | Look(t: nat)                    // the first read of the blob
    | Poll(t: nat)                    // the read at the top of the loop
    | GiveUp(t: nat)
    | TrySet(t: nat)                  // SET NX EX
    | Reread(t: nat)
    | Post(t: nat, answer: Answer)    // the server handles the request
    | Refuse(t: nat)                  // no refresh token, no client, or an HTTP error
    | Store(t: nat)
    | Release(t: nat)                 // compare-and-delete
    | Crash(t: nat)
    | Tick(d: nat)

  predicate Fresh(blob: Blob, now: int) {
    now < blob.expiresAt - BUFFER
  }

  /** Whether a call would refresh what it reads. */
  predicate Needs(blob: Option<Blob>, now: int) {
    blob.Some? && !Fresh(blob.value, now)
  }

  predicate Expired(lock: Option<Lock>, now: int) {
    lock.None? || lock.value.expires <= now
  }

  predicate AtStage(s: State, t: nat) {
    t < |s.tasks| && s.tasks[t].Inside?
  }

  predicate Enabled(s: State, a: Action) {
    match a
    case Look(t) => t < |s.tasks| && s.tasks[t].Idle?
    case Poll(t) => t < |s.tasks| && s.tasks[t].Waiting? && s.now < s.tasks[t].deadline
    case GiveUp(t) => t < |s.tasks| && s.tasks[t].Waiting? && s.now >= s.tasks[t].deadline
    case TrySet(t) => t < |s.tasks| && s.tasks[t].Trying?
    case Reread(t) => AtStage(s, t) && s.tasks[t].stage.Rereading?
    case Post(t, _) => AtStage(s, t) && s.tasks[t].stage.Posting? && s.tasks[t].stage.blob.refresh.Some?
    case Refuse(t) => AtStage(s, t) && s.tasks[t].stage.Posting?
    case Store(t) => AtStage(s, t) && s.tasks[t].stage.Storing?
    case Release(t) => AtStage(s, t) && s.tasks[t].stage.Releasing?
    case Crash(t) => t < |s.tasks| && (AtStage(s, t) ==> !s.tasks[t].stage.Storing?)
    case Tick(_) => true
  }

  function Goto(s: State, t: nat, pc: Pc): State
    requires t < |s.tasks|
  {
    s.(tasks := s.tasks[t := pc])
  }

  function At(pc: Pc, stage: Stage): Pc
    requires pc.Inside?
  {
    pc.(stage := stage)
  }

  /** SET NX EX: claims the key when it is absent or has expired. */
  function Claimed(s: State, t: nat): State
    requires t < |s.tasks| && s.tasks[t].Trying?
  {
    var pc := s.tasks[t];
    if Expired(s.lock, s.now)
    then Goto(s.(lock := Some(Lock(pc.token, s.now + LOCK_TTL))), t, Inside(pc.token, s.now + LOCK_TTL, Rereading))
    else Goto(s, t, Waiting(pc.token, pc.deadline))
  }

  /** The server accepts its current token only; accepting may rotate it. */
  function Answered(s: State, t: nat, answer: Answer): State
    requires AtStage(s, t) && s.tasks[t].stage.Posting? && s.tasks[t].stage.blob.refresh.Some?
  {
    var pc := s.tasks[t];
    var presented := pc.stage.blob.refresh.value;
    if presented != s.current then Goto(s.(stale := true), t, At(pc, Releasing))
    else if answer.rotates
    then Goto(s.(current := s.issued, issued := s.issued + 1), t, At(pc, Storing(s.issued, answer.expiresIn)))
    else Goto(s, t, At(pc, Storing(presented, answer.expiresIn)))
  }

  /** The Lua script: delete the key if it still holds this call's token. */
  function Deleted(lock: Option<Lock>, token: nat, now: int): Option<Lock> {
    if !Expired(lock, now) && lock.value.token == token then None else lock
  }

  function Next(s: State, a: Action): State
    requires Enabled(s, a)
  {
    match a
    case Look(t) =>
      if Needs(s.blob, s.now) then Goto(s.(calls := s.calls + 1), t, Waiting(s.calls, s.now + WAIT_TIMEOUT)) else s
    case Poll(t) =>
      Goto(s, t, if Needs(s.blob, s.now) then Trying(s.tasks[t].token, s.tasks[t].deadline) else Idle)
    case GiveUp(t) => Goto(s, t, Idle)
    case TrySet(t) => Claimed(s, t)
    case Reread(t) => Goto(s, t, At(s.tasks[t], if Needs(s.blob, s.now) then Posting(s.blob.value) else Releasing))
    case Post(t, answer) => Answered(s, t, answer)
    case Refuse(t) => Goto(s, t, At(s.tasks[t], Releasing))
    case Store(t) =>
      var st := s.tasks[t].stage;
      Goto(s.(blob := Some(Blob(Some(st.refresh), if st.expiresIn.Some? then s.now + st.expiresIn.value else 0))),
           t, At(s.tasks[t], Releasing))
    case Release(t) => Goto(s.(lock := Deleted(s.lock, s.tasks[t].token, s.now)), t, Idle)
    case Crash(t) => Goto(s, t, Idle)
    case Tick(d) => s.(now := s.now + d)
  }

  predicate Possible(s: State, run: seq<Action>)
    decreases run
  {
    run == [] || (Enabled(s, run[0]) && Possible(Next(s, run[0]), run[1..]))
  }

  function After(s: State, run: seq<Action>): State
    requires Possible(s, run)
    decreases run
  {
    if run == [] then s else After(Next(s, run[0]), run[1..])
  }

  /** Some calls, and a blob the server's current token was stored with. */
  function Start(now: int, tasks: nat, expiresAt: int): State {
    State(now, None, Some(Blob(Some(0), expiresAt)), 0, 1, 0, false, seq(tasks, _ => Idle))
  }

  // ----- Safety under the lock's time to live -----------------------------------------

  /** Every call inside the lock is still within its time to live. */
  predicate OnTime(s: State) {
    forall t | 0 <= t < |s.tasks| && s.tasks[t].Inside? :: s.now < s.tasks[t].until
  }

  predicate AlwaysOnTime(s: State, run: seq<Action>)
    requires Possible(s, run)
    decreases run
  {
    OnTime(s) && (run != [] ==> AlwaysOnTime(Next(s, run[0]), run[1..]))
  }

  /** No two calls share a lock token. */
  predicate TokensOk(s: State) {
    (forall t | 0 <= t < |s.tasks| && !s.tasks[t].Idle? :: s.tasks[t].token < s.calls)
    && (forall t, u | 0 <= t < u < |s.tasks| && !s.tasks[t].Idle? && !s.tasks[u].Idle? :: s.tasks[t].token != s.tasks[u].token)
  }

  /** A call inside the lock holds the key. */
  predicate HeldOk(s: State) {
    forall t | 0 <= t < |s.tasks| && s.tasks[t].Inside? :: s.lock == Some(Lock(s.tasks[t].token, s.tasks[t].until))
  }

  /** What a call inside the lock knows of the stored blob and the server. */
  predicate StageOk(s: State, t: nat)
    requires t < |s.tasks|
  {
    s.tasks[t].Inside? ==>
      match s.tasks[t].stage
      case Posting(blob) => s.blob == Some(blob)
      case Storing(refresh, _) => refresh == s.current
      case _ => true
  }

  predicate SomeoneStores(s: State) {
    exists t :: 0 <= t < |s.tasks| && s.tasks[t].Inside? && s.tasks[t].stage.Storing?
  }

  /** Unless its successor is about to be stored, the stored token is the server's. */
  predicate StoredOk(s: State) {
    s.current < s.issued && (s.blob.Some? && s.blob.value.refresh.Some? && !SomeoneStores(s) ==> s.blob.value.refresh.value == s.current)
  }

  predicate Inv(s: State) {
    TokensOk(s) && HeldOk(s) && (forall t: nat | t < |s.tasks| :: StageOk(s, t)) && StoredOk(s) && !s.stale
  }

  /** The lock excludes. */
  lemma OneInside(s: State, t: nat, u: nat)
    requires Inv(s) && t < |s.tasks| && u < |s.tasks| && s.tasks[t].Inside? && s.tasks[u].Inside?
    ensures t == u
  {
    assert s.lock == Some(Lock(s.tasks[t].token, s.tasks[t].until));
    assert s.lock == Some(Lock(s.tasks[u].token, s.tasks[u].until));
  }

  /** The steps outside the lock, and claiming it. */
  lemma OutsideKeeps(s: State, a: Action)
    requires Inv(s) && OnTime(s) && Enabled(s, a)
    requires a.Look? || a.Poll? || a.GiveUp? || a.TrySet? || a.Tick?
    ensures Inv(Next(s, a))
  {
    var s' := Next(s, a);
    assert TokensOk(s') && HeldOk(s');
    forall t: nat | t < |s'.tasks| ensures StageOk(s', t) {
      assert StageOk(s, t);
    }
    assert forall t | 0 <= t < |s.tasks| && s.tasks[t].Inside? && s.tasks[t].stage.Storing? :: s'.tasks[t] == s.tasks[t];
  }

  /** The steps of the one call inside. */
  lemma InsideKeeps(s: State, a: Action)
    requires Inv(s) && Enabled(s, a)
    requires a.Reread? || a.Post? || a.Refuse? || a.Store? || a.Release? || a.Crash?
    ensures Inv(Next(s, a))
  {
    var s' := Next(s, a);
    if a.Post? {
      PostIsCurrent(s, a.t);
    }
    forall u | 0 <= u < |s.tasks| && s.tasks[u].Inside? && s.tasks[a.t].Inside? ensures u == a.t {
      OneInside(s, u, a.t);
    }
    TasksAfter(s, a);
    assert TokensOk(s') && HeldOk(s');
    forall t: nat | t < |s'.tasks| ensures StageOk(s', t) {
      assert StageOk(s, t);
    }
    StoredAfter(s, a);
  }

  lemma TasksAfter(s: State, a: Action)
    requires Enabled(s, a) && (a.Reread? || a.Post? || a.Refuse? || a.Store? || a.Release? || a.Crash?)
    ensures var s' := Next(s, a);
            |s'.tasks| == |s.tasks| && s'.calls == s.calls && (forall u | 0 <= u < |s.tasks| && u != a.t :: s'.tasks[u] == s.tasks[u])
    ensures !Next(s, a).tasks[a.t].Idle? ==>
              var pc, pc' := s.tasks[a.t], Next(s, a).tasks[a.t];
              pc.Inside? && pc'.Inside? && pc'.token == pc.token && pc'.until == pc.until
  {
  }

  lemma StoredAfter(s: State, a: Action)
    requires Inv(s) && Enabled(s, a)
    requires a.Reread? || a.Post? || a.Refuse? || a.Store? || a.Release? || a.Crash?
    requires forall u | 0 <= u < |s.tasks| && s.tasks[u].Inside? && s.tasks[a.t].Inside? :: u == a.t
    ensures StoredOk(Next(s, a))
  {
    var s' := Next(s, a);
    TasksAfter(s, a);
    assert StageOk(s, a.t);
    hide TokensOk, HeldOk, StageOk, Needs, Deleted;
    if a.Post? && s'.tasks[a.t].stage.Storing? {
      assert SomeoneStores(s');
    }
  }

  /** What a call presents is the server's current token. */
  lemma PostIsCurrent(s: State, t: nat)
    requires Inv(s) && AtStage(s, t) && s.tasks[t].stage.Posting? && s.tasks[t].stage.blob.refresh.Some?
    ensures s.tasks[t].stage.blob.refresh.value == s.current
  {
    assert StageOk(s, t);
    if SomeoneStores(s) {
      var u :| 0 <= u < |s.tasks| && s.tasks[u].Inside? && s.tasks[u].stage.Storing?;
      OneInside(s, t, u);
    }
  }

  lemma {:induction false} EveryRun(s: State, run: seq<Action>)
    requires Inv(s) && Possible(s, run) && AlwaysOnTime(s, run)
    ensures Inv(After(s, run))
    decreases run
  {
    hide Inv, OnTime, Enabled, Next;
    if run != [] {
      var a := run[0];
      if a.Look? || a.Poll? || a.GiveUp? || a.TrySet? || a.Tick? {
        OutsideKeeps(s, a);
      } else {
        InsideKeeps(s, a);
      }
      EveryRun(Next(s, a), run[1..]);
    }
  }

  /** If every call inside the lock finishes within its time to live, no call
      ever presents a refresh token the server has rotated out. */
  lemma NoTokenReused(now: int, tasks: nat, expiresAt: int, run: seq<Action>)
    requires Possible(Start(now, tasks, expiresAt), run) && AlwaysOnTime(Start(now, tasks, expiresAt), run)
    ensures !After(Start(now, tasks, expiresAt), run).stale
    ensures forall t, u :: 0 <= t < u < |After(Start(now, tasks, expiresAt), run).tasks| ==>
              !(After(Start(now, tasks, expiresAt), run).tasks[t].Inside? && After(Start(now, tasks, expiresAt), run).tasks[u].Inside?)
  {
    hide Possible, AlwaysOnTime, After;
    var s := Start(now, tasks, expiresAt);
    assert Inv(s);
    EveryRun(s, run);
    var s' := After(s, run);
    forall t, u | 0 <= t < u < |s'.tasks| ensures !(s'.tasks[t].Inside? && s'.tasks[u].Inside?) {
      if s'.tasks[t].Inside? && s'.tasks[u].Inside? {
        OneInside(s', t, u);
      }
    }
  }

  // ----- Only a token about to expire is refreshed ---------------------------------------

  /** What a call inside the lock is about to refresh expires within five minutes. */
  predicate PostsStale(s: State) {
    forall t | 0 <= t < |s.tasks| && s.tasks[t].Inside? && s.tasks[t].stage.Posting? ::
      s.now >= s.tasks[t].stage.blob.expiresAt - 300
  }

  lemma PostsStaleStep(s: State, a: Action)
    requires PostsStale(s) && Enabled(s, a)
    ensures PostsStale(Next(s, a))
  {
    hide Deleted, Expired;
  }

  lemma {:induction false} PostsStaleEveryRun(s: State, run: seq<Action>)
    requires PostsStale(s) && Possible(s, run)
    ensures PostsStale(After(s, run))
    decreases run
  {
    hide PostsStale, Enabled, Next;
    if run != [] {
      PostsStaleStep(s, run[0]);
      PostsStaleEveryRun(Next(s, run[0]), run[1..]);
    }
  }

  /** In every run, whatever the timing, a call posts only when the token it
      read inside the lock had less than five minutes to live. */
  lemma FreshIsNeverPosted(now: int, tasks: nat, expiresAt: int, run: seq<Action>, t: nat, answer: Answer)
    requires Possible(Start(now, tasks, expiresAt), run)
    requires Enabled(After(Start(now, tasks, expiresAt), run), Post(t, answer))
    ensures var s := After(Start(now, tasks, expiresAt), run);
            s.now >= s.tasks[t].stage.blob.expiresAt - 300
  {
    hide Possible, After;
    PostsStaleEveryRun(Start(now, tasks, expiresAt), run);
  }

  /** A call that finds a fresh token on rereading leaves without a request;
      one that finds none but a stale one goes on to post just that one. */
  lemma RereadDecides(s: State, t: nat)
    requires Enabled(s, Reread(t))
    ensures var pc, s' := s.tasks[t], Next(s, Reread(t));
            s'.blob == s.blob && s'.current == s.current
            && (s.blob.None? || s.now + 300 < s.blob.value.expiresAt ==> s'.tasks[t] == Inside(pc.token, pc.until, Releasing))
            && (s.blob.Some? && s.now + 300 >= s.blob.value.expiresAt ==> s'.tasks[t] == Inside(pc.token, pc.until, Posting(s.blob.value)))
  {
  }

  /** A call waits for the lock, five seconds at most, only if the token it read
      first needs a refresh; it gets the lock, for thirty seconds, exactly when
      nobody holds an unexpired one. */
  lemma LockDecides(s: State, t: nat)
    ensures Enabled(s, Look(t)) ==>
              var s' := Next(s, Look(t));
              if s.blob.Some? && s.now + 300 >= s.blob.value.expiresAt then s'.tasks[t] == Waiting(s.calls, s.now + 5)
              else s' == s
    ensures Enabled(s, TrySet(t)) ==>
              var s' := Next(s, TrySet(t));
              if s.lock.Some? && s.now < s.lock.value.expires then s'.lock == s.lock && s'.tasks[t].Waiting?
              else s'.lock == Some(Lock(s.tasks[t].token, s.now + 30)) && s'.tasks[t].Inside? && s'.tasks[t].stage.Rereading?
  {
  }

  /** While it waits, a call looks again and leaves if another one has refreshed;
      what the server answers is stored with the time it answers, and only that. */
  lemma AnswerIsStored(s: State, t: nat, answer: Answer)
    ensures Enabled(s, Poll(t)) ==>
              Next(s, Poll(t)).tasks[t] == if s.blob.Some? && s.now + 300 >= s.blob.value.expiresAt
                                           then Trying(s.tasks[t].token, s.tasks[t].deadline) else Idle
    ensures Enabled(s, Post(t, answer)) && s.tasks[t].stage.blob.refresh == Some(s.current) ==>
              var s1 := Next(s, Post(t, answer));
              s1.current == (if answer.rotates then s.issued else s.current) && s1.blob == s.blob && Enabled(s1, Store(t))
              && Next(s1, Store(t)).blob == Some(Blob(Some(s1.current), match answer.expiresIn { case Some(d) => s.now + d case None => 0 }))
    ensures Enabled(s, Post(t, answer)) && s.tasks[t].stage.blob.refresh != Some(s.current) ==>
              Next(s, Post(t, answer)).stale && Next(s, Post(t, answer)).blob == s.blob && !Enabled(Next(s, Post(t, answer)), Store(t))
  {
  }

  // ----- Without any timing assumption --------------------------------------------------

  lemma TokensStep(s: State, a: Action)
    requires TokensOk(s) && Enabled(s, a)
    ensures TokensOk(Next(s, a))
  {
    hide Needs, Deleted, Expired;
  }

  lemma {:induction false} TokensEveryRun(s: State, run: seq<Action>)
    requires TokensOk(s) && Possible(s, run)
    ensures TokensOk(After(s, run))
    decreases run
  {
    hide TokensOk, Enabled, Next;
    if run != [] {
      TokensStep(s, run[0]);
      TokensEveryRun(Next(s, run[0]), run[1..]);
    }
  }

  /** However late a call wakes up, its release leaves a lock that another call holds. */
  lemma ReleaseSparesOthers(now: int, tasks: nat, expiresAt: int, run: seq<Action>, t: nat, u: nat)
    requires Possible(Start(now, tasks, expiresAt), run)
    requires var s := After(Start(now, tasks, expiresAt), run);
             Enabled(s, Release(t)) && u < |s.tasks| && u != t && s.tasks[u].Inside?
             && s.lock.Some? && s.lock.value.token == s.tasks[u].token
    ensures var s := After(Start(now, tasks, expiresAt), run);
            Next(s, Release(t)).lock == s.lock
  {
    hide Possible, After;
    var s := Start(now, tasks, expiresAt);
    assert TokensOk(s);
    TokensEveryRun(s, run);
    var s' := After(s, run);
    assert s'.tasks[t].token != s'.tasks[u].token;
  }

  // ----- Why the premise is needed --------------------------------------------------------

  /** Call 0 claims the lock and reads; its lock expires before it posts; call 1
      claims it and reads the same token; both post. */
  function Overrun(): seq<Action> {
    [Look(0), Poll(0), TrySet(0), Reread(0), Tick(LOCK_TTL), Look(1), Poll(1), TrySet(1), Reread(1),
     Post(0, Answer(true, Some(3600))), Post(1, Answer(true, Some(3600)))]
  }

  function OverrunState(n: nat): State
    requires n <= 11
  {
    var s := Start(0, 2, 0);
    var mine, yours := Lock(0, 30), Lock(1, 60);
    var read := Blob(Some(0), 0);
    var first := Inside(0, 30, Posting(read));
    var both := s.(now := 30, lock := Some(yours), calls := 2);
    match n
    case 0 => s
    case 1 => s.(calls := 1, tasks := [Waiting(0, 5), Idle])
    case 2 => s.(calls := 1, tasks := [Trying(0, 5), Idle])
    case 3 => s.(calls := 1, lock := Some(mine), tasks := [Inside(0, 30, Rereading), Idle])
    case 4 => s.(calls := 1, lock := Some(mine), tasks := [first, Idle])
    case 5 => s.(calls := 1, lock := Some(mine), now := 30, tasks := [first, Idle])
    case 6 => s.(calls := 2, lock := Some(mine), now := 30, tasks := [first, Waiting(1, 35)])
    case 7 => s.(calls := 2, lock := Some(mine), now := 30, tasks := [first, Trying(1, 35)])
    case 8 => both.(tasks := [first, Inside(1, 60, Rereading)])
    case 9 => both.(tasks := [first, Inside(1, 60, Posting(read))])
    case 10 => both.(current := 1, issued := 2,
                     tasks := [Inside(0, 30, Storing(1, Some(3600))), Inside(1, 60, Posting(read))])
    case 11 => both.(current := 1, issued := 2, stale := true,
                     tasks := [Inside(0, 30, Storing(1, Some(3600))), Inside(1, 60, Releasing)])
  }

  lemma OverrunClaims(n: nat)
    requires n < 5
    ensures Enabled(OverrunState(n), Overrun()[n]) && Next(OverrunState(n), Overrun()[n]) == OverrunState(n + 1)
  {
  }

  lemma OverrunPosts(n: nat)
    requires 5 <= n < 11
    ensures Enabled(OverrunState(n), Overrun()[n]) && Next(OverrunState(n), Overrun()[n]) == OverrunState(n + 1)
  {
  }

  lemma {:induction false} OverrunFrom(n: nat)
    requires n <= 11
    ensures Possible(OverrunState(n), Overrun()[n..]) && After(OverrunState(n), Overrun()[n..]) == OverrunState(11)
    decreases 11 - n
  {
    hide Overrun, OverrunState, Enabled, Next;
    if n < 11 {
      if n < 5 { OverrunClaims(n); } else { OverrunPosts(n); }
      OverrunFrom(n + 1);
      OverrunLength();
      assert Overrun()[n..][0] == Overrun()[n] && Overrun()[n..][1..] == Overrun()[n + 1..];
    } else {
      OverrunLength();
      assert Overrun()[n..] == [];
    }
  }

  lemma OverrunLength()
    ensures |Overrun()| == 11
  {
  }

  /** A call that outlives its lock can make another present a token that is gone. */
  lemma OverrunReusesToken()
    ensures Possible(Start(0, 2, 0), Overrun()) && After(Start(0, 2, 0), Overrun()).stale
  {
    hide Possible, After;
    OverrunFrom(0);
    assert Overrun()[0..] == Overrun();
  }
}
