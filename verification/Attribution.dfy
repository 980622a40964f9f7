/**
 Whose usage is it? Both folds hand every assistant turn's usage to one
 accumulator. Here an attribution is a list of owners, one per event, and the
 share of a set of owners is the usage they hold among the first n events.
 */
module Attribution {
  import opened Options
  import opened Transcript
  import opened Matching

  datatype Owner =
    | ByFrame(at: nat)          // the Skill/Agent dispatch at this index of the stream
    | ByPhase(phase: string)    // the orchestrator, working for a phase
    | ByOrchestration           // the orchestrator, before any phase
    | Nobody

  function UsageOf(e: CostEvent): Tokens {
    if e.AssistantTurn? then Counted(e.usage) else EmptyTokens
  }

  ghost function Share(events: seq<CostEvent>, owners: seq<Owner>, n: nat, s: set<Owner>): Tokens
    requires n <= |events| == |owners|
  {
    if n == 0 then EmptyTokens else Share(events, owners, n - 1, s).Plus(HeldBy(owners[n - 1], UsageOf(events[n - 1]), s))
  }

  ghost function HeldBy(owner: Owner, usage: Tokens, s: set<Owner>): Tokens {
    if owner in s then usage else EmptyTokens
  }

  ghost function Total(events: seq<CostEvent>, n: nat): Tokens
    requires n <= |events|
  {
    if n == 0 then EmptyTokens else Total(events, n - 1).Plus(UsageOf(events[n - 1]))
  }

  /** One counter, summed over the turns that report it. */
  ghost function Reported(events: seq<CostEvent>, n: nat, counter: Usage -> Option<nat>): nat
    requires n <= |events|
  {
    if n == 0 then 0
    else
      var e := events[n - 1];
      Reported(events, n - 1, counter)
      + if e.AssistantTurn? && e.usage.Some? && counter(e.usage.value).Some? then counter(e.usage.value).value else 0
  }

  /** Each counter of the total is the sum of what the turns report of it. */
  lemma {:induction false} TotalIsReported(events: seq<CostEvent>, n: nat)
    requires n <= |events|
    ensures Total(events, n).input == Reported(events, n, (u: Usage) => u.input)
    ensures Total(events, n).output == Reported(events, n, (u: Usage) => u.output)
    ensures Total(events, n).cacheCreation == Reported(events, n, (u: Usage) => u.cacheCreation)
    ensures Total(events, n).cacheRead == Reported(events, n, (u: Usage) => u.cacheRead)
  {
    if n > 0 {
      TotalIsReported(events, n - 1);
    }
  }

  lemma {:induction false} ShareUnion(events: seq<CostEvent>, owners: seq<Owner>, n: nat, s: set<Owner>, t: set<Owner>)
    requires n <= |events| == |owners| && s !! t
    ensures Share(events, owners, n, s + t) == Share(events, owners, n, s).Plus(Share(events, owners, n, t))
  {
    if n == 0 {
      PlusEmpty(EmptyTokens);
      return;
    }
    ShareUnion(events, owners, n - 1, s, t);
    HeldApart(owners[n - 1], UsageOf(events[n - 1]), s, t,
              Share(events, owners, n - 1, s), Share(events, owners, n - 1, t));
  }

  lemma HeldApart(o: Owner, u: Tokens, s: set<Owner>, t: set<Owner>, a: Tokens, b: Tokens)
    requires s !! t
    ensures a.Plus(b).Plus(HeldBy(o, u, s + t)) == a.Plus(HeldBy(o, u, s)).Plus(b.Plus(HeldBy(o, u, t)))
  {
    if o in s {
      assert o !in t;
    }
  }

  /** Owners that hold everything that was spent. */
  lemma {:induction false} ShareOfSpenders(events: seq<CostEvent>, owners: seq<Owner>, n: nat, s: set<Owner>)
    requires n <= |events| == |owners|
    requires forall t | 0 <= t < n && UsageOf(events[t]) != EmptyTokens :: owners[t] in s
    ensures Share(events, owners, n, s) == Total(events, n)
  {
    hide *;
    if n == 0 {
      NothingShared(events, owners, s);
    } else {
      ShareOfSpenders(events, owners, n - 1, s);
      ShareStep(events, owners, n, s);
      PlusEmpty(Total(events, n - 1));
    }
  }

  lemma NothingShared(events: seq<CostEvent>, owners: seq<Owner>, s: set<Owner>)
    requires |events| == |owners|
    ensures Share(events, owners, 0, s) == EmptyTokens == Total(events, 0)
  {
  }

  lemma ShareStep(events: seq<CostEvent>, owners: seq<Owner>, n: nat, s: set<Owner>)
    requires 0 < n <= |events| == |owners|
    ensures Share(events, owners, n, s) ==
            if owners[n - 1] in s then Share(events, owners, n - 1, s).Plus(UsageOf(events[n - 1]))
            else Share(events, owners, n - 1, s).Plus(EmptyTokens)
    ensures Total(events, n) == Total(events, n - 1).Plus(UsageOf(events[n - 1]))
  {
    hide UsageOf, Tokens.Plus;
  }

  /** Who holds nothing spent nothing. */
  lemma {:induction false} OwnedIsCounted(events: seq<CostEvent>, owners: seq<Owner>, n: nat, t: nat, s: set<Owner>)
    requires t < n <= |events| == |owners| && owners[t] in s
    ensures Share(events, owners, n, s) == EmptyTokens ==> UsageOf(events[t]) == EmptyTokens
  {
    hide *;
    if Share(events, owners, n, s) == EmptyTokens {
      ShareStep(events, owners, n, s);
      PlusZero(Share(events, owners, n - 1, s), if owners[n - 1] in s then UsageOf(events[n - 1]) else EmptyTokens);
      if t < n - 1 {
        OwnedIsCounted(events, owners, n - 1, t, s);
      }
    }
  }

  lemma PlusZero(a: Tokens, b: Tokens)
    requires a.Plus(b) == EmptyTokens
    ensures a == EmptyTokens && b == EmptyTokens
  {
  }

  lemma {:induction false} ShareOfNone(events: seq<CostEvent>, owners: seq<Owner>, n: nat, s: set<Owner>)
    requires n <= |events| == |owners|
    requires forall t | 0 <= t < n && events[t].AssistantTurn? :: owners[t] !in s
    ensures Share(events, owners, n, s) == EmptyTokens
  {
    if n > 0 {
      ShareOfNone(events, owners, n - 1, s);
    }
  }

  // ----- Deferred dispatch turns -----------------------------------------

  function DispatchUuids(events: seq<CostEvent>): (us: set<string>)
    ensures forall u :: u in us <==> exists j :: 0 <= j < |events| && IsDispatch(events[j]) && HasUuid(events[j], u)
  {
    set j | 0 <= j < |events| && IsDispatch(events[j]) && Truthy(events[j].uuid) :: events[j].uuid.value
  }

  /** An event that takes a usage parked under uuid u: the dispatch it waits
      for, or a later turn parked under the same uuid, which overwrites it. */
  ghost predicate Claims(events: seq<CostEvent>, deferred: seq<bool>, u: string, j: nat)
    requires j < |events| == |deferred|
  {
    HasUuid(events[j], u) && (IsDispatch(events[j]) || deferred[j])
  }

  ghost function NextClaim(events: seq<CostEvent>, deferred: seq<bool>, u: string, from: nat): (r: Option<nat>)
    requires from <= |events| == |deferred|
    ensures r.Some? ==> from <= r.value < |events| && Claims(events, deferred, u, r.value)
    ensures forall j | from <= j < (if r.Some? then r.value else |events|) :: !Claims(events, deferred, u, j)
    decreases |events| - from
  {
    if from == |events| then None
    else if Claims(events, deferred, u, from) then Some(from)
    else NextClaim(events, deferred, u, from + 1)
  }

  /** The owner of a deferred turn: the dispatch that next claims its uuid. */
  ghost function Adopter(events: seq<CostEvent>, deferred: seq<bool>, t: nat): Owner
    requires t < |events| == |deferred| && Truthy(events[t].uuid)
  {
    match NextClaim(events, deferred, events[t].uuid.value, t + 1)
    case Some(j) => if IsDispatch(events[j]) then ByFrame(j) else Nobody
    case None => Nobody
  }

  /** The turn whose usage is parked under uuid u after k events. */
  ghost function Parked(events: seq<CostEvent>, deferred: seq<bool>, u: string, k: nat): (r: Option<nat>)
    requires k <= |events| == |deferred|
    ensures r.Some? ==> r.value < k && deferred[r.value] && HasUuid(events[r.value], u)
    ensures r.Some? ==> forall j | r.value < j < k :: !Claims(events, deferred, u, j)
    ensures r.None? ==> forall t | 0 <= t < k && deferred[t] && HasUuid(events[t], u) ::
              exists j :: t < j < k && Claims(events, deferred, u, j)
  {
    if k == 0 then None
    else if Claims(events, deferred, u, k - 1) then if deferred[k - 1] then Some(k - 1) else None
    else Parked(events, deferred, u, k - 1)
  }

  /** What the two attributions have in common. */
  ghost predicate Attributes(events: seq<CostEvent>, owners: seq<Owner>, deferred: seq<bool>) {
    |events| == |owners| == |deferred|
    && (forall t | 0 <= t < |events| && deferred[t] ::
          events[t].AssistantTurn? && Truthy(events[t].uuid) && events[t].uuid.value in DispatchUuids(events)
          && owners[t] == Adopter(events, deferred, t))
    && (forall t | 0 <= t < |events| && !deferred[t] && owners[t].ByFrame? :: owners[t].at < t)
    && (forall t | 0 <= t < |events| && !deferred[t] && events[t].AssistantTurn? :: owners[t] != Nobody)
  }

  /** The turn whose usage dispatch i takes over, if any. */
  ghost function Adopted(events: seq<CostEvent>, deferred: seq<bool>, i: nat): (r: Option<nat>)
    requires i < |events| == |deferred|
    ensures r.Some? ==> r.value < i
  {
    if Truthy(events[i].uuid) then Parked(events, deferred, events[i].uuid.value, i) else None
  }

  /** A dispatch starts with exactly the usage parked under its uuid: of the
      earlier turns, its frame owns the adopted one and no other. */
  lemma AdoptedShare(events: seq<CostEvent>, owners: seq<Owner>, deferred: seq<bool>, i: nat)
    requires Attributes(events, owners, deferred) && i < |events| && IsDispatch(events[i])
    ensures Share(events, owners, i, {ByFrame(i)}) ==
            AdoptedBefore(events, Adopted(events, deferred, i), i)
  {
    forall t | 0 <= t < i ensures owners[t] == ByFrame(i) <==> Adopted(events, deferred, i) == Some(t) {
      OwnedByDispatch(events, owners, deferred, t, i);
    }
    AdoptedUpTo(events, owners, Adopted(events, deferred, i), i, i);
  }

  lemma {:induction false} AdoptedUpTo(events: seq<CostEvent>, owners: seq<Owner>, adopted: Option<nat>, i: nat, n: nat)
    requires n <= i < |events| == |owners|
    requires forall t | 0 <= t < i :: owners[t] == ByFrame(i) <==> adopted == Some(t)
    ensures Share(events, owners, n, {ByFrame(i)}) == AdoptedBefore(events, adopted, n)
  {
    if n > 0 {
      AdoptedUpTo(events, owners, adopted, i, n - 1);
      AdoptedStep(events, owners, adopted, i, n);
    }
  }

  ghost function AdoptedBefore(events: seq<CostEvent>, t: Option<nat>, n: nat): Tokens
    requires n <= |events|
  {
    if t.Some? && t.value < n then UsageOf(events[t.value]) else EmptyTokens
  }

  lemma AdoptedStep(events: seq<CostEvent>, owners: seq<Owner>, adopted: Option<nat>, i: nat, n: nat)
    requires 0 < n <= |events| == |owners|
    requires owners[n - 1] == ByFrame(i) <==> adopted == Some(n - 1)
    requires Share(events, owners, n - 1, {ByFrame(i)}) == AdoptedBefore(events, adopted, n - 1)
    ensures Share(events, owners, n, {ByFrame(i)}) == AdoptedBefore(events, adopted, n)
  {
    var a, u := Share(events, owners, n - 1, {ByFrame(i)}), UsageOf(events[n - 1]);
    assert Share(events, owners, n, {ByFrame(i)}) == a.Plus(HeldBy(owners[n - 1], u, {ByFrame(i)}));
    if adopted.Some? && adopted.value == n - 1 {
      assert adopted == Some(n - 1);
      assert HeldBy(owners[n - 1], u, {ByFrame(i)}) == u && a == EmptyTokens;
      PlusEmpty(u);
    } else {
      assert HeldBy(owners[n - 1], u, {ByFrame(i)}) == EmptyTokens;
      PlusEmpty(a);
    }
  }

  lemma PlusEmpty(a: Tokens)
    ensures a.Plus(EmptyTokens) == a && EmptyTokens.Plus(a) == a
  {
  }

  lemma PlusSwap(a: Tokens, b: Tokens, c: Tokens)
    ensures a.Plus(b).Plus(c) == a.Plus(c).Plus(b)
  {
  }

  lemma PlusAssoc(a: Tokens, b: Tokens, c: Tokens)
    ensures a.Plus(b).Plus(c) == a.Plus(b.Plus(c))
  {
  }

  lemma PlusCommutes(a: Tokens, b: Tokens)
    ensures a.Plus(b) == b.Plus(a)
  {
  }

  lemma OwnedByDispatch(events: seq<CostEvent>, owners: seq<Owner>, deferred: seq<bool>, t: nat, i: nat)
    requires Attributes(events, owners, deferred) && t < i < |events| && IsDispatch(events[i])
    ensures owners[t] == ByFrame(i) <==> Adopted(events, deferred, i) == Some(t)
  {
    if deferred[t] {
      AdoptsParked(events, deferred, t, i);
    }
  }

  lemma AdoptsParked(events: seq<CostEvent>, deferred: seq<bool>, t: nat, i: nat)
    requires t < i < |events| == |deferred| && IsDispatch(events[i])
    requires deferred[t] && Truthy(events[t].uuid)
    ensures Adopter(events, deferred, t) == ByFrame(i) <==>
            Adopted(events, deferred, i) == Some(t)
  {
    var u := events[t].uuid.value;
    var next := NextClaim(events, deferred, u, t + 1);
    assert Claims(events, deferred, u, t);
    if HasUuid(events[i], u) {
      assert Claims(events, deferred, u, i);
      var parked := Parked(events, deferred, u, i);
      assert parked.Some? && parked.value > t ==> Claims(events, deferred, u, parked.value);
    }
  }

  /** On streams in which turns lead, every turn has an owner. */
  lemma EveryTurnOwned(events: seq<CostEvent>, owners: seq<Owner>, deferred: seq<bool>, t: nat)
    requires Attributes(events, owners, deferred) && TurnsLead(events)
    requires t < |events| && events[t].AssistantTurn?
    ensures owners[t] != Nobody
  {
    if deferred[t] {
      var u := events[t].uuid.value;
      var j :| 0 <= j < |events| && IsDispatch(events[j]) && HasUuid(events[j], u);
      FollowsTurn(events, t, j);
      assert Claims(events, deferred, u, j);
      var next := NextClaim(events, deferred, u, t + 1);
      FollowsTurn(events, t, next.value);
    }
  }

  lemma FollowsTurn(events: seq<CostEvent>, t: nat, j: nat)
    requires TurnsLead(events) && t < |events| && j < |events| && j != t
    requires events[t].AssistantTurn? && Truthy(events[t].uuid) && HasUuid(events[j], events[t].uuid.value)
    ensures t < j && events[j].ToolUse?
  {
    assert SameUuid(events[t], events[j]);
  }

  /** Nothing is lost: shares of disjoint sets of owners that cover every owner
      but Nobody add up to the whole stream's usage, when turns lead. */
  lemma NothingLost(events: seq<CostEvent>, owners: seq<Owner>, deferred: seq<bool>)
    requires Attributes(events, owners, deferred) && TurnsLead(events)
    ensures Share(events, owners, |events|, {Nobody}) == EmptyTokens
  {
    forall t | 0 <= t < |events| && events[t].AssistantTurn? ensures owners[t] !in {Nobody} {
      EveryTurnOwned(events, owners, deferred, t);
    }
    ShareOfNone(events, owners, |events|, {Nobody});
  }

  // ----- The dictionary of parked usage -----------------------------------

  ghost predicate PendingOk(events: seq<CostEvent>, deferred: seq<bool>, k: nat, pending: map<string, Option<Usage>>)
    requires k <= |events| == |deferred|
  {
    forall u ::
      var parked := Parked(events, deferred, u, k);
      (u in pending <==> parked.Some?)
      && (u in pending ==> Counted(pending[u]) == UsageOf(events[parked.value]))
  }

  function DrainedTokens(pending: map<string, Option<Usage>>, uuid: Option<string>): Tokens {
    if Truthy(uuid) && uuid.value in pending then Counted(pending[uuid.value]) else EmptyTokens
  }

  lemma DrainsAdopted(events: seq<CostEvent>, deferred: seq<bool>, k: nat, pending: map<string, Option<Usage>>)
    requires k < |events| == |deferred| && PendingOk(events, deferred, k, pending)
    ensures DrainedTokens(pending, events[k].uuid) == AdoptedBefore(events, Adopted(events, deferred, k), k)
  {
    if Truthy(events[k].uuid) {
      var u := events[k].uuid.value;
      assert u in pending <==> Parked(events, deferred, u, k).Some?;
    }
  }

  /** A dispatch takes what is parked under its uuid. */
  lemma PendingDrained(events: seq<CostEvent>, deferred: seq<bool>, k: nat, pending: map<string, Option<Usage>>)
    requires k < |events| == |deferred| && IsDispatch(events[k]) && !deferred[k] && PendingOk(events, deferred, k, pending)
    ensures PendingOk(events, deferred, k + 1,
                      if Truthy(events[k].uuid) then pending - {events[k].uuid.value} else pending)
  {
    var after := if Truthy(events[k].uuid) then pending - {events[k].uuid.value} else pending;
    forall u
      ensures var parked := Parked(events, deferred, u, k + 1);
              (u in after <==> parked.Some?) && (u in after ==> Counted(after[u]) == UsageOf(events[parked.value]))
    {
      assert u in pending <==> Parked(events, deferred, u, k).Some?;
      assert Claims(events, deferred, u, k) <==> HasUuid(events[k], u);
    }
  }

  /** A deferred turn overwrites what is parked under its uuid. */
  lemma PendingParked(events: seq<CostEvent>, deferred: seq<bool>, k: nat, pending: map<string, Option<Usage>>)
    requires k < |events| == |deferred| && deferred[k] && events[k].AssistantTurn? && Truthy(events[k].uuid)
    requires PendingOk(events, deferred, k, pending)
    ensures PendingOk(events, deferred, k + 1, pending[events[k].uuid.value := events[k].usage])
  {
    var after := pending[events[k].uuid.value := events[k].usage];
    forall u
      ensures var parked := Parked(events, deferred, u, k + 1);
              (u in after <==> parked.Some?) && (u in after ==> Counted(after[u]) == UsageOf(events[parked.value]))
    {
      assert u in pending <==> Parked(events, deferred, u, k).Some?;
      assert Claims(events, deferred, u, k) <==> HasUuid(events[k], u);
    }
  }

  lemma PendingKept(events: seq<CostEvent>, deferred: seq<bool>, k: nat, pending: map<string, Option<Usage>>)
    requires k < |events| == |deferred| && !IsDispatch(events[k]) && !deferred[k] && PendingOk(events, deferred, k, pending)
    ensures PendingOk(events, deferred, k + 1, pending)
  {
    forall u
      ensures var parked := Parked(events, deferred, u, k + 1);
              (u in pending <==> parked.Some?) && (u in pending ==> Counted(pending[u]) == UsageOf(events[parked.value]))
    {
      assert u in pending <==> Parked(events, deferred, u, k).Some?;
      assert !Claims(events, deferred, u, k);
    }
  }
}
