/**
 The rules of the structure tree, read off the stream directly: from which
 dispatches are in flight, which events move the phase, and which results
 close what; without the running cursors of module Structure.
 */
module TreeLaws {
  import opened Options
  import opened Transcript
  import opened Matching
  import opened Attribution
  import opened Registry
  import opened Structure
  import opened Tree
  import opened TreeRows
  import opened CostLaws

  // ----- What is in flight ------------------------------------------------------------------

  ghost predicate NoneInFlight(events: seq<CostEvent>, k: nat)
    requires k <= |events|
  {
    forall m | 0 <= m < k :: !InFlightAt(events, m, k)
  }

  ghost predicate Innermost(events: seq<CostEvent>, k: nat, i: nat)
    requires k <= |events|
  {
    InFlightAt(events, i, k) && forall m | i < m < k :: !InFlightAt(events, m, k)
  }

  lemma NoneIs(events: seq<CostEvent>, k: nat)
    requires k <= |events|
    ensures NoneInFlight(events, k) <==> OpenAt(events, k) == []
  {
    hide OpenAt, ClosedBy;
    var open := OpenAt(events, k);
    if open == [] {
      forall m | 0 <= m < k ensures !InFlightAt(events, m, k) {
        if InFlightAt(events, m, k) {
          OpenUntilClosed(events, m, k);
        }
      }
    } else {
      assert FramesOf(events, open) && open[0] in open && open[0] < k;
      OpenUntilClosed(events, open[0], k);
    }
  }

  lemma InnermostIs(events: seq<CostEvent>, k: nat, i: nat)
    requires k <= |events|
    ensures Innermost(events, k, i) <==> OpenAt(events, k) != [] && OpenAt(events, k)[|OpenAt(events, k)| - 1] == i
  {
    hide OpenAt, InFlightAt;
    var open := OpenAt(events, k);
    assert FramesOf(events, open) && Ascending(open);
    if open != [] {
      var last := open[|open| - 1];
      assert last in open && last < k;
      OpenUntilClosed(events, last, k);
      forall m | last < m < k ensures !InFlightAt(events, m, k) {
        if InFlightAt(events, m, k) {
          OpenMember(events, k, m);
        }
      }
    }
    if Innermost(events, k, i) {
      OpenMember(events, k, i);
    }
  }

  lemma OpenMember(events: seq<CostEvent>, k: nat, m: nat)
    requires k <= |events| && InFlightAt(events, m, k)
    ensures m in OpenAt(events, k) && OpenAt(events, k) != [] && m <= OpenAt(events, k)[|OpenAt(events, k)| - 1]
  {
    hide OpenAt, ClosedBy;
    OpenUntilClosed(events, m, k);
    var q :| 0 <= q < |OpenAt(events, k)| && OpenAt(events, k)[q] == m;
    assert Ascending(OpenAt(events, k));
  }

  /** A result finds no skill to close exactly when none in flight has its id. */
  lemma ClosesNothing(events: seq<CostEvent>, k: nat, id: Option<string>)
    requires k <= |events|
    ensures LastWith(events, OpenAt(events, k), id) < 0 <==>
            forall m | 0 <= m < k && InFlightAt(events, m, k) :: Some(FrameId(events[m])) != id
  {
    hide OpenAt, LastWith, ClosedBy;
    var open := OpenAt(events, k);
    var p := LastWith(events, open, id);
    assert FramesOf(events, open);
    if p >= 0 {
      assert open[p] in open && open[p] < k;
      OpenUntilClosed(events, open[p], k);
    } else {
      forall m | 0 <= m < k && InFlightAt(events, m, k) ensures Some(FrameId(events[m])) != id {
        OpenMember(events, k, m);
      }
    }
  }

  // ----- Tasks and the phase -------------------------------------------------------------------

  predicate Creates(e: CostEvent) {
    e.ToolUse? && e.name == Some("TaskCreate")
  }

  /** How many tasks the first k events create. */
  function Created(events: seq<CostEvent>, k: nat): nat
    requires k <= |events|
  {
    if k == 0 then 0 else Created(events, k - 1) + if Creates(events[k - 1]) then 1 else 0
  }

  /** Event c creates task n, whose subject names a skill of phase p. */
  predicate CreatesFor(r: Run, c: nat, n: nat, p: string)
    requires c < |r.events|
  {
    Creates(r.events[c]) && n == Created(r.events, c) + 1
    && r.events[c].toolInput.subjectSlug.Some? && Lookup(r.index, r.events[c].toolInput.subjectSlug.value) == Some(p)
  }

  ghost predicate CreatedFor(r: Run, k: nat, n: nat, p: string)
    requires k <= |r.events|
  {
    exists c :: 0 <= c < k && CreatesFor(r, c, n, p)
  }

  lemma CreatedForStep(r: Run, k: nat, n: nat, p: string)
    requires k < |r.events|
    ensures CreatedFor(r, k + 1, n, p) <==> CreatedFor(r, k, n, p) || CreatesFor(r, k, n, p)
  {
    hide CreatesFor;
    if c :| 0 <= c < k && CreatesFor(r, c, n, p) {
      assert 0 <= c < k + 1;
    }
  }

  /** The n-th task created has the phase its subject names. */
  lemma {:induction false} TasksAre(r: Run, k: nat, n: nat, p: string)
    requires k <= |r.events|
    ensures TaskPhases(r, k).0 == Created(r.events, k)
    ensures n in TaskPhases(r, k).1 && TaskPhases(r, k).1[n] == p <==> CreatedFor(r, k, n, p)
    ensures n in TaskPhases(r, k).1 ==> n <= Created(r.events, k)
  {
    hide Lookup, CreatedFor;
    if k > 0 {
      TasksAre(r, k - 1, n, p);
      CreatedBefore(r, k - 1, n, p);
      CreatedForStep(r, k - 1, n, p);
    } else {
      assert !CreatedFor(r, 0, n, p) by {
        NoneCreated(r, n, p);
      }
    }
  }

  lemma NoneCreated(r: Run, n: nat, p: string)
    ensures !CreatedFor(r, 0, n, p)
  {
  }

  lemma {:induction false} CreatedBefore(r: Run, k: nat, n: nat, p: string)
    requires k <= |r.events|
    ensures CreatedFor(r, k, n, p) ==> n <= Created(r.events, k)
  {
    hide Lookup;
    if k > 0 {
      CreatedBefore(r, k - 1, n, p);
    }
  }

  /** Marking a task of phase p as in progress. */
  ghost predicate Announces(r: Run, e: CostEvent, p: string) {
    e.ToolUse? && e.name == Some("TaskUpdate") && e.toolInput.status == Some("in_progress") && e.toolInput.taskId.Some?
    && p != "" && CreatedFor(r, |r.events|, e.toolInput.taskId.value, p)
  }

  /** Event j sets the phase to p: with nothing in flight, a registered skill is
      dispatched or a task is marked. */
  ghost predicate SetsPhase(r: Run, j: nat, p: string)
    requires j < |r.events|
  {
    NoneInFlight(r.events, j) && (Registers(r.index, r.events[j], p) || Announces(r, r.events[j], p))
  }

  ghost predicate KeepsPhase(r: Run, j: nat)
    requires j < |r.events|
  {
    forall p :: !SetsPhase(r, j, p)
  }

  /** The last event before k to set the phase sets it to p. */
  ghost predicate InPhase(r: Run, k: nat, p: string)
    requires k <= |r.events|
  {
    exists j :: 0 <= j < k && SetsPhase(r, j, p) && forall m | j < m < k :: KeepsPhase(r, m)
  }

  lemma MarkedIs(r: Run, e: CostEvent, p: string)
    ensures Announces(r, e, p) <==> p != "" && MarkedPhase(TaskPhases(r, |r.events|).1, e) == p
  {
    hide CreatedFor, TaskPhases;
    if e.ToolUse? && e.toolInput.taskId.Some? {
      TasksAre(r, |r.events|, e.toolInput.taskId.value, p);
    }
  }

  lemma MarksIs(r: Run, k: nat, p: string)
    requires k < |r.events|
    ensures p != "" ==> (Marks(r, k) == p <==> NoneInFlight(r.events, k) && Announces(r, r.events[k], p))
  {
    hide OpenAt, NoneInFlight, Announces, MarkedPhase, TaskPhases;
    MarkedIs(r, r.events[k], p);
    NoneIs(r.events, k);
  }

  lemma PhaseStep(r: Run, k: nat, p: string)
    requires k < |r.events|
    ensures SetsPhase(r, k, p) ==> PhaseAt(r, k + 1) == Some(p)
    ensures PhaseAt(r, k + 1) == Some(p) ==> SetsPhase(r, k, p) || PhaseAt(r, k) == Some(p)
    ensures KeepsPhase(r, k) ==> PhaseAt(r, k + 1) == PhaseAt(r, k)
  {
    hide OpenAt, NoneInFlight, Marks, Lookup, Announces;
    NoneIs(r.events, k);
    MarksIs(r, k, p);
    MarksIs(r, k, Marks(r, k));
    if IsDispatch(r.events[k]) {
      DispatchMarksNothing(r, k, p);
    }
    if Announces(r, r.events[k], p) {
      AnnouncedNotEmpty(r, r.events[k], p);
    }
    assert Marks(r, k) != "" ==> SetsPhase(r, k, Marks(r, k));
    if IsDispatch(r.events[k]) && OpenAt(r.events, k) == [] && Lookup(r.index, SkillName(r.events[k])).Some? {
      assert SetsPhase(r, k, Lookup(r.index, SkillName(r.events[k])).value);
    }
  }

  lemma DispatchMarksNothing(r: Run, k: nat, p: string)
    requires k < |r.events| && IsDispatch(r.events[k])
    ensures !Announces(r, r.events[k], p)
  {
  }

  lemma InPhaseStep(r: Run, k: nat, p: string)
    requires k < |r.events|
    ensures InPhase(r, k + 1, p) <==> SetsPhase(r, k, p) || (InPhase(r, k, p) && KeepsPhase(r, k))
  {
    hide SetsPhase, KeepsPhase;
    if InPhase(r, k, p) && KeepsPhase(r, k) {
      var j :| 0 <= j < k && SetsPhase(r, j, p) && forall m | j < m < k :: KeepsPhase(r, m);
      assert forall m | j < m < k + 1 :: KeepsPhase(r, m);
    }
  }

  lemma SetsOne(r: Run, k: nat, p: string)
    requires k < |r.events| && PhaseAt(r, k + 1) == Some(p) && !KeepsPhase(r, k)
    ensures SetsPhase(r, k, p)
  {
    hide PhaseAt, SetsPhase;
    var q :| SetsPhase(r, k, q);
    PhaseStep(r, k, q);
  }

  /** The phase is the one set last, by a registered skill dispatched at top
      level or a task of its marked in progress there; before any, there is none. */
  lemma {:induction false} PhaseLaw(r: Run, k: nat, p: string)
    requires k <= |r.events|
    ensures PhaseAt(r, k) == Some(p) <==> InPhase(r, k, p)
  {
    hide *;
    if k == 0 {
      NoPhaseYet(r, p);
    } else {
      PhaseLaw(r, k - 1, p);
      PhaseStep(r, k - 1, p);
      InPhaseStep(r, k - 1, p);
      if PhaseAt(r, k) == Some(p) && !KeepsPhase(r, k - 1) {
        SetsOne(r, k - 1, p);
      }
    }
  }

  lemma NoPhaseYet(r: Run, p: string)
    ensures PhaseAt(r, 0) == None && !InPhase(r, 0, p)
  {
  }

  // ----- The skill that absorbs later work ---------------------------------------------------------

  /** Event m ends the regime of a finished skill: a dispatch, or the start of another phase. */
  ghost predicate Retires(r: Run, m: nat)
    requires m < |r.events|
  {
    IsDispatch(r.events[m]) || exists p :: SetsPhase(r, m, p) && !InPhase(r, m, p)
  }

  /** Skill i closed with nothing else in flight, and nothing has ended its regime. */
  ghost predicate Absorbs(r: Run, k: nat, i: nat)
    requires k <= |r.events|
  {
    i < |r.events| && IsDispatch(r.events[i]) && ClosedBy(r.events, i).Some?
    && ClosedBy(r.events, i).value < k && NoneInFlight(r.events, ClosedBy(r.events, i).value + 1)
    && forall m | ClosedBy(r.events, i).value < m < k :: !Retires(r, m)
  }

  /** Event k closes i and leaves nothing in flight. */
  ghost predicate Finishes(r: Run, k: nat, i: nat)
    requires k < |r.events|
  {
    i < |r.events| && IsDispatch(r.events[i]) && ClosedBy(r.events, i) == Some(k) && NoneInFlight(r.events, k + 1)
  }

  lemma FinishesIs(r: Run, k: nat, i: nat)
    requires k < |r.events|
    ensures Finishes(r, k, i) <==>
            r.events[k].ToolResult? && |OpenAt(r.events, k)| == 1 && OpenAt(r.events, k + 1) == [] && OpenAt(r.events, k)[0] == i
  {
    hide OpenAt, ClosedBy, NoneInFlight;
    var open := OpenAt(r.events, k);
    NoneIs(r.events, k + 1);
    if Finishes(r, k, i) {
      OpenUntilClosed(r.events, i, k);
      OnlyOne(r, k, i);
    } else if r.events[k].ToolResult? && |open| == 1 && OpenAt(r.events, k + 1) == [] && open[0] == i {
      assert open[0] in open && FramesOf(r.events, open);
      ClosedNow(r.events, k, i);
    }
  }

  lemma OnlyOne(r: Run, k: nat, i: nat)
    requires k < |r.events| && i in OpenAt(r.events, k) && OpenAt(r.events, k + 1) == []
    ensures |OpenAt(r.events, k)| == 1 && OpenAt(r.events, k)[0] == i && r.events[k].ToolResult?
  {
    hide LastWith;
  }

  lemma RetiresIs(r: Run, k: nat)
    requires k < |r.events|
    ensures Retires(r, k) <==> IsDispatch(r.events[k]) || (Marks(r, k) != "" && Some(Marks(r, k)) != PhaseAt(r, k))
  {
    hide Marks, PhaseAt, InPhase, Announces, NoneInFlight;
    var p := Marks(r, k);
    MarksIs(r, k, p);
    PhaseLaw(r, k, p);
    if p != "" && Some(p) != PhaseAt(r, k) {
      assert SetsPhase(r, k, p) && !InPhase(r, k, p);
    }
    if !IsDispatch(r.events[k]) && Retires(r, k) {
      var q :| SetsPhase(r, k, q) && !InPhase(r, k, q);
      AnnouncedNotEmpty(r, r.events[k], q);
      MarksIs(r, k, q);
      PhaseLaw(r, k, q);
    }
  }

  lemma AnnouncedNotEmpty(r: Run, e: CostEvent, p: string)
    requires Announces(r, e, p)
    ensures p != ""
  {
  }

  lemma ActiveNext(r: Run, k: nat, i: nat)
    requires k < |r.events|
    ensures ActiveAt(r, k + 1) == Some(i) <==> !Retires(r, k) && (Finishes(r, k, i) || (ActiveAt(r, k) == Some(i) && !Closing(r, k)))
  {
    hide Retires, Finishes, Marks, PhaseAt, OpenAt, Scan, ClosedBy;
    RetiresIs(r, k);
    FinishesIs(r, k, i);
    assert ActiveAt(r, k).Some? ==> OpenAt(r.events, k) == [];
  }

  /** Event k closes the only skill in flight. */
  ghost predicate Closing(r: Run, k: nat)
    requires k < |r.events|
  {
    r.events[k].ToolResult? && |OpenAt(r.events, k)| == 1 && OpenAt(r.events, k + 1) == []
  }

  lemma NotWhileActive(r: Run, k: nat)
    requires k < |r.events| && ActiveAt(r, k).Some?
    ensures !Closing(r, k)
  {
    hide ActiveAt, OpenAt;
  }

  lemma FinishRetiresNothing(r: Run, k: nat, i: nat)
    requires k < |r.events| && Finishes(r, k, i)
    ensures !Retires(r, k)
  {
    FinishesIs(r, k, i);
    RetiresIs(r, k);
    hide Retires, Finishes, OpenAt, PhaseAt;
  }

  lemma AbsorbsStep(r: Run, k: nat, i: nat)
    requires k < |r.events|
    ensures Absorbs(r, k + 1, i) <==> Finishes(r, k, i) || (Absorbs(r, k, i) && !Retires(r, k))
  {
    hide Retires, NoneInFlight, ClosedBy, IsDispatch;
  }

  /** At top level, later work goes to the skill that closed last with nothing
      else in flight, until a dispatch or the start of another phase. */
  lemma {:induction false} ActiveLaw(r: Run, k: nat, i: nat)
    requires k <= |r.events|
    ensures ActiveAt(r, k) == Some(i) <==> Absorbs(r, k, i)
  {
    hide *;
    if k == 0 {
      NoneActiveYet(r, i);
    } else {
      ActiveLaw(r, k - 1, i);
      ActiveNext(r, k - 1, i);
      AbsorbsStep(r, k - 1, i);
      if ActiveAt(r, k - 1) == Some(i) {
        NotWhileActive(r, k - 1);
      }
      if Finishes(r, k - 1, i) {
        FinishRetiresNothing(r, k - 1, i);
      }
    }
  }

  lemma NoneActiveYet(r: Run, i: nat)
    ensures ActiveAt(r, 0) == None && !Absorbs(r, 0, i)
  {
  }

  ghost predicate NoneAbsorbs(r: Run, k: nat)
    requires k <= |r.events|
  {
    forall i: nat :: !Absorbs(r, k, i)
  }

  ghost predicate NoPhase(r: Run, k: nat)
    requires k <= |r.events|
  {
    forall p :: !InPhase(r, k, p)
  }

  /** The row of phase p, or of no phase, at that moment. */
  ghost predicate PhaseRow(r: Run, k: nat, p: string)
    requires k <= |r.events|
  {
    InPhase(r, k, p) || (NoPhase(r, k) && p == "_orchestration")
  }

  /** The same, but a phase without a name counts as none. */
  ghost predicate NamedRow(r: Run, k: nat, p: string)
    requires k <= |r.events|
  {
    if exists q :: q != "" && InPhase(r, k, q) then p != "" && InPhase(r, k, p) else p == "_orchestration"
  }

  // ----- Where work lands -----------------------------------------------------------------------------

  /** A tool call is listed under the innermost skill in flight; at top level,
      under the skill that absorbs it; else in the phase, counting the phase it marks itself. */
  lemma ToolLaw(r: Run, t: nat)
    requires t < |r.events| && IsTool(r.events[t])
    ensures forall i: nat :: Lands(r, t, ByFrame(i)) <==>
              Innermost(r.events, t, i) || (NoneInFlight(r.events, t) && Absorbs(r, t + 1, i))
    ensures forall p :: Lands(r, t, ByPhase(p)) <==>
              NoneInFlight(r.events, t) && NoneAbsorbs(r, t + 1) && PhaseRow(r, t + 1, p)
  {
    hide *;
    ToolSpotCases(r, t);
    NoneIs(r.events, t);
    forall i: nat ensures Lands(r, t, ByFrame(i)) <==>
                  Innermost(r.events, t, i) || (NoneInFlight(r.events, t) && Absorbs(r, t + 1, i))
    {
      InnermostIs(r.events, t, i);
      ActiveLaw(r, t + 1, i);
    }
    NoneAbsorbsIs(r, t + 1);
    PhaseRowIs(r, t + 1);
  }

  lemma ToolSpotCases(r: Run, t: nat)
    requires t < |r.events| && IsTool(r.events[t])
    ensures var open := OpenAt(r.events, t);
            forall o :: Lands(r, t, o) <==>
                        o == if open != [] then ByFrame(open[|open| - 1])
                             else if ActiveAt(r, t + 1).Some? then ByFrame(ActiveAt(r, t + 1).value)
                             else ByPhase(GetOr(PhaseAt(r, t + 1), "_orchestration"))
  {
    hide OpenAt, ActiveAt, PhaseAt;
  }

  lemma NoneAbsorbsIs(r: Run, k: nat)
    requires k <= |r.events|
    ensures ActiveAt(r, k).None? <==> NoneAbsorbs(r, k)
  {
    hide Absorbs, ActiveAt;
    forall i: nat ensures ActiveAt(r, k) == Some(i) <==> Absorbs(r, k, i) {
      ActiveLaw(r, k, i);
    }
    if ActiveAt(r, k).Some? {
      assert Absorbs(r, k, ActiveAt(r, k).value);
    }
  }

  lemma PhaseRowIs(r: Run, k: nat)
    requires k <= |r.events|
    ensures forall p :: GetOr(PhaseAt(r, k), "_orchestration") == p <==> PhaseRow(r, k, p)
    ensures forall p :: BucketName(PhaseAt(r, k)) == p <==> NamedRow(r, k, p)
    ensures PhaseAt(r, k).None? <==> NoPhase(r, k)
  {
    hide InPhase, PhaseAt;
    forall p ensures PhaseAt(r, k) == Some(p) <==> InPhase(r, k, p) {
      PhaseLaw(r, k, p);
    }
    if PhaseAt(r, k).Some? {
      assert InPhase(r, k, PhaseAt(r, k).value);
    }
  }

  // ----- Turns --------------------------------------------------------------------------------------------

  /** The message of turn t makes no dispatch. */
  ghost predicate DispatchesNothing(r: Run, t: nat)
    requires t < |r.events|
  {
    forall j | 0 <= j < |r.events| && IsDispatch(r.events[j]) :: !SameUuid(r.events[t], r.events[j])
  }

  lemma ParksIs(r: Run, t: nat)
    requires t < |r.events| && r.events[t].AssistantTurn?
    ensures Parks(r)[t] <==> NoneInFlight(r.events, t) && !DispatchesNothing(r, t)
  {
    hide OpenAt, NoneInFlight;
    NoneIs(r.events, t);
    if Truthy(r.events[t].uuid) {
      var u := r.events[t].uuid.value;
      forall j | 0 <= j < |r.events| && IsDispatch(r.events[j]) ensures HasUuid(r.events[j], u) <==> SameUuid(r.events[t], r.events[j]) {
      }
    }
  }

  /** A turn inside a skill is the innermost one's; at top level, one whose
      message makes no dispatch is the skill's that absorbs it, else the phase's. */
  lemma TurnLaw(r: Run, t: nat)
    requires t < |r.events| && r.events[t].AssistantTurn? && (NoneInFlight(r.events, t) ==> DispatchesNothing(r, t))
    ensures forall i: nat :: TurnOwner(r, t) == ByFrame(i) <==>
              Innermost(r.events, t, i) || (NoneInFlight(r.events, t) && Absorbs(r, t, i))
    ensures forall p :: TurnOwner(r, t) == ByPhase(p) <==>
              NoneInFlight(r.events, t) && NoneAbsorbs(r, t) && NamedRow(r, t, p)
  {
    hide *;
    ParksIs(r, t);
    TurnCases(r, t);
    NoneIs(r.events, t);
    forall i: nat ensures TurnOwner(r, t) == ByFrame(i) <==>
                  Innermost(r.events, t, i) || (NoneInFlight(r.events, t) && Absorbs(r, t, i))
    {
      InnermostIs(r.events, t, i);
      ActiveLaw(r, t, i);
    }
    NoneAbsorbsIs(r, t);
    PhaseRowIs(r, t);
  }

  lemma TurnCases(r: Run, t: nat)
    requires t < |r.events| && r.events[t].AssistantTurn? && !Parks(r)[t]
    ensures var open := OpenAt(r.events, t);
            TurnOwner(r, t) == if open != [] then ByFrame(open[|open| - 1])
                               else if ActiveAt(r, t).Some? then ByFrame(ActiveAt(r, t).value)
                               else ByPhase(BucketName(PhaseAt(r, t)))
  {
    hide OpenAt, ActiveAt, PhaseAt, Parks;
  }

  /** At top level, a turn whose message goes on to make a dispatch is that skill's. */
  lemma DispatchTurnLaw(r: Run, t: nat, j: nat)
    requires t < j < |r.events| && r.events[t].AssistantTurn? && NoneInFlight(r.events, t)
    requires IsDispatch(r.events[j]) && SameUuid(r.events[t], r.events[j])
    requires forall m | t < m < j && SameUuid(r.events[t], r.events[m]) :: !IsDispatch(r.events[m]) && !r.events[m].AssistantTurn?
    ensures TurnOwner(r, t) == ByFrame(j)
  {
    hide OpenAt, NoneInFlight, ActiveAt, PhaseAt;
    var u := r.events[t].uuid.value;
    ParksIs(r, t);
    assert !DispatchesNothing(r, t);
    NoneIs(r.events, t);
    var next := NextClaim(r.events, Parks(r), u, t + 1);
    assert Claims(r.events, Parks(r), u, j);
    forall m | t < m < j ensures !Claims(r.events, Parks(r), u, m) {
      assert HasUuid(r.events[m], u) ==> SameUuid(r.events[t], r.events[m]);
    }
  }

  /** Narration rows: turns with text, at top level, whose message makes no dispatch. */
  lemma SaysLaw(r: Run, t: nat)
    requires t < |r.events|
    ensures forall o :: Says(r, t, o) <==>
              r.events[t].AssistantTurn? && r.events[t].text != "" && NoneInFlight(r.events, t) && DispatchesNothing(r, t)
              && TurnOwner(r, t) == o
  {
    hide OpenAt, NoneInFlight, TurnOwner, Parks, DispatchesNothing;
    NoneIs(r.events, t);
    if r.events[t].AssistantTurn? {
      ParksIs(r, t);
    }
  }

  // ----- Results ------------------------------------------------------------------------------------------

  /** An error result that names no skill in flight is looked up where work lands at that moment. */
  lemma ErrorLaw(r: Run, j: nat)
    requires j < |r.events| && r.events[j].ToolResult?
    ensures var stray := r.events[j].isError
                         && forall m | 0 <= m < j && InFlightAt(r.events, m, j) :: Some(FrameId(r.events[m])) != r.events[j].matched;
            (forall i: nat :: ErrorAt(r, j, ByFrame(i)) <==>
               stray && (Innermost(r.events, j, i) || (NoneInFlight(r.events, j) && Absorbs(r, j, i))))
            && (forall p :: ErrorAt(r, j, ByPhase(p)) <==>
                  stray && NoneInFlight(r.events, j) && NoneAbsorbs(r, j) && NamedRow(r, j, p))
  {
    hide *;
    ErrorCases(r, j);
    ClosesNothing(r.events, j, r.events[j].matched);
    NoneIs(r.events, j);
    forall i: nat ensures Innermost(r.events, j, i) <==> OpenAt(r.events, j) != [] && OpenAt(r.events, j)[|OpenAt(r.events, j)| - 1] == i
      ensures ActiveAt(r, j) == Some(i) <==> Absorbs(r, j, i)
    {
      InnermostIs(r.events, j, i);
      ActiveLaw(r, j, i);
    }
    NoneAbsorbsIs(r, j);
    PhaseRowIs(r, j);
  }

  lemma ErrorCases(r: Run, j: nat)
    requires j < |r.events| && r.events[j].ToolResult?
    ensures var open, miss := OpenAt(r.events, j), LastWith(r.events, OpenAt(r.events, j), r.events[j].matched) < 0;
            forall o :: ErrorAt(r, j, o) <==>
                        r.events[j].isError && miss
                        && o == if open != [] then ByFrame(open[|open| - 1])
                                else if ActiveAt(r, j).Some? then ByFrame(ActiveAt(r, j).value)
                                else ByPhase(BucketName(PhaseAt(r, j)))
  {
    hide OpenAt, ActiveAt, PhaseAt, LastWith;
  }

  // ----- Skills --------------------------------------------------------------------------------------------

  /** A skill that ends is listed under the innermost one then in flight; one
      that never ends, under the last earlier one that never does. */
  lemma ParentLaw(r: Run, i: nat)
    requires i < |r.events| && IsDispatch(r.events[i])
    ensures ClosedBy(r.events, i).Some? ==>
              forall q: nat :: ParentOf(r, i) == Some(q) <==> Innermost(r.events, ClosedBy(r.events, i).value + 1, q)
    ensures ClosedBy(r.events, i).None? ==>
              forall q: nat :: ParentOf(r, i) == Some(q) <==> NextBelow(r.events, q, i)
  {
    hide OpenAt, ClosedBy, Innermost, Below, NextBelow;
    match ClosedBy(r.events, i) {
      case Some(j) =>
        forall q: nat ensures ParentOf(r, i) == Some(q) <==> Innermost(r.events, j + 1, q) {
          InnermostIs(r.events, j + 1, q);
        }
      case None =>
        forall q: nat ensures ParentOf(r, i) == Some(q) <==> NextBelow(r.events, q, i) {
          LowerIs(r.events, q, i);
        }
    }
  }

  ghost predicate Unending(events: seq<CostEvent>, i: nat) {
    i < |events| && IsDispatch(events[i]) && ClosedBy(events, i).None?
  }

  ghost predicate NextBelow(events: seq<CostEvent>, q: nat, i: nat) {
    q < i && Unending(events, q) && forall m | q < m < i :: !Unending(events, m)
  }

  lemma UnendingIs(events: seq<CostEvent>, i: nat)
    ensures Unending(events, i) <==> i in OpenAt(events, |events|)
  {
    hide OpenAt, Scan;
    if i < |events| && IsDispatch(events[i]) {
      InFlight(events, |events|, i);
    }
  }

  lemma LowerIs(events: seq<CostEvent>, q: nat, i: nat)
    requires Unending(events, i)
    ensures Below(OpenAt(events, |events|), i) == Some(q) <==> NextBelow(events, q, i)
  {
    var open := OpenAt(events, |events|);
    assert Ascending(open);
    UnendingIs(events, i);
    forall m: nat ensures Unending(events, m) <==> m in open {
      UnendingIs(events, m);
    }
    hide OpenAt, Unending;
    BelowIs(open, i, q);
    hide Below;
    forall m: nat | q < m < i ensures Unending(events, m) <==> m in open {
    }
  }

  ghost predicate JustBelow(open: seq<nat>, q: nat, i: nat) {
    q in open && q < i && forall m: nat | q < m < i :: m !in open
  }

  lemma {:induction false} BelowIs(open: seq<nat>, i: nat, q: nat)
    requires Ascending(open) && i in open
    ensures Below(open, i) == Some(q) <==> JustBelow(open, q, i)
  {
    hide JustBelow;
    var n := |open| - 1;
    if open[n] == i {
      LastBelow(open, q);
    } else {
      EarlierBelow(open, q, i);
      BelowIs(open[..n], i, q);
    }
  }

  lemma LastBelow(open: seq<nat>, q: nat)
    requires Ascending(open) && open != []
    ensures var n := |open| - 1;
            JustBelow(open, q, open[n]) <==> n > 0 && q == open[n - 1]
  {
    var n := |open| - 1;
    if n > 0 {
      assert open[n - 1] in open;
      forall m: nat | open[n - 1] < m < open[n] ensures m !in open {
      }
    }
  }

  lemma EarlierBelow(open: seq<nat>, q: nat, i: nat)
    requires Ascending(open) && i in open && open[|open| - 1] != i
    ensures i in open[..|open| - 1] && (JustBelow(open, q, i) <==> JustBelow(open[..|open| - 1], q, i))
  {
    var n := |open| - 1;
    forall m: nat | m < open[n] ensures m in open <==> m in open[..n] {
      if m in open {
        var k :| 0 <= k < |open| && open[k] == m;
        assert open[..n][k] == m;
      }
    }
    assert i < open[n];
  }

  /** A skill's phase is its own in the registry; else that of the skill it is
      dispatched in; else the current one. */
  lemma SkillPhaseLaw(r: Run, i: nat)
    requires i < |r.events| && IsDispatch(r.events[i])
    ensures forall p :: Registers(r.index, r.events[i], p) ==> FramePhase(r, i) == p
    ensures Unregistered(r.index, r.events[i]) ==>
              (forall q: nat :: Innermost(r.events, i, q) ==> FramePhase(r, i) == FramePhase(r, q))
              && (NoneInFlight(r.events, i) ==>
                    (forall p :: InPhase(r, i, p) ==> FramePhase(r, i) == p) && (NoPhase(r, i) ==> FramePhase(r, i) == "_other"))
  {
    hide OpenAt, PhaseAt, Innermost, NoneInFlight, InPhase, NoPhase, InFlightAt;
    NoneIs(r.events, i);
    PhaseRowIs(r, i);
    forall q: nat ensures Innermost(r.events, i, q) <==> OpenAt(r.events, i) != [] && OpenAt(r.events, i)[|OpenAt(r.events, i)| - 1] == q {
      InnermostIs(r.events, i, q);
    }
    forall p ensures PhaseAt(r, i) == Some(p) <==> InPhase(r, i, p) {
      PhaseLaw(r, i, p);
    }
  }

  /** A top-level skill stands in the row of its phase; one that ends and has a
      phase without a name, in the orchestration's. */
  lemma HomeLaw(r: Run, i: nat)
    requires i < |r.events| && IsDispatch(r.events[i])
    ensures HomeOf(r, i) == if FramePhase(r, i) == "" && ClosedBy(r.events, i).Some? then "_orchestration" else FramePhase(r, i)
  {
    hide FramePhase, ClosedBy;
  }
}
