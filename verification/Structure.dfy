/**
 The rules of the structure tree of apps/ingest/structure_aggregator.py, read
 off the event stream: which frames are in flight, which finished top-level
 skill absorbs later work, which phase is current, and so whose every turn,
 tool and skill is.
 */
module Structure {
  import opened Options
  import opened Transcript
  import opened Matching
  import opened Attribution
  import opened Registry

  /** The registry and the stream it is applied to. */
  datatype Run = Run(index: Index, events: seq<CostEvent>)

  predicate IsTool(e: CostEvent) {
    e.ToolUse? && !IsDispatch(e)
  }

  // ----- Phases -----------------------------------------------------------

  /** Task numbers and the phases their subjects name, after k events: tasks
      are numbered by the order in which they were created. */
  function TaskPhases(r: Run, k: nat): (int, map<nat, string>)
    requires k <= |r.events|
    ensures TaskPhases(r, k).0 >= 0
  {
    if k == 0 then (0, map[])
    else
      var (count, phases) := TaskPhases(r, k - 1);
      var e := r.events[k - 1];
      if !(e.ToolUse? && e.name == Some("TaskCreate")) then (count, phases)
      else (count + 1, AddTask(r.index, e, count + 1, phases))
  }

  function AddTask(index: Index, e: CostEvent, number: nat, phases: map<nat, string>): map<nat, string>
    requires e.ToolUse?
  {
    if e.toolInput.subjectSlug.Some? && Lookup(index, e.toolInput.subjectSlug.value).Some?
    then phases[number := Lookup(index, e.toolInput.subjectSlug.value).value]
    else phases
  }

  /** The phase a tool use opens by marking its task in progress, "" for none. */
  function MarkedPhase(tasks: map<nat, string>, e: CostEvent): string {
    if e.ToolUse? && e.name == Some("TaskUpdate") && e.toolInput.status == Some("in_progress")
       && e.toolInput.taskId.Some? && e.toolInput.taskId.value in tasks
    then tasks[e.toolInput.taskId.value]
    else ""
  }

  /** At top level, event k marks a phase. */
  ghost function Marks(r: Run, k: nat): string
    requires k < |r.events|
  {
    if OpenAt(r.events, k) == [] then MarkedPhase(TaskPhases(r, |r.events|).1, r.events[k]) else ""
  }

  /** The phase cursor after k events: a registered top-level dispatch or a marker moves it. */
  ghost function PhaseAt(r: Run, k: nat): Option<string>
    requires k <= |r.events|
  {
    if k == 0 then None
    else
      var e := r.events[k - 1];
      if IsDispatch(e) && OpenAt(r.events, k - 1) == [] && Lookup(r.index, SkillName(e)).Some? then Lookup(r.index, SkillName(e))
      else if Marks(r, k - 1) != "" then Some(Marks(r, k - 1))
      else PhaseAt(r, k - 1)
  }

  // ----- The active top-level skill ------------------------------------------

  /** The finished top-level skill that absorbs inline work after k events: the
      last one to leave no frame in flight, until a dispatch or a new phase. */
  ghost function ActiveAt(r: Run, k: nat): (active: Option<nat>)
    requires k <= |r.events|
    ensures active.Some? ==> active.value < k && IsDispatch(r.events[active.value])
    ensures active.Some? ==> OpenAt(r.events, k) == []
  {
    if k == 0 then None
    else
      var e, open, active := r.events[k - 1], OpenAt(r.events, k - 1), ActiveAt(r, k - 1);
      if IsDispatch(e) then None
      else if Marks(r, k - 1) != "" && Some(Marks(r, k - 1)) != PhaseAt(r, k - 1) then None
      else if e.ToolResult? && |open| == 1 && OpenAt(r.events, k) == [] then Some(open[0])
      else active
  }

  // ----- Owners ------------------------------------------------------------------

  const ORCHESTRATION := "_orchestration"

  /** The bucket of work that no skill has claimed. */
  function BucketName(phase: Option<string>): string {
    if Truthy(phase) then phase.value else ORCHESTRATION
  }

  /** A dispatch turn at top level is parked for the frame it opens. */
  ghost function Parks(r: Run): (d: seq<bool>)
    ensures |d| == |r.events|
  {
    seq(|r.events|, t requires 0 <= t < |r.events| =>
      r.events[t].AssistantTurn? && OpenAt(r.events, t) == []
      && Truthy(r.events[t].uuid) && r.events[t].uuid.value in DispatchUuids(r.events))
  }

  ghost function TurnOwner(r: Run, t: nat): Owner
    requires t < |r.events|
  {
    var open := OpenAt(r.events, t);
    if !r.events[t].AssistantTurn? then Nobody
    else if open != [] then ByFrame(open[|open| - 1])
    else if Parks(r)[t] then Adopter(r.events, Parks(r), t)
    else if ActiveAt(r, t).Some? then ByFrame(ActiveAt(r, t).value)
    else ByPhase(BucketName(PhaseAt(r, t)))
  }

  ghost function TurnOwners(r: Run): (o: seq<Owner>)
    ensures |o| == |r.events|
  {
    seq(|r.events|, t requires 0 <= t < |r.events| => TurnOwner(r, t))
  }

  ghost function OwnShare(r: Run, k: nat, o: Owner): Tokens
    requires k <= |r.events|
  {
    Share(r.events, TurnOwners(r), k, {o})
  }

  lemma TurnOwnersAttribute(r: Run)
    ensures Attributes(r.events, TurnOwners(r), Parks(r))
  {
    forall t | 0 <= t < |r.events| && !Parks(r)[t] && TurnOwners(r)[t].ByFrame?
      ensures TurnOwners(r)[t].at < t
    {
      OwnerBefore(r, t);
    }
  }

  lemma OwnerBefore(r: Run, t: nat)
    requires t < |r.events| && !Parks(r)[t] && TurnOwner(r, t).ByFrame?
    ensures TurnOwner(r, t).at < t
    ensures TurnOwner(r, t).at in OpenAt(r.events, t) || ActiveAt(r, t) == Some(TurnOwner(r, t).at)
  {
    hide OpenAt, ActiveAt;
  }

  // ----- The shape of the tree -------------------------------------------------------

  /** The phase of a frame: its skill's, else that of the frame it opens in,
      else the current one. */
  ghost function FramePhase(r: Run, i: nat): string
    requires i < |r.events| && IsDispatch(r.events[i])
    decreases i
  {
    var open, entry := OpenAt(r.events, i), Lookup(r.index, SkillName(r.events[i]));
    if entry.Some? then entry.value
    else if open != [] then FramePhase(r, open[|open| - 1])
    else GetOr(PhaseAt(r, i), "_other")
  }

  /** The bucket of a top-level skill. */
  ghost function HomeOf(r: Run, i: nat): string
    requires i < |r.events| && IsDispatch(r.events[i])
  {
    if ClosedBy(r.events, i).Some? then BucketName(Some(FramePhase(r, i))) else FramePhase(r, i)
  }

  /** The skill under which a finished skill is listed: the newest frame still
      in flight; for a frame the stream never closes, the frame below it. */
  ghost function ParentOf(r: Run, i: nat): Option<nat>
    requires i < |r.events| && IsDispatch(r.events[i])
  {
    match ClosedBy(r.events, i)
    case Some(j) =>
      Newest(OpenAt(r.events, j + 1))
    case None => Below(OpenAt(r.events, |r.events|), i)
  }

  function Newest(open: seq<nat>): Option<nat> {
    if open == [] then None else Some(open[|open| - 1])
  }

  /** The element before i in the list. */
  function Below(open: seq<nat>, i: nat): Option<nat> {
    if |open| < 2 then None
    else if open[|open| - 1] == i then Some(open[|open| - 2])
    else Below(open[..|open| - 1], i)
  }

  /** The skill under which a tool call is listed. */
  ghost function ToolParent(r: Run, t: nat): Option<nat>
    requires t < |r.events| && IsTool(r.events[t])
  {
    var open := OpenAt(r.events, t);
    if open != [] then Newest(open) else ActiveAt(r, t + 1)
  }

  datatype Status = Fine | Failed | Incomplete

  /** A skill is incomplete exactly when no result ever closed it, and failed
      exactly when the result that did is an error. */
  ghost function StatusOf(events: seq<CostEvent>, i: nat): Status
    requires i < |events| && IsDispatch(events[i])
  {
    match ClosedBy(events, i)
    case None => Incomplete
    case Some(j) => if events[j].isError then Failed else Fine
  }

  // ----- A skill that is neither open nor active never gains again ------------------------

  lemma {:induction false} ClosedStaysClosed(r: Run, i: nat, k: nat, n: nat)
    requires i < k <= n <= |r.events| && IsDispatch(r.events[i])
    requires i !in OpenAt(r.events, k) && ActiveAt(r, k) != Some(i)
    ensures i !in OpenAt(r.events, n) && ActiveAt(r, n) != Some(i)
    decreases n
  {
    hide *;
    if k < n {
      ClosedStaysClosed(r, i, k, n - 1);
      StaysClosed(r.events, i, n - 1);
      if ActiveAt(r, n).Some? {
        ActiveStep(r, n - 1);
      }
    }
  }

  lemma StaysClosed(events: seq<CostEvent>, i: nat, n: nat)
    requires i < n < |events| && IsDispatch(events[i]) && i !in OpenAt(events, n)
    ensures i !in OpenAt(events, n + 1)
  {
    hide OpenAt, Scan;
    InFlight(events, n, i);
    InFlight(events, n + 1, i);
    ScanSettled(events, i, n, n + 1);
  }

  /** Only a frame in flight can become active. */
  lemma ActiveStep(r: Run, n: nat)
    requires n < |r.events| && ActiveAt(r, n + 1).Some?
    ensures ActiveAt(r, n) == ActiveAt(r, n + 1) || ActiveAt(r, n + 1).value in OpenAt(r.events, n)
  {
    hide OpenAt, Marks, PhaseAt;
  }

  lemma {:induction false} Settled(r: Run, i: nat, k: nat, n: nat)
    requires i < k <= n <= |r.events| && IsDispatch(r.events[i])
    requires i !in OpenAt(r.events, k) && ActiveAt(r, k) != Some(i)
    ensures OwnShare(r, n, ByFrame(i)) == OwnShare(r, k, ByFrame(i))
    decreases n
  {
    if k < n {
      Settled(r, i, k, n - 1);
      ClosedStaysClosed(r, i, k, n - 1);
      NotOwner(r, i, n - 1);
      hide TurnOwner, OpenAt, ActiveAt;
      PlusEmpty(OwnShare(r, n - 1, ByFrame(i)));
    }
  }

  lemma NotOwner(r: Run, i: nat, t: nat)
    requires i < t < |r.events| && IsDispatch(r.events[i])
    requires i !in OpenAt(r.events, t) && ActiveAt(r, t) != Some(i)
    ensures TurnOwner(r, t) != ByFrame(i)
  {
    hide OpenAt, ActiveAt, PhaseAt;
  }
}
