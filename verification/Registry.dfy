/** Skill names and the phases the plugin registry maps them to. */
module Registry {
  import opened Options
  import opened Transcript
  import opened Matching

  /** Unprefixed skill or agent name -> phase. */
  type Index = map<string, string>

  /** What follows the first ':' of a name, if it has one. */
  function AfterColon(name: string): Option<string> {
    if name == "" then None
    else if name[0] == ':' then Some(name[1..])
    else AfterColon(name[1..])
  }

  /** The literal name first, then the name without its namespace. */
  function Lookup(index: Index, name: string): Option<string> {
    if name in index then Some(index[name])
    else
      match AfterColon(name)
      case Some(bare) => if bare in index then Some(index[bare]) else None
      case None => None
  }

  /** A name registered as it stands is looked up as it stands; any other, by what
      follows its first colon; and one without a colon is then not found. */
  lemma {:induction false} LookupLaw(index: Index, space: string, bare: string)
    requires ':' !in space
    ensures space + ":" + bare in index ==> Lookup(index, space + ":" + bare) == Some(index[space + ":" + bare])
    ensures space + ":" + bare !in index ==> Lookup(index, space + ":" + bare) == if bare in index then Some(index[bare]) else None
    ensures Lookup(index, space) == if space in index then Some(index[space]) else None
  {
    AfterFirstColon(space, bare);
  }

  lemma {:induction false} AfterFirstColon(space: string, bare: string)
    requires ':' !in space
    ensures AfterColon(space + ":" + bare) == Some(bare) && AfterColon(space) == None
  {
    if space == "" {
      assert space + ":" + bare == ":" + bare;
      assert (":" + bare)[1..] == bare;
    } else {
      AfterFirstColon(space[1..], bare);
      assert (space + ":" + bare)[1..] == space[1..] + ":" + bare;
    }
  }

  function SkillName(e: CostEvent): string
    requires e.ToolUse?
  {
    if Truthy(e.toolInput.skill) then e.toolInput.skill.value
    else if Truthy(e.toolInput.subagentType) then e.toolInput.subagentType.value
    else "(unknown)"
  }
}
