/** Which agent may take a task. */
module Registry {
  import opened Ordering
  import opened Scopes

  datatype AgentKind = SupervisorKind | SpecialistKind | SubagentKind

  datatype AgentDefinition = AgentDefinition(
    agentId: string,
    kind: AgentKind,
    role: string,
    enabled: bool,
    taskTypes: seq<string>,
    allowed: seq<Scope>)

  predicate AgentValid(a: AgentDefinition) {
    && a.agentId != ""
    && a.taskTypes != [] && Distinct(a.taskTypes)
    && a.allowed != [] && Distinct(a.allowed) && AllNormal(a.allowed)
    && (a.kind == SupervisorKind ==> a.role == "supervisor")
  }

  /** What a registry document must satisfy to load: valid agents, one identifier each, and exactly one supervisor. */
  predicate RegistryValid(agents: seq<AgentDefinition>) {
    && (forall a | a in agents :: AgentValid(a))
    && (forall i, j | 0 <= i < j < |agents| :: agents[i].agentId != agents[j].agentId)
    && (exists a | a in agents :: a.kind == SupervisorKind)
    && (forall i, j | 0 <= i < j < |agents| :: agents[i].kind != SupervisorKind || agents[j].kind != SupervisorKind)
  }

  datatype Selection = Selected(agent: AgentDefinition) | NoneAvailable | Unauthorised

  datatype PathCheck = AllAllowed | SomeDenied | NotConcrete

  /** Paths are checked in order; a subtree is not a concrete path and is an error when reached. */
  function CheckPaths(a: AgentDefinition, files: seq<Scope>): PathCheck {
    if files == [] then AllAllowed
    else if files[0].subtree then NotConcrete
    else if !PathIsAllowed(Join(files[0].parts), a.allowed) then SomeDenied
    else CheckPaths(a, files[1..])
  }

  predicate Fits(a: AgentDefinition, role: string, taskType: string, active: set<string>) {
    a.enabled && a.agentId !in active && a.role == role && taskType in a.taskTypes
  }

  predicate IsCandidate(a: AgentDefinition, role: string, taskType: string, active: set<string>, files: seq<Scope>) {
    Fits(a, role, taskType, active) && CheckPaths(a, files) == AllAllowed
  }

  /** An agent allowed every path covers all of them. */
  lemma {:induction false} AllowedMeansCovered(a: AgentDefinition, files: seq<Scope>)
    requires CheckPaths(a, files) == AllAllowed && AllNormal(files) && AllNormal(a.allowed)
    ensures forall f | f in files :: !f.subtree && CoveredBy(a.allowed, f.parts)
  {
    if files != [] {
      assert files == [files[0]] + files[1..];
      AllowedIffCovered(files[0].parts, a.allowed);
      AllowedMeansCovered(a, files[1..]);
    }
  }

  /** The eligible agent with the smallest identifier. */
  method Select(agents: seq<AgentDefinition>, role: string, active: set<string>, taskType: string, files: seq<Scope>)
    returns (r: Selection)
    ensures r.Selected? ==>
              && r.agent in agents && IsCandidate(r.agent, role, taskType, active, files)
              && forall a | a in agents :: IsCandidate(a, role, taskType, active, files) ==> AtMost(r.agent.agentId, a.agentId)
    ensures r.NoneAvailable? ==> forall a | a in agents :: !IsCandidate(a, role, taskType, active, files)
    ensures r.Unauthorised? <==> exists a | a in agents :: Fits(a, role, taskType, active) && CheckPaths(a, files) == NotConcrete
  {
    r := NoneAvailable;
    AtMostIsTotalPreorder();
    for i := 0 to |agents|
      invariant !r.Unauthorised?
      invariant forall a | a in agents[..i] :: !(Fits(a, role, taskType, active) && CheckPaths(a, files) == NotConcrete)
      invariant r.NoneAvailable? ==> forall a | a in agents[..i] :: !IsCandidate(a, role, taskType, active, files)
      invariant r.Selected? ==>
                  && r.agent in agents && IsCandidate(r.agent, role, taskType, active, files)
                  && forall a | a in agents[..i] :: IsCandidate(a, role, taskType, active, files) ==> AtMost(r.agent.agentId, a.agentId)
    {
      var a := agents[i];
      assert agents[..i + 1] == agents[..i] + [a];
      if Fits(a, role, taskType, active) {
        match CheckPaths(a, files)
        case NotConcrete => return Unauthorised;
        case SomeDenied =>
        case AllAllowed =>
          if r.NoneAvailable? || Before(a.agentId, r.agent.agentId) {
            r := Selected(a);
          }
      }
    }
    assert agents[..|agents|] == agents;
  }
}
