// The domain fleet: the wire spec after every name, repository, version,
// branch and sandbox block has been validated, and the way back.
module Fleets {
  import opened Basics
  import opened Order
  import opened AgentTypes
  import opened JsonValues
  import opened Names
  import opened Sandboxes

  datatype Identity = Identity(name: string, email: string)

  datatype GitAuth = Gh | NoAuth

  datatype GitSettings = GitSettings(push: bool, auth: GitAuth, identity: Option<Identity>)

  datatype CrewSpec = CrewSpec(
    repo: string,
    gitRef: string,
    git: GitSettings,
    tools: map<string, string>,
    agents: map<string, AgentSettings>)

  datatype FleetSpec = FleetSpec(name: string, tools: map<string, string>, crews: map<string, CrewSpec>)

  datatype Crew = Crew(
    repo: RepoRef,
    gitRef: string,
    git: GitSettings,
    tools: map<string, string>,
    agents: map<string, AgentSettings>)

  datatype Fleet = Fleet(name: string, tools: map<string, string>, crews: map<string, Crew>)

  // A tmux window of the runtime's own has this name.
  const RESERVED_AGENT_NAME: string := "balerix"

  // What a refused spec is refused for, and where.
  datatype FleetError =
    | BadFleetName
    | BadTools(at: seq<string>)
    | BadCrewName(crew: string)
    | BadRepo(crew: string)
    | EmptyRef(crew: string)
    | EmptyIdentity(crew: string)
    | ReservedName(crew: string, agent: string)
    | BadAgentName(crew: string, agent: string)
    | BadBranch(crew: string, agent: string)
    | BadSandbox(crew: string, agent: string)

  predicate ToolsExact(tools: map<string, string>) {
    forall t :: t in tools ==> IsExactVersion(tools[t])
  }

  predicate Blank(s: string) {
    forall i :: 0 <= i < |s| ==> IsWhitespace(s[i])
  }

  predicate IdentityOk(git: GitSettings) {
    git.identity.Some? ==> !Blank(git.identity.value.name) && !Blank(git.identity.value.email)
  }

  predicate BranchOk(s: AgentSettings) {
    s.branch.Some? ==> ValidBranch(s.branch.value)
  }

  predicate SandboxOk(s: AgentSettings) {
    BlockOk(RulesOf(Policy.Fleet), s.sandbox)
  }

  predicate AgentOk(name: string, s: AgentSettings) {
    && name != RESERVED_AGENT_NAME
    && ValidName(name)
    && BranchOk(s)
    && ToolsExact(s.tools)
    && SandboxOk(s)
  }

  predicate CrewOk(crew: CrewSpec) {
    && ParseRepo(crew.repo).Some?
    && crew.gitRef != ""
    && IdentityOk(crew.git)
    && ToolsExact(crew.tools)
    && forall a {:trigger AgentOk(a, crew.agents[a])} :: a in crew.agents ==> AgentOk(a, crew.agents[a])
  }

  predicate CrewEntryOk(name: string, crew: CrewSpec) {
    ValidName(name) && CrewOk(crew)
  }

  predicate SpecOk(spec: FleetSpec) {
    && ValidName(spec.name)
    && ToolsExact(spec.tools)
    && forall c {:trigger CrewEntryOk(c, spec.crews[c])} :: c in spec.crews ==> CrewEntryOk(c, spec.crews[c])
  }

  // The spec has the fault the error names.
  predicate Blames(spec: FleetSpec, e: FleetError) {
    match e
    case BadFleetName => !ValidName(spec.name)
    case BadCrewName(c) => c in spec.crews && !ValidName(c)
    case BadRepo(c) => c in spec.crews && ParseRepo(spec.crews[c].repo).None?
    case EmptyRef(c) => c in spec.crews && spec.crews[c].gitRef == ""
    case EmptyIdentity(c) => c in spec.crews && !IdentityOk(spec.crews[c].git)
    case BadTools(at) =>
      || (at == [] && !ToolsExact(spec.tools))
      || (|at| == 1 && at[0] in spec.crews && !ToolsExact(spec.crews[at[0]].tools))
      || (|at| == 2 && HasAgent(spec, at[0], at[1]) && !ToolsExact(spec.crews[at[0]].agents[at[1]].tools))
    case ReservedName(c, a) => HasAgent(spec, c, a) && a == RESERVED_AGENT_NAME
    case BadAgentName(c, a) => HasAgent(spec, c, a) && !ValidName(a)
    case BadBranch(c, a) => HasAgent(spec, c, a) && !BranchOk(spec.crews[c].agents[a])
    case BadSandbox(c, a) => HasAgent(spec, c, a) && !SandboxOk(spec.crews[c].agents[a])
  }

  predicate HasAgent(spec: FleetSpec, crew: string, agent: string) {
    crew in spec.crews && agent in spec.crews[crew].agents
  }

  function ToCrew(crew: CrewSpec): Crew
    requires CrewOk(crew)
  {
    Crew(ParseRepo(crew.repo).value, crew.gitRef, crew.git, crew.tools, crew.agents)
  }

  function ToFleet(spec: FleetSpec): (fleet: Fleet)
    requires SpecOk(spec)
    ensures fleet.crews.Keys == spec.crews.Keys
  {
    Fleet.Fleet(spec.name, spec.tools, map c | c in spec.crews && CrewEntryOk(c, spec.crews[c]) :: ToCrew(spec.crews[c]))
  }

  function FromCrew(crew: Crew): CrewSpec {
    CrewSpec(CloneUrl(crew.repo), crew.gitRef, crew.git, crew.tools, crew.agents)
  }

  function FromFleet(fleet: Fleet): FleetSpec {
    FleetSpec(fleet.name, fleet.tools, map c | c in fleet.crews :: FromCrew(fleet.crews[c]))
  }

  method ConvertAgent(crew: string, name: string, s: AgentSettings) returns (e: Option<FleetError>)
    ensures e.None? <==> AgentOk(name, s)
    ensures e.Some? ==> match e.value
      case ReservedName(c, a) => c == crew && a == name && name == RESERVED_AGENT_NAME
      case BadAgentName(c, a) => c == crew && a == name && !ValidName(name)
      case BadBranch(c, a) => c == crew && a == name && !BranchOk(s)
      case BadTools(at) => at == [crew, name] && !ToolsExact(s.tools)
      case BadSandbox(c, a) => c == crew && a == name && !SandboxOk(s)
      case _ => false
  {
    if name == RESERVED_AGENT_NAME {
      return Some(ReservedName(crew, name));
    }
    if !ValidName(name) {
      return Some(BadAgentName(crew, name));
    }
    if !BranchOk(s) {
      return Some(BadBranch(crew, name));
    }
    if !ToolsExact(s.tools) {
      return Some(BadTools([crew, name]));
    }
    var grants := CheckSandboxBlock(Policy.Fleet, s.sandbox);
    if grants.None? {
      return Some(BadSandbox(crew, name));
    }
    return None;
  }

  method ConvertCrew(spec: FleetSpec, name: string) returns (r: Result<Crew, FleetError>)
    requires name in spec.crews
    ensures r.Ok? <==> CrewOk(spec.crews[name])
    ensures r.Ok? ==> r.value == ToCrew(spec.crews[name])
    ensures r.Err? ==> Blames(spec, r.error)
  {
    var crew := spec.crews[name];
    var repo := ParseRepo(crew.repo);
    if repo.None? {
      return Err(BadRepo(name));
    }
    if crew.gitRef == "" {
      return Err(EmptyRef(name));
    }
    if !IdentityOk(crew.git) {
      return Err(EmptyIdentity(name));
    }
    if !ToolsExact(crew.tools) {
      return Err(BadTools([name]));
    }
    var agents: map<string, AgentSettings> := map[];
    var todo := crew.agents.Keys;
    while todo != {}
      invariant todo <= crew.agents.Keys
      invariant agents == map a | a in crew.agents && a !in todo :: crew.agents[a]
      invariant forall a {:trigger AgentOk(a, crew.agents[a])} :: a in agents ==> AgentOk(a, crew.agents[a])
      decreases todo
    {
      var a :| a in todo;
      var fault := ConvertAgent(name, a, crew.agents[a]);
      if fault.Some? {
        assert HasAgent(spec, name, a);
        return Err(fault.value);
      }
      agents := agents[a := crew.agents[a]];
      todo := todo - {a};
    }
    assert agents == crew.agents;
    return Ok(Crew(repo.value, crew.gitRef, crew.git, crew.tools, agents));
  }

  // The crews converted so far: all but those still to do.
  ghost predicate CrewsRead(spec: FleetSpec, todo: set<string>, crews: map<string, Crew>) {
    && todo <= spec.crews.Keys
    && crews.Keys == spec.crews.Keys - todo
    && forall c {:trigger crews[c]} :: c in crews ==> CrewEntryOk(c, spec.crews[c]) && crews[c] == ToCrew(spec.crews[c])
  }

  lemma AllCrewsRead(spec: FleetSpec, crews: map<string, Crew>)
    requires CrewsRead(spec, {}, crews)
    ensures forall c {:trigger CrewEntryOk(c, spec.crews[c])} :: c in spec.crews ==> CrewEntryOk(c, spec.crews[c])
    ensures crews == map c | c in spec.crews && CrewEntryOk(c, spec.crews[c]) :: ToCrew(spec.crews[c])
  {
    forall c | c in spec.crews ensures CrewEntryOk(c, spec.crews[c]) {
      assert c in crews;
      assert crews[c] == crews[c];
    }
  }

  // The fleet is the spec, each repository read and everything else as it was.
  ghost predicate Carries(spec: FleetSpec, fleet: Fleet) {
    && fleet.name == spec.name && fleet.tools == spec.tools
    && fleet.crews.Keys == spec.crews.Keys
    && (forall c {:trigger fleet.crews[c]} :: c in fleet.crews ==>
      && ParseRepo(spec.crews[c].repo) == Some(fleet.crews[c].repo)
      && fleet.crews[c].gitRef == spec.crews[c].gitRef
      && fleet.crews[c].git == spec.crews[c].git
      && fleet.crews[c].tools == spec.crews[c].tools
      && fleet.crews[c].agents == spec.crews[c].agents)
  }

  lemma ToFleetCarries(spec: FleetSpec)
    requires SpecOk(spec)
    ensures Carries(spec, ToFleet(spec))
  {
    var fleet := ToFleet(spec);
    forall c | c in fleet.crews
      ensures ParseRepo(spec.crews[c].repo) == Some(fleet.crews[c].repo)
      ensures fleet.crews[c].gitRef == spec.crews[c].gitRef && fleet.crews[c].git == spec.crews[c].git
      ensures fleet.crews[c].tools == spec.crews[c].tools && fleet.crews[c].agents == spec.crews[c].agents
    {
      assert CrewEntryOk(c, spec.crews[c]);
      assert fleet.crews[c] == ToCrew(spec.crews[c]);
    }
  }

  // And the spec written from a fleet is the fleet, each repository as its URL.
  lemma FromFleetWrites(fleet: Fleet)
    ensures var spec := FromFleet(fleet);
      && spec.name == fleet.name && spec.tools == fleet.tools && spec.crews.Keys == fleet.crews.Keys
      && forall c :: c in fleet.crews ==>
        spec.crews[c] == CrewSpec(CloneUrl(fleet.crews[c].repo), fleet.crews[c].gitRef, fleet.crews[c].git,
          fleet.crews[c].tools, fleet.crews[c].agents)
  {
  }

  // `Fleet::try_from`: accepts exactly the specs without a fault, and names
  // a fault of any other.
  method TryFrom(spec: FleetSpec) returns (r: Result<Fleet, FleetError>)
    ensures r.Ok? <==> SpecOk(spec)
    ensures r.Ok? ==> r.value == ToFleet(spec) && Carries(spec, r.value)
    ensures r.Err? ==> Blames(spec, r.error)
  {
    if !ValidName(spec.name) {
      return Err(BadFleetName);
    }
    if !ToolsExact(spec.tools) {
      return Err(BadTools([]));
    }
    var crews: map<string, Crew> := map[];
    var todo := spec.crews.Keys;
    while todo != {}
      invariant CrewsRead(spec, todo, crews)
      decreases todo
    {
      var c :| c in todo;
      if !ValidName(c) {
        assert !CrewEntryOk(c, spec.crews[c]);
        return Err(BadCrewName(c));
      }
      var crew := ConvertCrew(spec, c);
      if crew.Err? {
        assert !CrewEntryOk(c, spec.crews[c]);
        return Err(crew.error);
      }
      crews := crews[c := crew.value];
      todo := todo - {c};
    }
    AllCrewsRead(spec, crews);
    ToFleetCarries(spec);
    return Ok(Fleet.Fleet(spec.name, spec.tools, crews));
  }

  // A fleet that was read from some spec.
  ghost predicate WasRead(fleet: Fleet) {
    exists spec :: SpecOk(spec) && ToFleet(spec) == fleet
  }

  lemma CrewNormalises(crew: CrewSpec)
    requires CrewOk(crew)
    ensures CrewOk(FromCrew(ToCrew(crew)))
    ensures ToCrew(FromCrew(ToCrew(crew))) == ToCrew(crew)
  {
    CloneUrlReadsBack(crew.repo, ToCrew(crew).repo);
  }

  lemma CrewEntryNormalises(spec: FleetSpec, c: string)
    requires SpecOk(spec) && c in spec.crews
    ensures c in ToFleet(spec).crews && ToFleet(spec).crews[c] == ToCrew(spec.crews[c])
    ensures var again := FromFleet(ToFleet(spec)).crews;
      c in again && CrewEntryOk(c, again[c]) && ToCrew(again[c]) == ToCrew(spec.crews[c])
  {
    assert CrewEntryOk(c, spec.crews[c]);
    CrewNormalises(spec.crews[c]);
  }

  // Writing a fleet that was read and reading it again gives it back.
  lemma FleetNormalises(fleet: Fleet)
    requires WasRead(fleet)
    ensures SpecOk(FromFleet(fleet))
    ensures ToFleet(FromFleet(fleet)) == fleet
  {
    var spec :| SpecOk(spec) && ToFleet(spec) == fleet;
    SpecNormalises(spec);
  }

  lemma SpecNormalises(spec: FleetSpec)
    requires SpecOk(spec)
    ensures SpecOk(FromFleet(ToFleet(spec)))
    ensures ToFleet(FromFleet(ToFleet(spec))) == ToFleet(spec)
  {
    var fleet := ToFleet(spec);
    var again := FromFleet(fleet);
    assert again.crews.Keys == fleet.crews.Keys == spec.crews.Keys;
    forall c | c in spec.crews ensures CrewEntryOk(c, again.crews[c]) {
      CrewEntryNormalises(spec, c);
    }
    assert SpecOk(again);
    forall c | c in spec.crews ensures ToFleet(again).crews[c] == fleet.crews[c] {
      CrewEntryNormalises(spec, c);
    }
    assert ToFleet(again).crews == fleet.crews;
  }

  // --- An agent with its crew folded in -----------------------------------------

  datatype ResolvedAgent = ResolvedAgent(
    id: AgentId,
    repo: RepoRef,
    gitRef: string,
    git: GitSettings,
    settings: AgentSettings)
  {
    // The worktree branch: the one set, else the agent's own.
    function Branch(): string {
      if settings.branch.Some? then settings.branch.value else DefaultBranch(id)
    }
  }

  function AgentOf(fleet: Fleet, crew: string, agent: string): ResolvedAgent
    requires crew in fleet.crews && agent in fleet.crews[crew].agents
  {
    var c := fleet.crews[crew];
    ResolvedAgent(AgentId(fleet.name, crew, agent), c.repo, c.gitRef, c.git, c.agents[agent])
  }

  ghost predicate IsAgentOf(fleet: Fleet, r: ResolvedAgent) {
    && r.id.crew in fleet.crews
    && r.id.agent in fleet.crews[r.id.crew].agents
    && r == AgentOf(fleet, r.id.crew, r.id.agent)
    && r.id.fleet == fleet.name
    && r.repo == fleet.crews[r.id.crew].repo
    && r.gitRef == fleet.crews[r.id.crew].gitRef
    && r.git == fleet.crews[r.id.crew].git
    && r.settings == fleet.crews[r.id.crew].agents[r.id.agent]
  }

  predicate IdLess(a: AgentId, b: AgentId) {
    || Less(a.fleet, b.fleet)
    || (a.fleet == b.fleet && Less(a.crew, b.crew))
    || (a.fleet == b.fleet && a.crew == b.crew && Less(a.agent, b.agent))
  }

  ghost predicate SortedById(rs: seq<ResolvedAgent>) {
    forall i, j {:trigger IdLess(rs[i].id, rs[j].id)} :: 0 <= i < j < |rs| ==> IdLess(rs[i].id, rs[j].id)
  }

  // Every agent of the fleet, each once, sorted by id.
  method AgentsOf(fleet: Fleet) returns (out: seq<ResolvedAgent>)
    ensures forall r :: r in out <==> IsAgentOf(fleet, r)
    ensures SortedById(out)
  {
    out := [];
    var crews := KeysInOrder(fleet.crews.Keys);
    InOrderHas(crews, fleet.crews.Keys);
    for i := 0 to |crews|
      invariant SortedById(out)
      invariant forall r :: r in out <==> IsAgentOf(fleet, r) && r.id.crew in crews[..i]
    {
      var crew := crews[i];
      var agents := KeysInOrder(fleet.crews[crew].agents.Keys);
      InOrderHas(agents, fleet.crews[crew].agents.Keys);
      var more := CrewAgents(fleet, crew, agents);
      assert crews[..i + 1] == crews[..i] + [crew];
      AppendSorted(fleet, out, more, crews, i);
      out := out + more;
    }
    assert crews[..|crews|] == crews;
  }

  method CrewAgents(fleet: Fleet, crew: string, agents: seq<string>) returns (out: seq<ResolvedAgent>)
    requires crew in fleet.crews && Increasing(agents)
    requires forall i :: 0 <= i < |agents| ==> agents[i] in fleet.crews[crew].agents
    ensures |out| == |agents|
    ensures forall i :: 0 <= i < |agents| ==> out[i] == AgentOf(fleet, crew, agents[i])
    ensures SortedById(out)
  {
    out := [];
    for i := 0 to |agents|
      invariant |out| == i
      invariant forall j :: 0 <= j < i ==> out[j] == AgentOf(fleet, crew, agents[j])
    {
      out := out + [AgentOf(fleet, crew, agents[i])];
    }
    forall i, j | 0 <= i < j < |out| ensures IdLess(out[i].id, out[j].id) {
      assert Less(agents[i], agents[j]);
    }
  }

  lemma AppendSorted(fleet: Fleet, out: seq<ResolvedAgent>, more: seq<ResolvedAgent>, crews: seq<string>, i: nat)
    requires SortedById(out) && SortedById(more)
    requires i < |crews| && Increasing(crews)
    requires forall r :: r in out ==> IsAgentOf(fleet, r) && r.id.crew in crews[..i]
    requires forall k :: 0 <= k < |more| ==> more[k].id.fleet == fleet.name && more[k].id.crew == crews[i]
    ensures SortedById(out + more)
  {
    var all := out + more;
    forall a, b | 0 <= a < b < |all| ensures IdLess(all[a].id, all[b].id) {
      if b < |out| {
        assert IdLess(out[a].id, out[b].id);
      } else if a >= |out| {
        assert IdLess(more[a - |out|].id, more[b - |out|].id);
      } else {
        assert out[a] in out;
        var k :| 0 <= k < i && crews[..i][k] == out[a].id.crew;
        assert Less(crews[k], crews[i]);
      }
    }
  }

  // Every agent of a fleet that was read works on a branch git accepts.
  lemma EveryBranchIsValid(fleet: Fleet, r: ResolvedAgent)
    requires WasRead(fleet) && IsAgentOf(fleet, r)
    ensures ValidBranch(r.Branch())
  {
    var spec :| SpecOk(spec) && ToFleet(spec) == fleet;
    assert CrewEntryOk(r.id.crew, spec.crews[r.id.crew]);
    assert AgentOk(r.id.agent, r.settings);
    if r.settings.branch.None? {
      DefaultBranchIsValid(r.id);
    }
  }
}
