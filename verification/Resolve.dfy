// The resolver, and what its checks before the merge are worth after it: each
// raw layer is checked on its own, the fold is typed and checked, and the
// finished spec is checked a third time. The theorems relate the three.
module Resolution {
  import opened Basics
  import opened JsonValues
  import opened Merging
  import opened Names
  import opened Sandboxes
  import opened Restrictions
  import opened Fleets
  import opened AgentTypes
  import opened Typing

  datatype CrewFile = CrewFile(
    repo: string,
    gitRef: string,
    git: GitSettings,
    defaults: Json,
    agents: map<string, Json>)

  datatype FleetFile = FleetFile(name: Option<string>, defaults: Json, crews: map<string, CrewFile>)

  datatype Options = Options(
    nameOverride: Option<string>,
    hostClaudeSettings: Option<Json>,
    operatorLayer: Option<Json>,
    restricted: bool,
    runner: RunnerKind)

  // --- The checks on a resolved agent -------------------------------------------

  const RESERVED_ENV: set<string> := {
    "HOME", "CLAUDE_CONFIG_DIR", "GH_CONFIG_DIR", "PATH", "TMPDIR", "CLAUDE_CODE_TMPDIR"}

  predicate ReservedEnv(key: string) {
    key in RESERVED_ENV || "XDG_" <= key || "MISE_" <= key || "BALERIX_" <= key
  }

  predicate AgentValid(s: AgentSettings) {
    && ToolsExact(s.tools)
    && s.claude.settings.Obj?
    && "hooks" !in s.claude.settings.fields
    && s.sandbox.Obj?
    && (forall p :: p in s.plugins ==> ValidName(p) && s.plugins[p].Obj?)
    && BranchOk(s)
    && (forall k :: k in s.env ==> k != "" && !ReservedEnv(k))
  }

  // --- The layers -----------------------------------------------------------------

  predicate IsMapping(v: Json) {
    v.Obj? || v.Null?
  }

  // The `sandbox` block of one raw layer, stripped of its delete markers, is
  // within the fleet's allowlist.
  predicate SandboxLayerOk(layer: Json) {
    match Field(layer, "sandbox")
    case None => true
    case Some(Null) => true
    case Some(block) => BlockOk(RulesOf(Policy.Fleet), StripNulls(block))
  }

  predicate ToolEntryOk(v: Json) {
    v.Null? || (v.Str? && IsExactVersion(v.s))
  }

  // The `tools` table of one raw layer; a null is a delete marker.
  function ToolsLayer(layer: Json): Option<map<string, string>> {
    match Field(layer, "tools")
    case None => Some(map[])
    case Some(Null) => Some(map[])
    case Some(Obj(t)) =>
      if forall k :: k in t ==> ToolEntryOk(t[k])
      then Some(map k | k in t && t[k].Str? :: t[k].s)
      else None
    case _ => None
  }

  method ReadToolsLayer(layer: Json) returns (tools: Option<map<string, string>>)
    ensures tools == ToolsLayer(layer)
  {
    var field := Field(layer, "tools");
    if field.None? || field.value.Null? {
      return Some(map[]);
    }
    if !field.value.Obj? {
      return None;
    }
    var t := field.value.fields;
    var out: map<string, string> := map[];
    var todo := t.Keys;
    while todo != {}
      invariant todo <= t.Keys
      invariant forall k :: k in t && k !in todo ==> ToolEntryOk(t[k])
      invariant out == map k | k in t && k !in todo && t[k].Str? :: t[k].s
      decreases todo
    {
      var k :| k in todo;
      todo := todo - {k};
      if !t[k].Null? {
        if !t[k].Str? || !IsExactVersion(t[k].s) {
          assert !ToolEntryOk(t[k]);
          return None;
        }
        out := out[k := t[k].s];
      }
    }
    assert out == map k | k in t && t[k].Str? :: t[k].s;
    return Some(out);
  }

  lemma ToolsOfALayerAreExact(layer: Json)
    requires ToolsLayer(layer).Some?
    ensures ToolsExact(ToolsLayer(layer).value)
  {
  }

  // The host's settings, its `hooks` dropped, as the lowest layer.
  function HostLayer(s: Json): Json {
    var settings := if s.Obj? then Obj(s.fields - {"hooks"}) else s;
    Obj(map["claude" := Obj(map["settings" := settings])])
  }

  // The layers beneath the file's own: the host's and the operator's.
  function Beneath(opts: Options): seq<Json> {
    (match opts.hostClaudeSettings case None => [] case Some(s) => [HostLayer(s)]) +
    (match opts.operatorLayer case None => [] case Some(l) => [l])
  }

  function Layers(opts: Options, file: FleetFile, crew: string, agent: string): seq<Json>
    requires crew in file.crews && agent in file.crews[crew].agents
  {
    Beneath(opts) + FileLayers(file, crew, agent)
  }

  function FileLayers(file: FleetFile, crew: string, agent: string): seq<Json>
    requires crew in file.crews && agent in file.crews[crew].agents
  {
    [file.defaults, file.crews[crew].defaults, file.crews[crew].agents[agent]]
  }

  function Merged(opts: Options, file: FleetFile, crew: string, agent: string): Json
    requires crew in file.crews && agent in file.crews[crew].agents
  {
    MergeLayers(Layers(opts, file, crew, agent))
  }

  // A layer of the file: a mapping or null, within the restrictions when
  // they apply, its sandbox block within the allowlist.
  predicate FileLayerOk(opts: Options, layer: Json) {
    && IsMapping(layer)
    && (opts.restricted ==> CheckLayer(layer).None?)
    && SandboxLayerOk(layer)
  }

  predicate OperatorLayerOk(opts: Options) {
    opts.operatorLayer.Some? ==> IsMapping(opts.operatorLayer.value) && SandboxLayerOk(opts.operatorLayer.value)
  }

  predicate DefaultsOk(opts: Options, defaults: Json) {
    FileLayerOk(opts, defaults) && ToolsLayer(defaults).Some?
  }

  // The agent's settings, if its own layer passes and its fold types, is valid
  // and asks for the expected runner.
  function AgentOutcome(opts: Options, file: FleetFile, crew: string, agent: string): Option<AgentSettings>
    requires crew in file.crews && agent in file.crews[crew].agents
  {
    if FileLayerOk(opts, file.crews[crew].agents[agent]) then Typed(opts, Merged(opts, file, crew, agent)) else None
  }

  function Typed(opts: Options, merged: Json): Option<AgentSettings> {
    match ReadSettings(merged)
    case Some(s) => if AgentValid(s) && s.runner == opts.runner then Some(s) else None
    case None => None
  }

  predicate AgentResolves(opts: Options, file: FleetFile, crew: string, agent: string)
    requires crew in file.crews && agent in file.crews[crew].agents
  {
    AgentOutcome(opts, file, crew, agent).Some?
  }

  predicate CrewResolves(opts: Options, file: FleetFile, crew: string)
    requires crew in file.crews
  {
    && DefaultsOk(opts, file.crews[crew].defaults)
    && forall a {:trigger AgentResolves(opts, file, crew, a)} :: a in file.crews[crew].agents ==>
      AgentResolves(opts, file, crew, a)
  }

  function FleetName(opts: Options, file: FleetFile): Option<string> {
    if opts.nameOverride.Some? then opts.nameOverride else file.name
  }

  predicate ReservedFleet(name: string) {
    name in {"balerix", "watch"}
  }

  predicate LayersResolve(opts: Options, file: FleetFile) {
    && FleetName(opts, file).Some?
    && !ReservedFleet(FleetName(opts, file).value)
    && OperatorLayerOk(opts)
    && DefaultsOk(opts, file.defaults)
    && CrewsResolve(opts, file)
  }

  predicate CrewsResolve(opts: Options, file: FleetFile) {
    forall c {:trigger CrewResolves(opts, file, c)} :: c in file.crews ==> CrewResolves(opts, file, c)
  }

  function Settings(opts: Options, file: FleetFile, crew: string, agent: string): AgentSettings
    requires crew in file.crews && agent in file.crews[crew].agents
    requires AgentResolves(opts, file, crew, agent)
  {
    AgentOutcome(opts, file, crew, agent).value
  }

  function ResolvedCrew(opts: Options, file: FleetFile, crew: string): (r: CrewSpec)
    requires crew in file.crews && CrewResolves(opts, file, crew)
    ensures r.agents.Keys == file.crews[crew].agents.Keys
  {
    var c := file.crews[crew];
    CrewSpec(c.repo, c.gitRef, c.git, ToolsLayer(c.defaults).value,
      map a | a in c.agents && AgentResolves(opts, file, crew, a) :: Settings(opts, file, crew, a))
  }

  // The spec with no inheritance left.
  function Resolved(opts: Options, file: FleetFile): (spec: FleetSpec)
    requires LayersResolve(opts, file)
    ensures spec.crews.Keys == file.crews.Keys
  {
    FleetSpec(FleetName(opts, file).value, ToolsLayer(file.defaults).value, ResolvedCrews(opts, file))
  }

  function ResolvedCrews(opts: Options, file: FleetFile): (crews: map<string, CrewSpec>)
    requires CrewsResolve(opts, file)
    ensures crews.Keys == file.crews.Keys
  {
    map c | c in file.crews && CrewResolves(opts, file, c) :: ResolvedCrew(opts, file, c)
  }

  // --- What the layers' checks give the merge ---------------------------------------

  // The layer whose sandbox block hands out a grant of the merge.
  ghost predicate GrantedBySome(layers: seq<Json>, g: BlockGrant) {
    exists i :: 0 <= i < |layers| && Field(layers[i], "sandbox").Some? &&
      Grants(RulesOf(Policy.Fleet), StripNulls(Field(layers[i], "sandbox").value), g)
  }

  lemma OneMoreLayer(rules: Rules, acc: Json, layer: Json)
    requires acc.Obj? && Clean(acc) && IsMapping(layer)
    requires Field(acc, "sandbox").Some? ==> BlockOk(rules, Field(acc, "sandbox").value)
    requires Field(layer, "sandbox").Some? && Field(layer, "sandbox").value != Null ==>
      BlockOk(rules, StripNulls(Field(layer, "sandbox").value))
    ensures var m := Merge(acc, layer); Field(m, "sandbox").Some? ==>
      && BlockOk(rules, Field(m, "sandbox").value)
      && forall g :: Grants(rules, Field(m, "sandbox").value, g) ==>
        || (Field(acc, "sandbox").Some? && Grants(rules, Field(acc, "sandbox").value, g))
        || (Field(layer, "sandbox").Some? && Grants(rules, StripNulls(Field(layer, "sandbox").value), g))
  {
    var m := Merge(acc, layer);
    StripKeepsClean(acc);
    if Field(m, "sandbox").Some? && layer.Obj? {
      MergedField(acc, layer, "sandbox");
      if "sandbox" in acc.fields && "sandbox" in layer.fields && layer.fields["sandbox"] != Null {
        var b, o := acc.fields["sandbox"], layer.fields["sandbox"];
        MergedBlockIsOk(rules, b, o);
        forall g | Grants(rules, Merge(b, o), g) ensures Grants(rules, b, g) || Grants(rules, StripNulls(o), g) {
          MergedGrantsAreTheirs(rules, b, o, g);
        }
      }
    }
  }

  predicate LayerBlockOk(rules: Rules, layer: Json) {
    Field(layer, "sandbox").Some? && Field(layer, "sandbox").value != Null ==>
      BlockOk(rules, StripNulls(Field(layer, "sandbox").value))
  }

  predicate LayerGrants(rules: Rules, layer: Json, g: BlockGrant) {
    Field(layer, "sandbox").Some? && Grants(rules, StripNulls(Field(layer, "sandbox").value), g)
  }

  lemma {:induction false} OkLayersMergeToAnOkBlock(rules: Rules, layers: seq<Json>)
    requires forall i :: 0 <= i < |layers| ==> IsMapping(layers[i]) && LayerBlockOk(rules, layers[i])
    ensures MergeLayers(layers).Obj? && BlockOk(rules, SandboxOf(MergeLayers(layers)))
    ensures forall g :: Grants(rules, SandboxOf(MergeLayers(layers)), g) ==> SomeLayerGrants(rules, layers, g)
    decreases |layers|
  {
    EmptyBlockGrantsNothing(rules);
    if layers != [] {
      var below, last := layers[..|layers| - 1], layers[|layers| - 1];
      assert layers == below + [last];
      OkLayersMergeToAnOkBlock(rules, below);
      FoldLast(EMPTY_OBJECT, below, last);
      FoldIsTheScan(below, []);
      MergeIsClean(MergeLayers(below), last);
      OneMoreLayer(rules, MergeLayers(below), last);
      forall g | Grants(rules, SandboxOf(MergeLayers(layers)), g) ensures SomeLayerGrants(rules, layers, g) {
        OneMoreGranting(rules, below, last, g);
      }
    }
  }

  ghost predicate SomeLayerGrants(rules: Rules, layers: seq<Json>, g: BlockGrant) {
    exists i :: 0 <= i < |layers| && LayerGrants(rules, layers[i], g)
  }

  lemma OneMoreGranting(rules: Rules, below: seq<Json>, last: Json, g: BlockGrant)
    requires LayerGrants(rules, last, g) || SomeLayerGrants(rules, below, g)
    ensures SomeLayerGrants(rules, below + [last], g)
  {
    var layers := below + [last];
    if LayerGrants(rules, last, g) {
      assert layers[|below|] == last;
    } else {
      var i :| 0 <= i < |below| && LayerGrants(rules, below[i], g);
      assert layers[i] == below[i];
    }
  }

  // If every layer's stripped block is within the allowlist, so is the
  // merged one, and each of its grants is some layer's.
  lemma CheckedLayersMergeToACheckedBlock(layers: seq<Json>)
    requires forall i :: 0 <= i < |layers| ==> IsMapping(layers[i]) && SandboxLayerOk(layers[i])
    ensures MergeLayers(layers).Obj?
    ensures BlockOk(RulesOf(Policy.Fleet), SandboxOf(MergeLayers(layers)))
    ensures forall g :: Grants(RulesOf(Policy.Fleet), SandboxOf(MergeLayers(layers)), g) ==> GrantedBySome(layers, g)
  {
    var rules := RulesOf(Policy.Fleet);
    OkLayersMergeToAnOkBlock(rules, layers);
    forall g | Grants(rules, SandboxOf(MergeLayers(layers)), g) ensures GrantedBySome(layers, g) {
      var i :| 0 <= i < |layers| && LayerGrants(rules, layers[i], g);
      assert layers[i] == layers[i];
    }
  }

  lemma EmptyBlockGrantsNothing(rules: Rules)
    ensures BlockOk(rules, EMPTY_OBJECT)
    ensures forall g :: !Grants(rules, EMPTY_OBJECT, g)
  {
    forall g ensures !Grants(rules, EMPTY_OBJECT, g) {
      assert ListPath(g) != [];
    }
  }

  lemma LayersAreChecked(opts: Options, file: FleetFile, crew: string, agent: string)
    requires crew in file.crews && agent in file.crews[crew].agents
    requires OperatorLayerOk(opts) && DefaultsOk(opts, file.defaults)
    requires DefaultsOk(opts, file.crews[crew].defaults) && FileLayerOk(opts, file.crews[crew].agents[agent])
    ensures forall i :: 0 <= i < |Layers(opts, file, crew, agent)| ==>
      IsMapping(Layers(opts, file, crew, agent)[i]) && SandboxLayerOk(Layers(opts, file, crew, agent)[i])
  {
    forall i | 0 <= i < |Beneath(opts)| ensures IsMapping(Beneath(opts)[i]) && SandboxLayerOk(Beneath(opts)[i]) {
      if Beneath(opts)[i] != HostLayer(match opts.hostClaudeSettings case None => Null case Some(s) => s) {
        assert Beneath(opts)[i] == opts.operatorLayer.value;
      }
    }
  }

  // An agent that resolves has a sandbox block within the allowlist, all of
  // whose grants some layer gave.
  lemma ResolvedSandboxIsOk(opts: Options, file: FleetFile, crew: string, agent: string)
    requires crew in file.crews && agent in file.crews[crew].agents
    requires OperatorLayerOk(opts) && DefaultsOk(opts, file.defaults)
    requires DefaultsOk(opts, file.crews[crew].defaults) && AgentResolves(opts, file, crew, agent)
    ensures SandboxOk(Settings(opts, file, crew, agent))
    ensures forall g :: Grants(RulesOf(Policy.Fleet), Settings(opts, file, crew, agent).sandbox, g) ==>
      GrantedBySome(Layers(opts, file, crew, agent), g)
  {
    LayersAreChecked(opts, file, crew, agent);
    CheckedLayersMergeToACheckedBlock(Layers(opts, file, crew, agent));
  }

  predicate CrewNamesAndRepo(name: string, crew: CrewSpec) {
    && ValidName(name)
    && ParseRepo(crew.repo).Some?
    && crew.gitRef != ""
    && IdentityOk(crew.git)
    && forall a :: a in crew.agents ==> a != RESERVED_AGENT_NAME && ValidName(a)
  }

  // What is left for the second check to refuse: names, repositories, refs
  // and identities.
  predicate NamesAndRepos(spec: FleetSpec) {
    ValidName(spec.name)
    && forall c {:trigger CrewNamesAndRepo(c, spec.crews[c])} :: c in spec.crews ==> CrewNamesAndRepo(c, spec.crews[c])
  }

  predicate OfNamesAndRepos(e: FleetError) {
    !(e.BadTools? || e.BadBranch? || e.BadSandbox?)
  }

  lemma ResolvedAgentPasses(opts: Options, file: FleetFile, crew: string, agent: string)
    requires LayersResolve(opts, file)
    requires crew in file.crews && agent in file.crews[crew].agents
    ensures var spec := Resolved(opts, file);
      && HasAgent(spec, crew, agent)
      && BranchOk(spec.crews[crew].agents[agent])
      && ToolsExact(spec.crews[crew].agents[agent].tools)
      && SandboxOk(spec.crews[crew].agents[agent])
      && ToolsExact(spec.crews[crew].tools)
  {
    assert CrewResolves(opts, file, crew);
    assert AgentResolves(opts, file, crew, agent);
    ResolvedSandboxIsOk(opts, file, crew, agent);
    ToolsOfALayerAreExact(file.crews[crew].defaults);
  }

  lemma ResolvedCrewTools(opts: Options, file: FleetFile, crew: string)
    requires LayersResolve(opts, file) && crew in file.crews
    ensures crew in Resolved(opts, file).crews && ToolsExact(Resolved(opts, file).crews[crew].tools)
  {
    assert CrewResolves(opts, file, crew);
    ToolsOfALayerAreExact(file.crews[crew].defaults);
  }

  lemma ResolvedCrewPasses(opts: Options, file: FleetFile, crew: string)
    requires LayersResolve(opts, file) && crew in file.crews
    ensures var spec := Resolved(opts, file);
      CrewEntryOk(crew, spec.crews[crew]) <==> CrewNamesAndRepo(crew, spec.crews[crew])
  {
    var spec := Resolved(opts, file);
    ResolvedCrewTools(opts, file, crew);
    forall a | a in spec.crews[crew].agents
      ensures AgentOk(a, spec.crews[crew].agents[a]) <==> a != RESERVED_AGENT_NAME && ValidName(a)
    {
      assert CrewResolves(opts, file, crew);
      ResolvedAgentPasses(opts, file, crew, a);
    }
  }

  lemma RecheckFaults(opts: Options, file: FleetFile, e: FleetError)
    requires LayersResolve(opts, file) && Blames(Resolved(opts, file), e)
    ensures OfNamesAndRepos(e)
  {
    var spec := Resolved(opts, file);
    ToolsOfALayerAreExact(file.defaults);
    if e.BadBranch? || e.BadSandbox? {
      assert HasAgent(spec, e.crew, e.agent);
      assert CrewResolves(opts, file, e.crew);
      ResolvedAgentPasses(opts, file, e.crew, e.agent);
    } else if e.BadTools? && |e.at| == 1 {
      ResolvedCrewTools(opts, file, e.at[0]);
    } else if e.BadTools? && |e.at| == 2 {
      assert CrewResolves(opts, file, e.at[0]);
      ResolvedAgentPasses(opts, file, e.at[0], e.at[1]);
    }
  }

  // The second check never refuses versions, branches or sandbox blocks that
  // resolution let through.
  lemma TheRecheckIsOfNamesAndRepos(opts: Options, file: FleetFile)
    requires LayersResolve(opts, file)
    ensures SpecOk(Resolved(opts, file)) <==> NamesAndRepos(Resolved(opts, file))
    ensures forall e :: Blames(Resolved(opts, file), e) ==> OfNamesAndRepos(e)
  {
    var spec := Resolved(opts, file);
    ToolsOfALayerAreExact(file.defaults);
    forall c | c in spec.crews ensures CrewEntryOk(c, spec.crews[c]) <==> CrewNamesAndRepo(c, spec.crews[c]) {
      ResolvedCrewPasses(opts, file, c);
    }
    forall e | Blames(spec, e) ensures OfNamesAndRepos(e) {
      RecheckFaults(opts, file, e);
    }
  }

  lemma FileLayerPasses(opts: Options, layer: Json)
    requires opts.restricted && FileLayerOk(opts, layer)
    ensures IsMapping(layer) && CheckLayer(layer).None?
  {
  }

  lemma RestrictedFileLayersPass(opts: Options, file: FleetFile, crew: string, agent: string)
    requires opts.restricted && LayersResolve(opts, file)
    requires crew in file.crews && agent in file.crews[crew].agents
    ensures forall i :: 0 <= i < |FileLayers(file, crew, agent)| ==>
      IsMapping(FileLayers(file, crew, agent)[i]) && CheckLayer(FileLayers(file, crew, agent)[i]).None?
  {
    assert CrewResolves(opts, file, crew);
    assert AgentResolves(opts, file, crew, agent);
    FileLayerPasses(opts, file.defaults);
    FileLayerPasses(opts, file.crews[crew].defaults);
    FileLayerPasses(opts, file.crews[crew].agents[agent]);
  }

  // In restricted mode the file has no say in what its agents run as: each
  // refused key of the merged settings is as the host's and the operator's
  // layers alone give it.
  lemma RestrictedKeysAreNotTheFiles(opts: Options, file: FleetFile, crew: string, agent: string, key: Path)
    requires opts.restricted && LayersResolve(opts, file)
    requires crew in file.crews && agent in file.crews[crew].agents
    requires key in REFUSED
    ensures At(Merged(opts, file, crew, agent), key) == At(MergeLayers(Beneath(opts)), key)
  {
    RestrictedFileLayersPass(opts, file, crew, agent);
    RefusedKeysComeFromBelow(Beneath(opts), FileLayers(file, crew, agent), key);
  }

  lemma TheRefusedPaths()
    ensures ["env"] in REFUSED && ["sandbox"] in REFUSED
    ensures ["claude", "binary"] in REFUSED && ["claude", "args"] in REFUSED
    ensures ["claude", "settings", "env"] in REFUSED
    ensures ["claude", "settings", "apiKeyHelper"] in REFUSED
    ensures ["claude", "settings", "disableAllHooks"] in REFUSED
  {
    assert REFUSED[0] == ["claude", "binary"] && REFUSED[1] == ["claude", "args"];
    assert REFUSED[2] == ["env"] && REFUSED[3] == ["sandbox"];
    assert REFUSED[4] == ["claude", "settings", "env"];
    assert REFUSED[5] == ["claude", "settings", "apiKeyHelper"];
    assert REFUSED[6] == ["claude", "settings", "disableAllHooks"];
  }

  lemma RunsAsInEqual(s: AgentSettings, m: Json, n: Json)
    requires RunsAsIn(s, m) && forall key :: key in REFUSED ==> At(m, key) == At(n, key)
    ensures RunsAsIn(s, n)
  {
    TheRefusedPaths();
  }

  // And so are the settings the agent gets: its environment, its sandbox, its
  // program and arguments, and the three settings of that program, are as typed
  // from the host's and the operator's layers alone.
  lemma RestrictedSettingsAreNotTheFiles(opts: Options, file: FleetFile, crew: string, agent: string)
    requires opts.restricted && LayersResolve(opts, file)
    requires crew in file.crews && agent in file.crews[crew].agents
    ensures AgentResolves(opts, file, crew, agent)
    ensures RunsAsIn(Settings(opts, file, crew, agent), MergeLayers(Beneath(opts)))
  {
    assert CrewResolves(opts, file, crew);
    assert AgentResolves(opts, file, crew, agent);
    var m := Merged(opts, file, crew, agent);
    SettingsAreReadFromTheirPaths(m);
    forall key | key in REFUSED ensures At(m, key) == At(MergeLayers(Beneath(opts)), key) {
      RestrictedKeysAreNotTheFiles(opts, file, crew, agent, key);
    }
    RunsAsInEqual(Settings(opts, file, crew, agent), m, MergeLayers(Beneath(opts)));
  }

  // --- Whose word an agent's settings are ----------------------------------------------

  lemma HostLayerSays(s: Json, path: Path)
    ensures Say(HostLayer(s), path) == HostSays(s, path)
  {
    var settings := if s.Obj? then Obj(s.fields - {"hooks"}) else s;
    var inner := Obj(map["settings" := settings]);
    assert HostLayer(s) == Obj(map["claude" := inner]);
    if path != [] && path[0] == "claude" {
      assert Speak(HostLayer(s), path) == Speak(inner, path[1..]);
      if |path| > 1 && path[1] == "settings" {
        assert path[1..][1..] == path[2..];
        assert Speak(inner, path[1..]) == Speak(settings, path[2..]);
        if |path| > 2 {
          assert path[2..][0] == path[2];
        }
      }
    }
  }

  lemma ScanOne(layers: seq<Json>, last: Json, path: Path)
    ensures Scan(layers + [last], path) ==
      match Say(last, path) case Says(c) => c case Silent => Scan(layers, path)
  {
    assert (layers + [last])[..|layers|] == layers;
  }

  lemma ScanBeneath(opts: Options, path: Path)
    ensures Scan(Beneath(opts), path) == FirstWordBeneath(opts.operatorLayer, opts.hostClaudeSettings, path)
  {
    var host := match opts.hostClaudeSettings case None => [] case Some(s) => [HostLayer(s)];
    if opts.hostClaudeSettings.Some? {
      HostLayerSays(opts.hostClaudeSettings.value, path);
      ScanOne([], HostLayer(opts.hostClaudeSettings.value), path);
      assert [] + [HostLayer(opts.hostClaudeSettings.value)] == host;
    }
    if opts.operatorLayer.Some? {
      ScanOne(host, opts.operatorLayer.value, path);
    } else {
      assert Beneath(opts) == host;
    }
  }

  lemma MergedIsTheFirstWord(opts: Options, file: FleetFile, crew: string, agent: string)
    requires crew in file.crews && agent in file.crews[crew].agents
    ensures Speaks(
      Sources(file.crews[crew].agents[agent], file.crews[crew].defaults, file.defaults, opts.operatorLayer,
        opts.hostClaudeSettings),
      Merged(opts, file, crew, agent))
  {
    var beneath := Beneath(opts);
    var a, b, c := file.defaults, file.crews[crew].defaults, file.crews[crew].agents[agent];
    assert Layers(opts, file, crew, agent) == beneath + [a] + [b] + [c];
    forall path
      ensures ContentAt(Merged(opts, file, crew, agent), path)
        == FirstWord(Sources(c, b, a, opts.operatorLayer, opts.hostClaudeSettings), path)
    {
      FoldIsTheScan(beneath + [a] + [b] + [c], path);
      ScanBeneath(opts, path);
      ScanOne(beneath, a, path);
      ScanOne(beneath + [a], b, path);
      ScanOne(beneath + [a] + [b], c, path);
    }
  }

  // The settings have the first word of the agent's five sources.
  ghost predicate IsOfTheFile(opts: Options, file: FleetFile, c: string, a: string, s: AgentSettings)
    requires c in file.crews && a in file.crews[c].agents
  {
    SettingsHeld(
      Sources(file.crews[c].agents[a], file.crews[c].defaults, file.defaults, opts.operatorLayer,
        opts.hostClaudeSettings),
      s)
  }

  // Every agent that resolves has, in every one of its settings, the first word
  // of its five sources.
  lemma SettingsAreTheFirstWord(opts: Options, file: FleetFile, crew: string, agent: string)
    requires crew in file.crews && agent in file.crews[crew].agents && AgentResolves(opts, file, crew, agent)
    ensures IsOfTheFile(opts, file, crew, agent, Settings(opts, file, crew, agent))
  {
    MergedIsTheFirstWord(opts, file, crew, agent);
    FoldIsTheScan(Layers(opts, file, crew, agent), []);
    SettingsAreRead(
      Sources(file.crews[crew].agents[agent], file.crews[crew].defaults, file.defaults, opts.operatorLayer,
        opts.hostClaudeSettings),
      Merged(opts, file, crew, agent), Settings(opts, file, crew, agent));
  }

  lemma HooksAreNotSet(src: Sources, m: Json, s: AgentSettings)
    requires Speaks(src, m) && ReadSettings(m) == Some(s) && AgentValid(s)
    ensures FirstWord(src, ["claude", "settings", "hooks"]) == Absent
  {
    HeldBelow(src, m, "claude", ["settings", "hooks"]);
    assert ["claude"] + ["settings", "hooks"] == ["claude", "settings", "hooks"];
    if Field(m, "claude").Some? {
      var v := Field(m, "claude").value;
      ContentBelow(v, "settings", ["hooks"]);
      assert ["settings"] + ["hooks"] == ["settings", "hooks"];
      if Field(v, "settings").Some? {
        ContentBelow(Field(v, "settings").value, "hooks", []);
        assert ["hooks"] + [] == ["hooks"];
        assert Field(Field(v, "settings").value, "hooks").None?;
      }
    }
  }

  // The variables balerix sets itself.
  predicate Owned(k: string) {
    || k in {"HOME", "CLAUDE_CONFIG_DIR", "GH_CONFIG_DIR", "PATH", "TMPDIR", "CLAUDE_CODE_TMPDIR"}
    || "XDG_" <= k || "MISE_" <= k || "BALERIX_" <= k
  }

  lemma OwnVariablesAreNotSet(src: Sources, m: Json, s: AgentSettings, k: string)
    requires Speaks(src, m) && ReadSettings(m) == Some(s) && AgentValid(s)
    requires Owned(k)
    ensures FirstWord(src, ["env", k]) == Absent
  {
    HeldAtTwo(src, m, "env", k);
    assert ReservedEnv(k);
    assert StringMap(Field(m, "env")) == Some(s.env);
    assert k !in s.env;
  }

  // What balerix owns is set by nobody: an agent with a word on its hooks, or on
  // a variable of balerix's own, does not resolve.
  lemma WhatIsOwnedIsNotSet(opts: Options, file: FleetFile, crew: string, agent: string)
    requires crew in file.crews && agent in file.crews[crew].agents && AgentResolves(opts, file, crew, agent)
    ensures var src := Sources(file.crews[crew].agents[agent], file.crews[crew].defaults, file.defaults,
        opts.operatorLayer, opts.hostClaudeSettings);
      && FirstWord(src, ["claude", "settings", "hooks"]) == Absent
      && (forall k :: Owned(k) ==> FirstWord(src, ["env", k]) == Absent)
    ensures var s := Settings(opts, file, crew, agent);
      && s.runner == opts.runner && "" !in s.env && s.sandbox.Obj? && s.claude.settings.Obj?
      && (forall p :: p in s.plugins ==> ValidName(p) && s.plugins[p].Obj?)
  {
    var src := Sources(file.crews[crew].agents[agent], file.crews[crew].defaults, file.defaults,
      opts.operatorLayer, opts.hostClaudeSettings);
    var m, s := Merged(opts, file, crew, agent), Settings(opts, file, crew, agent);
    MergedIsTheFirstWord(opts, file, crew, agent);
    HooksAreNotSet(src, m, s);
    forall k | Owned(k) ensures FirstWord(src, ["env", k]) == Absent {
      OwnVariablesAreNotSet(src, m, s, k);
    }
  }

  // The tools of a level are the strings its own table has.
  ghost predicate ToolsOf(layer: Json, tools: map<string, string>) {
    forall t, v :: (t in tools && tools[t] == v) <==> Say(layer, ["tools", t]) == Says(Leaf(Str(v)))
  }

  lemma ToolsLayerIsOfTheLayer(layer: Json)
    requires IsMapping(layer) && ToolsLayer(layer).Some?
    ensures ToolsOf(layer, ToolsLayer(layer).value)
  {
    var tools := ToolsLayer(layer).value;
    forall t, v ensures (t in tools && tools[t] == v) <==> Say(layer, ["tools", t]) == Says(Leaf(Str(v))) {
      assert ["tools", t][1..] == [t] && [t][1..] == [];
      if layer.Obj? && "tools" in layer.fields {
        var table := layer.fields["tools"];
        assert Say(layer, ["tools", t]) == Speak(table, [t]);
        if table.Obj? && t in table.fields {
          assert Speak(table, [t]) == Speak(table.fields[t], []);
        }
      }
    }
  }

  // A resolved crew has its own facts and the tools of its own level, and the
  // file's agents, each with the first word of its five sources.
  ghost predicate CrewIsOfTheFile(opts: Options, file: FleetFile, c: string, crew: CrewSpec)
    requires c in file.crews
  {
    && crew.repo == file.crews[c].repo && crew.gitRef == file.crews[c].gitRef && crew.git == file.crews[c].git
    && ToolsOf(file.crews[c].defaults, crew.tools)
    && crew.agents.Keys == file.crews[c].agents.Keys
    && (forall a {:trigger crew.agents[a]} :: a in crew.agents ==> IsOfTheFile(opts, file, c, a, crew.agents[a]))
  }

  // A resolved fleet is the file's, with all of its crews and no other.
  ghost predicate IsResolutionOf(opts: Options, file: FleetFile, spec: FleetSpec) {
    && (match opts.nameOverride case Some(n) => spec.name == n case None => file.name == Some(spec.name))
    && spec.name != "balerix" && spec.name != "watch"
    && ToolsOf(file.defaults, spec.tools)
    && spec.crews.Keys == file.crews.Keys
    && (forall c {:trigger spec.crews[c]} :: c in spec.crews ==> CrewIsOfTheFile(opts, file, c, spec.crews[c]))
  }

  lemma ResolvedCrewIsOfTheFile(opts: Options, file: FleetFile, c: string)
    requires c in file.crews && CrewResolves(opts, file, c)
    ensures CrewIsOfTheFile(opts, file, c, ResolvedCrew(opts, file, c))
  {
    ToolsLayerIsOfTheLayer(file.crews[c].defaults);
    forall a | a in file.crews[c].agents ensures IsOfTheFile(opts, file, c, a, ResolvedCrew(opts, file, c).agents[a]) {
      assert AgentResolves(opts, file, c, a);
      SettingsAreTheFirstWord(opts, file, c, a);
    }
  }

  lemma ResolvedIsAResolution(opts: Options, file: FleetFile)
    requires LayersResolve(opts, file)
    ensures IsResolutionOf(opts, file, Resolved(opts, file))
  {
    ToolsLayerIsOfTheLayer(file.defaults);
    forall c | c in file.crews ensures CrewIsOfTheFile(opts, file, c, Resolved(opts, file).crews[c]) {
      assert CrewResolves(opts, file, c);
      ResolvedCrewIsOfTheFile(opts, file, c);
    }
  }

  predicate HasAgentLayer(file: FleetFile, crew: string, agent: string) {
    crew in file.crews && agent in file.crews[crew].agents
  }

  // --- The resolver -------------------------------------------------------------------

  datatype LayerName = Operator | Defaults | CrewDefaults(crew: string) | AgentLayer(crew: string, agent: string)

  datatype ConfigError =
    | BadName
    | BadLayer(at: LayerName)
    | BadAgent(crew: string, agent: string)
    | Refused(fault: FleetError)

  // The file and options have the fault the error names, in the layer it
  // names.
  predicate Faulty(opts: Options, file: FleetFile, e: ConfigError) {
    match e
    case BadName => FleetName(opts, file).None? || ReservedFleet(FleetName(opts, file).value)
    case BadLayer(Operator) => !OperatorLayerOk(opts)
    case BadLayer(Defaults) => !DefaultsOk(opts, file.defaults)
    case BadLayer(CrewDefaults(c)) => c in file.crews && !DefaultsOk(opts, file.crews[c].defaults)
    case BadLayer(AgentLayer(c, a)) =>
      HasAgentLayer(file, c, a) && !FileLayerOk(opts, file.crews[c].agents[a])
    case BadAgent(c, a) =>
      HasAgentLayer(file, c, a) && FileLayerOk(opts, file.crews[c].agents[a]) && !AgentResolves(opts, file, c, a)
    case Refused(fault) =>
      LayersResolve(opts, file) && Blames(Resolved(opts, file), fault) && OfNamesAndRepos(fault)
  }

  method SandboxLayer(layer: Json) returns (ok: bool)
    ensures ok <==> SandboxLayerOk(layer)
  {
    var field := Field(layer, "sandbox");
    if field.None? || field.value.Null? {
      return true;
    }
    var grants := CheckSandboxBlock(Policy.Fleet, StripNulls(field.value));
    return grants.Some?;
  }

  method FileLayer(opts: Options, layer: Json) returns (ok: bool)
    ensures ok <==> FileLayerOk(opts, layer)
  {
    if !IsMapping(layer) || (opts.restricted && CheckLayer(layer).Some?) {
      return false;
    }
    ok := SandboxLayer(layer);
  }

  method Defaults(opts: Options, layer: Json) returns (tools: Option<map<string, string>>)
    ensures tools.Some? <==> DefaultsOk(opts, layer)
    ensures tools.Some? ==> tools == ToolsLayer(layer)
  {
    var ok := FileLayer(opts, layer);
    if !ok {
      return None;
    }
    tools := ReadToolsLayer(layer);
  }

  method ResolveAgent(opts: Options, file: FleetFile, crew: string, agent: string)
    returns (r: Result<AgentSettings, ConfigError>)
    requires HasAgentLayer(file, crew, agent)
    ensures r.Ok? <==> AgentResolves(opts, file, crew, agent)
    ensures r.Ok? ==> r.value == Settings(opts, file, crew, agent) && IsOfTheFile(opts, file, crew, agent, r.value)
    ensures r.Err? ==> Faulty(opts, file, r.error) && !r.error.Refused?
  {
    var ok := FileLayer(opts, file.crews[crew].agents[agent]);
    if !ok {
      return Err(BadLayer(AgentLayer(crew, agent)));
    }
    var settings := Typed(opts, Merged(opts, file, crew, agent));
    if settings.None? {
      return Err(BadAgent(crew, agent));
    }
    SettingsAreTheFirstWord(opts, file, crew, agent);
    return Ok(settings.value);
  }

  // The agents resolved so far: all but those still to do.
  ghost predicate AgentsRead(opts: Options, file: FleetFile, crew: string, todo: set<string>,
                             agents: map<string, AgentSettings>)
    requires crew in file.crews
  {
    && todo <= file.crews[crew].agents.Keys
    && agents.Keys == file.crews[crew].agents.Keys - todo
    && forall a {:trigger agents[a]} :: a in agents ==>
      AgentResolves(opts, file, crew, a) && agents[a] == Settings(opts, file, crew, a)
  }

  lemma AllAgentsRead(opts: Options, file: FleetFile, crew: string, agents: map<string, AgentSettings>)
    requires crew in file.crews && AgentsRead(opts, file, crew, {}, agents)
    ensures forall a {:trigger AgentResolves(opts, file, crew, a)} ::
      a in file.crews[crew].agents ==> AgentResolves(opts, file, crew, a)
    ensures agents == map a | a in file.crews[crew].agents && AgentResolves(opts, file, crew, a) ::
      Settings(opts, file, crew, a)
  {
    forall a | a in file.crews[crew].agents ensures AgentResolves(opts, file, crew, a) {
      assert a in agents;
      assert agents[a] == agents[a];
    }
  }

  method ResolveCrew(opts: Options, file: FleetFile, crew: string) returns (r: Result<CrewSpec, ConfigError>)
    requires crew in file.crews
    ensures r.Ok? <==> CrewResolves(opts, file, crew)
    ensures r.Ok? ==> r.value == ResolvedCrew(opts, file, crew) && CrewIsOfTheFile(opts, file, crew, r.value)
    ensures r.Err? ==> Faulty(opts, file, r.error) && !r.error.Refused?
  {
    var c := file.crews[crew];
    var tools := Defaults(opts, c.defaults);
    if tools.None? {
      return Err(BadLayer(CrewDefaults(crew)));
    }
    var agents: map<string, AgentSettings> := map[];
    var todo := c.agents.Keys;
    while todo != {}
      invariant AgentsRead(opts, file, crew, todo, agents)
      decreases todo
    {
      var a :| a in todo;
      var settings := ResolveAgent(opts, file, crew, a);
      if settings.Err? {
        return Err(settings.error);
      }
      agents := agents[a := settings.value];
      todo := todo - {a};
    }
    AllAgentsRead(opts, file, crew, agents);
    ResolvedCrewIsOfTheFile(opts, file, crew);
    return Ok(CrewSpec(c.repo, c.gitRef, c.git, tools.value, agents));
  }

  method ResolveCrews(opts: Options, file: FleetFile) returns (r: Result<map<string, CrewSpec>, ConfigError>)
    ensures r.Ok? <==> CrewsResolve(opts, file)
    ensures r.Ok? ==> r.value == ResolvedCrews(opts, file)
    ensures r.Err? ==> Faulty(opts, file, r.error) && !r.error.Refused?
  {
    var crews: map<string, CrewSpec> := map[];
    var todo := file.crews.Keys;
    while todo != {}
      invariant todo <= file.crews.Keys
      invariant forall c {:trigger CrewResolves(opts, file, c)} ::
        c in file.crews && c !in todo ==> CrewResolves(opts, file, c)
      invariant crews == map c | c in file.crews && CrewResolves(opts, file, c) && c !in todo ::
        ResolvedCrew(opts, file, c)
      decreases todo
    {
      var c :| c in todo;
      var crew := ResolveCrew(opts, file, c);
      if crew.Err? {
        return Err(crew.error);
      }
      crews := crews[c := crew.value];
      todo := todo - {c};
    }
    return Ok(crews);
  }

  // The whole resolver: it succeeds exactly when
  // the layers resolve and the names and repositories are good; then every
  // agent of the file, and no other, carries the typed merge of its layers.
  method Resolve(opts: Options, file: FleetFile) returns (r: Result<FleetSpec, ConfigError>)
    ensures r.Ok? <==> LayersResolve(opts, file) && NamesAndRepos(Resolved(opts, file))
    ensures r.Ok? ==> r.value == Resolved(opts, file) && SpecOk(r.value) && IsResolutionOf(opts, file, r.value)
    ensures r.Err? ==> Faulty(opts, file, r.error)
  {
    var name := FleetName(opts, file);
    if name.None? || ReservedFleet(name.value) {
      return Err(BadName);
    }
    if opts.operatorLayer.Some? {
      var ok := SandboxLayer(opts.operatorLayer.value);
      if !IsMapping(opts.operatorLayer.value) || !ok {
        return Err(BadLayer(Operator));
      }
    }
    var tools := Defaults(opts, file.defaults);
    if tools.None? {
      return Err(BadLayer(LayerName.Defaults));
    }
    var crews := ResolveCrews(opts, file);
    if crews.Err? {
      return Err(crews.error);
    }
    var spec := FleetSpec(name.value, tools.value, crews.value);
    assert spec == Resolved(opts, file);
    TheRecheckIsOfNamesAndRepos(opts, file);
    ResolvedIsAResolution(opts, file);
    var fleet := TryFrom(spec);
    if fleet.Err? {
      return Err(Refused(fleet.error));
    }
    return Ok(spec);
  }
}
