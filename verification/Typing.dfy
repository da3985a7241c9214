// What an agent's settings are once typed.
module AgentTypes {
  import opened Basics
  import opened JsonValues

  datatype ClaudeSettings = ClaudeSettings(settings: Json, args: seq<string>, resume: bool, binary: string)

  datatype RunnerKind = Tmux | Pod

  datatype AgentSettings = AgentSettings(
    claude: ClaudeSettings,
    sandbox: Json,
    tools: map<string, string>,
    env: map<string, string>,
    runner: RunnerKind,
    plugins: map<string, Json>,
    branch: Option<string>)
}

// The typing of a merged block, and what the typed settings hold: in each of
// them the first word of five sources.
module Typing {
  import opened Basics
  import opened JsonValues
  import opened Merging
  import opened AgentTypes

  // --- Typing a merged block ------------------------------------------------

  function StringMap(v: Option<Json>): Option<map<string, string>> {
    match v
    case None => Some(map[])
    case Some(Obj(m)) =>
      if forall k :: k in m ==> m[k].Str? then Some(map k | k in m && m[k].Str? :: m[k].s) else None
    case _ => None
  }

  function StringList(v: Option<Json>): Option<seq<string>> {
    match v
    case None => Some([])
    case Some(Arr(a)) =>
      if forall i :: 0 <= i < |a| ==> a[i].Str?
      then Some(seq(|a|, i requires 0 <= i < |a| => if a[i].Str? then a[i].s else ""))
      else None
    case _ => None
  }

  function ReadClaude(v: Option<Json>): Option<ClaudeSettings> {
    match v
    case None => Some(ClaudeSettings(EMPTY_OBJECT, [], false, "claude"))
    case Some(Obj(m)) =>
      var args := StringList(Field(Obj(m), "args"));
      if !(m.Keys <= {"settings", "args", "resume", "binary"}) || args.None? then None
      else if "resume" in m && !m["resume"].Bool? then None
      else if "binary" in m && !m["binary"].Str? then None
      else Some(ClaudeSettings(
        if "settings" in m then m["settings"] else EMPTY_OBJECT,
        args.value,
        "resume" in m && m["resume"].b,
        if "binary" in m then m["binary"].s else "claude"))
    case _ => None
  }

  function ReadRunner(v: Option<Json>): Option<RunnerKind> {
    match v
    case None => Some(Tmux)
    case Some(Obj(m)) =>
      if "type" !in m then None
      else if m["type"] == Str("tmux") then if m.Keys == {"type"} then Some(Tmux) else None
      else if m["type"] == Str("pod") then
        if m.Keys <= {"type", "resources", "storage", "nodeSelector", "tolerations"}
          && StringMap(Field(Obj(m), "nodeSelector")).Some?
          && ("tolerations" in m ==> m["tolerations"].Arr?)
        then Some(Pod) else None
      else None
    case _ => None
  }

  function ReadPlugins(v: Option<Json>): Option<map<string, Json>> {
    match v
    case None => Some(map[])
    case Some(Obj(m)) => Some(m)
    case _ => None
  }

  function ReadBranch(v: Option<Json>): Option<Option<string>> {
    match v
    case None => Some(None)
    case Some(Null) => Some(None)
    case Some(Str(s)) => Some(Some(s))
    case _ => None
  }

  // The settings a merged block types as; unknown keys are refused, and an
  // absent `sandbox` is the empty object.
  function ReadSettings(v: Json): Option<AgentSettings> {
    if !v.Obj? || !(v.fields.Keys <= {"claude", "sandbox", "tools", "env", "runner", "plugins", "flow", "branch"}) then None
    else if "plugins" in v.fields && "flow" in v.fields then None
    else
      match (ReadClaude(Field(v, "claude")), StringMap(Field(v, "tools")), StringMap(Field(v, "env")),
        ReadRunner(Field(v, "runner")), ReadBranch(Field(v, "branch")),
        ReadPlugins(Field(v, if "flow" in v.fields then "flow" else "plugins")))
      case (Some(claude), Some(tools), Some(env), Some(runner), Some(branch), Some(plugins)) =>
        Some(AgentSettings(claude, SandboxOf(v), tools, env, runner, plugins, branch))
      case _ => None
  }

  function SandboxOf(v: Json): Json {
    match Field(v, "sandbox")
    case None => EMPTY_OBJECT
    case Some(block) => block
  }

  // --- Where a setting is typed from -------------------------------------------------

  // The text at a path, if a text is there.
  function TextAt(v: Json, path: Path): Option<string> {
    match At(v, path)
    case Some(Str(s)) => Some(s)
    case _ => None
  }

  // The settings that say what an agent runs as are as typed from `m`.
  ghost predicate RunsAsIn(s: AgentSettings, m: Json) {
    && StringMap(At(m, ["env"])) == Some(s.env)
    && s.sandbox == (match At(m, ["sandbox"]) case Some(block) => block case None => EMPTY_OBJECT)
    && s.claude.binary == (match TextAt(m, ["claude", "binary"]) case Some(b) => b case None => "claude")
    && (At(m, ["claude", "binary"]).Some? ==> TextAt(m, ["claude", "binary"]).Some?)
    && StringList(At(m, ["claude", "args"])) == Some(s.claude.args)
    && (forall k :: k in {"env", "apiKeyHelper", "disableAllHooks"} ==>
      At(s.claude.settings, [k]) == At(m, ["claude", "settings", k]))
  }

  lemma FieldIsAt(v: Json, k: string)
    ensures Field(v, k) == At(v, [k])
  {
    assert [k][1..] == [];
  }

  lemma AtBeneath(v: Json, k: string, rest: Path)
    ensures At(v, [k] + rest) == if At(v, [k]).Some? then At(At(v, [k]).value, rest) else None
  {
    AtConcat(v, [k], rest);
  }

  // Settings are typed from what is at those paths of the block.
  lemma SettingsAreReadFromTheirPaths(m: Json)
    requires ReadSettings(m).Some?
    ensures RunsAsIn(ReadSettings(m).value, m)
  {
    FieldIsAt(m, "env");
    FieldIsAt(m, "sandbox");
    FieldIsAt(m, "claude");
    ClaudeIsReadFromItsPaths(m);
  }

  lemma ClaudeIsReadFromItsPaths(m: Json)
    requires m.Obj? && ReadClaude(At(m, ["claude"])).Some?
    ensures var c := ReadClaude(At(m, ["claude"])).value;
      && c.binary == (match TextAt(m, ["claude", "binary"]) case Some(b) => b case None => "claude")
      && (At(m, ["claude", "binary"]).Some? ==> TextAt(m, ["claude", "binary"]).Some?)
      && StringList(At(m, ["claude", "args"])) == Some(c.args)
      && (forall k :: At(c.settings, [k]) == At(m, ["claude", "settings", k]))
  {
    AtBeneath(m, "claude", ["binary"]);
    AtBeneath(m, "claude", ["args"]);
    assert ["claude"] + ["binary"] == ["claude", "binary"] && ["claude"] + ["args"] == ["claude", "args"];
    var c := ReadClaude(At(m, ["claude"])).value;
    if At(m, ["claude"]).Some? {
      var v := At(m, ["claude"]).value;
      FieldIsAt(v, "binary");
      FieldIsAt(v, "args");
      FieldIsAt(v, "settings");
    }
    forall k ensures At(c.settings, [k]) == At(m, ["claude", "settings", k]) {
      AtBeneath(m, "claude", ["settings", k]);
      assert ["claude"] + ["settings", k] == ["claude", "settings", k];
      if At(m, ["claude"]).Some? {
        AtBeneath(At(m, ["claude"]).value, "settings", [k]);
        assert ["settings"] + [k] == ["settings", k];
      }
    }
  }

  // --- Whose word the settings are ---------------------------------------------------

  // What the host's settings say: they are the agent's `claude.settings`, but
  // for their `hooks`.
  function HostSays(s: Json, path: Path): Voice {
    if path == [] then Says(Mapping)
    else if path[0] != "claude" then Silent
    else if |path| == 1 then Says(Mapping)
    else if path[1] != "settings" then Silent
    else if s.Obj? && |path| > 2 && path[2] == "hooks" then Silent
    else Speak(s, path[2..])
  }

  // The five places an agent's settings come from.
  datatype Sources = Sources(
    agent: Json,
    crew: Json,
    fleet: Json,
    operator: Option<Json>,
    host: Option<Json>)

  // The first word on a path: the agent's own layer's, the crew's, the file's,
  // the operator's, the host's.
  function FirstWord(src: Sources, path: Path): Content {
    match Say(src.agent, path)
    case Says(c) => c
    case Silent =>
      match Say(src.crew, path)
      case Says(c) => c
      case Silent =>
        match Say(src.fleet, path)
        case Says(c) => c
        case Silent => FirstWordBeneath(src.operator, src.host, path)
  }

  function FirstWordBeneath(operator: Option<Json>, host: Option<Json>, path: Path): Content {
    match (if operator.Some? then Say(operator.value, path) else Silent)
    case Says(c) => c
    case Silent =>
      match (if host.Some? then HostSays(host.value, path) else Silent)
      case Says(c) => c
      case Silent => if path == [] then Mapping else Absent
  }

  // The block `m` holds at every path the first word on it.
  ghost predicate Speaks(src: Sources, m: Json) {
    forall path :: ContentAt(m, path) == FirstWord(src, path)
  }

  // What the typed settings say of what is held at their paths; what nobody
  // speaks of has its default.
  predicate TextHeld(at: Content, text: string, default: string) {
    if at == Absent then text == default else at == Leaf(Str(text))
  }

  ghost predicate TableHeld(src: Sources, k: string, table: map<string, string>) {
    forall t, v :: (t in table && table[t] == v) <==> FirstWord(src, [k, t]) == Leaf(Str(v))
  }

  // All that is held at a path and beneath it.
  ghost predicate ValueHeld(src: Sources, path: Path, v: Json) {
    forall q :: ContentAt(v, q) == FirstWord(src, path + q)
  }

  predicate ArgumentsHeld(at: Content, args: seq<string>) {
    match at
    case Absent => args == []
    case Leaf(Arr(items)) => |items| == |args| && forall i :: 0 <= i < |args| && i < |items| ==> items[i] == Str(args[i])
    case _ => false
  }

  predicate BranchHeld(at: Content, branch: Option<string>) {
    at == match branch case Some(b) => Leaf(Str(b)) case None => Absent
  }

  predicate RunnerHeld(src: Sources, runner: RunnerKind) {
    match runner
    case Tmux => FirstWord(src, ["runner"]) == Absent || FirstWord(src, ["runner", "type"]) == Leaf(Str("tmux"))
    case Pod => FirstWord(src, ["runner", "type"]) == Leaf(Str("pod"))
  }

  // Plugins are found under their older name when anything is there.
  ghost predicate PluginsHeld(src: Sources, plugins: map<string, Json>) {
    var name := if FirstWord(src, ["flow"]) != Absent then "flow" else "plugins";
    && (forall p :: p in plugins <==> FirstWord(src, [name, p]) != Absent)
    && (forall p :: p in plugins ==> ValueHeld(src, [name, p], plugins[p]))
  }

  ghost predicate ClaudeHeld(src: Sources, c: ClaudeSettings) {
    && TextHeld(FirstWord(src, ["claude", "binary"]), c.binary, "claude")
    && ArgumentsHeld(FirstWord(src, ["claude", "args"]), c.args)
    && (c.resume <==> FirstWord(src, ["claude", "resume"]) == Leaf(Bool(true)))
    && (if FirstWord(src, ["claude", "settings"]) == Absent then c.settings == EMPTY_OBJECT
      else ValueHeld(src, ["claude", "settings"], c.settings))
  }

  ghost predicate SettingsHeld(src: Sources, s: AgentSettings) {
    && ClaudeHeld(src, s.claude)
    && (if FirstWord(src, ["sandbox"]) == Absent then s.sandbox == EMPTY_OBJECT
      else ValueHeld(src, ["sandbox"], s.sandbox))
    && TableHeld(src, "tools", s.tools)
    && TableHeld(src, "env", s.env)
    && BranchHeld(FirstWord(src, ["branch"]), s.branch)
    && RunnerHeld(src, s.runner)
    && PluginsHeld(src, s.plugins)
  }

  lemma ContentBelow(m: Json, k: string, path: Path)
    ensures ContentAt(m, [k] + path) == if Field(m, k).Some? then ContentAt(Field(m, k).value, path) else Absent
  {
    FieldIsAt(m, k);
    AtBeneath(m, k, path);
  }

  lemma HeldBelow(src: Sources, m: Json, k: string, path: Path)
    requires Speaks(src, m)
    ensures FirstWord(src, [k] + path) == if Field(m, k).Some? then ContentAt(Field(m, k).value, path) else Absent
  {
    ContentBelow(m, k, path);
    assert ContentAt(m, [k] + path) == FirstWord(src, [k] + path);
  }

  lemma HeldAt(src: Sources, m: Json, k: string)
    requires Speaks(src, m)
    ensures FirstWord(src, [k]) == if Field(m, k).Some? then ContentAt(Field(m, k).value, []) else Absent
  {
    HeldBelow(src, m, k, []);
    assert [k] + [] == [k];
  }

  lemma HeldAtTwo(src: Sources, m: Json, k: string, j: string)
    requires Speaks(src, m)
    ensures FirstWord(src, [k, j]) ==
      if Field(m, k).Some? && Field(Field(m, k).value, j).Some? then ContentAt(Field(Field(m, k).value, j).value, [])
      else Absent
  {
    HeldBelow(src, m, k, [j]);
    assert [k] + [j] == [k, j];
    if Field(m, k).Some? {
      ContentBelow(Field(m, k).value, j, []);
      assert [j] + [] == [j];
    }
  }

  lemma TableIsRead(src: Sources, m: Json, k: string, table: map<string, string>)
    requires Speaks(src, m) && StringMap(Field(m, k)) == Some(table)
    ensures TableHeld(src, k, table)
  {
    forall t, v ensures (t in table && table[t] == v) <==> FirstWord(src, [k, t]) == Leaf(Str(v)) {
      HeldAtTwo(src, m, k, t);
    }
  }

  lemma ValueIsRead(src: Sources, m: Json, k: string)
    requires Speaks(src, m) && Field(m, k).Some?
    ensures ValueHeld(src, [k], Field(m, k).value)
  {
    forall q ensures ContentAt(Field(m, k).value, q) == FirstWord(src, [k] + q) {
      HeldBelow(src, m, k, q);
    }
  }

  lemma ValueIsReadBelow(src: Sources, m: Json, k: string, j: string)
    requires Speaks(src, m) && Field(m, k).Some? && Field(Field(m, k).value, j).Some?
    ensures ValueHeld(src, [k, j], Field(Field(m, k).value, j).value)
  {
    var v := Field(m, k).value;
    forall q ensures ContentAt(Field(v, j).value, q) == FirstWord(src, [k, j] + q) {
      HeldBelow(src, m, k, [j] + q);
      ContentBelow(v, j, q);
      assert [k] + ([j] + q) == [k, j] + q;
    }
  }

  lemma PluginsAreRead(src: Sources, m: Json, plugins: map<string, Json>)
    requires Speaks(src, m) && Clean(m) && m.Obj?
    requires ReadPlugins(Field(m, if "flow" in m.fields then "flow" else "plugins")) == Some(plugins)
    ensures PluginsHeld(src, plugins)
  {
    var name := if "flow" in m.fields then "flow" else "plugins";
    HeldAt(src, m, "flow");
    forall p
      ensures p in plugins <==> FirstWord(src, [name, p]) != Absent
      ensures p in plugins ==> ValueHeld(src, [name, p], plugins[p])
    {
      HeldAtTwo(src, m, name, p);
      if p in plugins {
        ValueIsReadBelow(src, m, name, p);
      }
    }
  }

  lemma ClaudeWordsAreRead(src: Sources, m: Json, c: ClaudeSettings)
    requires Speaks(src, m) && ReadClaude(Field(m, "claude")) == Some(c)
    ensures TextHeld(FirstWord(src, ["claude", "binary"]), c.binary, "claude")
    ensures c.resume <==> FirstWord(src, ["claude", "resume"]) == Leaf(Bool(true))
  {
    HeldAtTwo(src, m, "claude", "binary");
    HeldAtTwo(src, m, "claude", "resume");
  }

  lemma ClaudeArgumentsAreRead(src: Sources, m: Json, c: ClaudeSettings)
    requires Speaks(src, m) && ReadClaude(Field(m, "claude")) == Some(c)
    ensures ArgumentsHeld(FirstWord(src, ["claude", "args"]), c.args)
  {
    HeldAtTwo(src, m, "claude", "args");
  }

  lemma ClaudeIsRead(src: Sources, m: Json, c: ClaudeSettings)
    requires Speaks(src, m) && Clean(m) && m.Obj? && ReadClaude(Field(m, "claude")) == Some(c)
    ensures ClaudeHeld(src, c)
  {
    ClaudeWordsAreRead(src, m, c);
    ClaudeArgumentsAreRead(src, m, c);
    HeldAtTwo(src, m, "claude", "settings");
    if Field(m, "claude").Some? {
      var v := Field(m, "claude").value;
      assert Clean(v);
      if Field(v, "settings").Some? {
        ValueIsReadBelow(src, m, "claude", "settings");
      }
    }
  }

  lemma RunnerIsRead(src: Sources, m: Json, runner: RunnerKind)
    requires Speaks(src, m) && ReadRunner(Field(m, "runner")) == Some(runner)
    ensures RunnerHeld(src, runner)
  {
    HeldAt(src, m, "runner");
    HeldAtTwo(src, m, "runner", "type");
  }

  lemma SettingsAreRead(src: Sources, m: Json, s: AgentSettings)
    requires Speaks(src, m) && Clean(m) && ReadSettings(m) == Some(s)
    ensures SettingsHeld(src, s)
  {
    ClaudeIsRead(src, m, s.claude);
    HeldAt(src, m, "sandbox");
    if Field(m, "sandbox").Some? {
      ValueIsRead(src, m, "sandbox");
    }
    TableIsRead(src, m, "tools", s.tools);
    TableIsRead(src, m, "env", s.env);
    HeldAt(src, m, "branch");
    RunnerIsRead(src, m, s.runner);
    PluginsAreRead(src, m, s.plugins);
  }
}
