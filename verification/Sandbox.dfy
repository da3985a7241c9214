// Two independent readings of a `sandbox` block: predicates and a grant
// relation over the block, and the walk that checks it and collects grants,
// proved against them. Then what merging two accepted blocks can do.
module Sandboxes {
  import opened Basics
  import opened Order
  import opened JsonValues
  import opened Merging

  datatype Policy = Plugin | Fleet

  datatype Access = Read | Write | Socket

  // The allowlists a block is held to. A key outside `access` is not
  // accepted in a `filesystem` section; one mapped to None is accepted and
  // grants nothing.
  datatype Rules = Rules(
    access: map<string, Option<Access>>,
    network: set<string>,
    security: set<string>,
    oses: set<string>)

  const IPC_MODE: string := "shared_memory_only"

  function AccessOf(rules: Rules, key: string): Option<Option<Access>> {
    if key in rules.access then Some(rules.access[key]) else None
  }

  // What an entry names, if it has one of the two shapes an entry may have.
  function EntryText(v: Json): Option<string> {
    match v
    case Str(s) => Some(s)
    case Obj(m) =>
      if (forall k :: k in m ==> k in {"path", "when"}) && "path" in m && m["path"].Str?
      then Some(m["path"].s)
      else None
    case _ => None
  }

  // A path's components: empty parts and `.` do not count.
  function Named(parts: seq<string>): seq<string> {
    if parts == [] then []
    else if parts[0] in {"", "."} then Named(parts[1..])
    else [parts[0]] + Named(parts[1..])
  }

  function Components(raw: string): seq<string> {
    Named(Split(raw, '/'))
  }

  // A path that means itself: nothing in it is expanded or climbs, and it is
  // not in a tree whose entries differ by process.
  predicate LiteralPath(raw: string) {
    && "/" <= raw
    && (forall c :: c in raw ==> c !in {'$', '*', '?', '[', '{'})
    && ".." !in Components(raw)
    && !(["proc"] <= Components(raw))
    && !(["dev", "fd"] <= Components(raw))
  }

  // --- What a path names ----------------------------------------------------

  // `raw` is a way to write the path of these names: names between slashes, with
  // any more slashes and `.` segments anywhere.
  predicate Spells(raw: string, names: seq<string>)
    decreases |raw|
  {
    match SplitOnce(raw, '/')
    case None => names == if raw == "" || raw == "." then [] else [raw]
    case Some((seg, rest)) =>
      if |rest| >= |raw| then false
      else if seg == "" || seg == "." then Spells(rest, names)
      else names != [] && names[0] == seg && Spells(rest, names[1..])
  }

  lemma {:induction false} NamedAppends(a: seq<string>, b: seq<string>)
    ensures Named(a + b) == Named(a) + Named(b)
  {
    if a == [] {
      assert a + b == b;
    } else {
      var more := a[1..];
      NamedAppends(more, b);
      assert a + b == [a[0]] + (more + b);
      NamedOneMore(a[0], more + b);
      assert a == [a[0]] + more;
      NamedOneMore(a[0], more);
      assert [a[0]] + (Named(more) + Named(b)) == ([a[0]] + Named(more)) + Named(b);
    }
  }

  lemma NamedOneMore(part: string, parts: seq<string>)
    ensures Named([part] + parts) == if part in {"", "."} then Named(parts) else [part] + Named(parts)
  {
    assert ([part] + parts)[1..] == parts;
  }

  // Components go segment by segment: what is before a slash, and then what is
  // after it; a segment is itself, but for the empty one and `.`.
  lemma ComponentsOfTwo(a: string, b: string)
    ensures Components(a + "/" + b) == Components(a) + Components(b)
  {
    SplitAppend(a, b, '/');
    assert a + "/" + b == a + ['/'] + b;
    NamedAppends(Split(a, '/'), Split(b, '/'));
  }

  lemma ComponentsOfOne(seg: string)
    requires '/' !in seg
    ensures Components(seg) == if seg == "" || seg == "." then [] else [seg]
  {
    var one := [seg];
    assert Join(one, '/') == seg;
    SplitJoin(one, '/');
    assert Components(seg) == Named(one);
    assert one[1..] == [];
    assert Named(one[1..]) == [];
  }

  // A path's components are the names it spells, and it spells no others.
  lemma {:induction false} ComponentsAreSpelled(raw: string, names: seq<string>)
    ensures Spells(raw, names) <==> names == Components(raw)
    decreases |raw|
  {
    SplitOnceCuts(raw, '/');
    match SplitOnce(raw, '/')
    case None => ComponentsOfOne(raw);
    case Some((seg, rest)) =>
      assert raw == seg + "/" + rest;
      ComponentsOfTwo(seg, rest);
      ComponentsOfOne(seg);
      if seg == "" || seg == "." {
        ComponentsAreSpelled(rest, names);
      } else if names != [] && names[0] == seg {
        ComponentsAreSpelled(rest, names[1..]);
        assert names == [seg] + names[1..];
      }
  }

  // The plain spelling of some names is of those names.
  lemma {:induction false} PlainPathsAreTheirNames(names: seq<string>)
    requires |names| >= 1
    requires forall i :: 0 <= i < |names| ==> names[i] != "" && names[i] != "." && '/' !in names[i]
    ensures Components("/" + Join(names, '/')) == names
    ensures Components(Join(names, '/')) == names
  {
    ComponentsOfOne(names[0]);
    if |names| > 1 {
      PlainPathsAreTheirNames(names[1..]);
      assert Join(names, '/') == names[0] + "/" + Join(names[1..], '/');
      ComponentsOfTwo(names[0], Join(names[1..], '/'));
      assert [names[0]] + names[1..] == names;
    }
    assert "/" + Join(names, '/') == "" + "/" + Join(names, '/');
    ComponentsOfTwo("", Join(names, '/'));
    ComponentsOfOne("");
  }

  // A doubled slash, a `.` segment and a slash at the end change nothing.
  lemma SpellingsAreOne(a: string, b: string)
    ensures Components(a + "//" + b) == Components(a + "/" + b)
    ensures Components(a + "/./" + b) == Components(a + "/" + b)
    ensures Components(a + "/") == Components(a)
  {
    ComponentsOfOne("");
    ComponentsOfOne(".");
    ComponentsOfTwo(a, b);
    assert a + "//" + b == a + "/" + ("/" + b) && "/" + b == "" + "/" + b;
    ComponentsOfTwo(a, "/" + b);
    ComponentsOfTwo("", b);
    assert a + "/./" + b == a + "/" + ("./" + b) && "./" + b == "." + "/" + b;
    ComponentsOfTwo(a, "./" + b);
    ComponentsOfTwo(".", b);
    assert a + "/" == a + "/" + "";
    ComponentsOfTwo(a, "");
  }

  // Where no entry may lead: up, into `/proc`, or into `/dev/fd`.
  predicate Refused(names: seq<string>) {
    || ".." in names
    || (|names| >= 1 && names[0] == "proc")
    || (|names| >= 2 && names[0] == "dev" && names[1] == "fd")
  }

  // Absolute, with nothing in it that is expanded, and spelling no refused
  // place.
  ghost predicate StaysOut(raw: string) {
    && raw != "" && raw[0] == '/'
    && '$' !in raw && '*' !in raw && '?' !in raw && '[' !in raw && '{' !in raw
    && forall names :: Spells(raw, names) ==> !Refused(names)
  }

  lemma LiteralPathsStayOut(raw: string)
    ensures LiteralPath(raw) <==> StaysOut(raw)
  {
    ComponentsAreSpelled(raw, Components(raw));
    forall names | Spells(raw, names) ensures names == Components(raw) {
      ComponentsAreSpelled(raw, names);
    }
    StartsAt(Components(raw), "proc");
    StartsAtTwo(Components(raw), "dev", "fd");
  }

  lemma StartsAt(names: seq<string>, a: string)
    ensures [a] <= names <==> |names| >= 1 && names[0] == a
  {
  }

  lemma StartsAtTwo(names: seq<string>, a: string, b: string)
    ensures [a, b] <= names <==> |names| >= 2 && names[0] == a && names[1] == b
  {
  }

  // The shapes of an entry, and its text.
  predicate IsEntry(v: Json, raw: string) {
    v == Str(raw) || (v.Obj? && v.fields.Keys <= {"path", "when"} && "path" in v.fields && v.fields["path"] == Str(raw))
  }

  lemma EntryTextIsIt(v: Json, raw: string)
    ensures EntryText(v) == Some(raw) <==> IsEntry(v, raw)
  {
  }

  predicate EntryOk(v: Json) {
    EntryText(v).Some? && LiteralPath(EntryText(v).value)
  }

  predicate ListOk(rules: Rules, key: string, v: Json) {
    AccessOf(rules, key).Some? && v.Arr? && forall i {:trigger EntryOk(v.items[i])} :: 0 <= i < |v.items| ==> EntryOk(v.items[i])
  }

  predicate FilesystemOk(rules: Rules, v: Json) {
    v.Obj? && forall k :: k in v.fields ==> ListOk(rules, k, v.fields[k])
  }

  predicate NetworkOk(rules: Rules, v: Json) {
    && v.Obj?
    && (forall k :: k in v.fields ==> k in rules.network)
    && ("allow_domain" in v.fields ==>
      v.fields["allow_domain"].Arr? &&
      forall i :: 0 <= i < |v.fields["allow_domain"].items| ==> v.fields["allow_domain"].items[i].Str?)
  }

  predicate SecurityOk(rules: Rules, v: Json) {
    && v.Obj?
    && (forall k :: k in v.fields ==> k in rules.security)
    && ("ipc_mode" in v.fields ==> v.fields["ipc_mode"] == Str(IPC_MODE))
  }

  // One section of the top level or of a platform's patch.
  predicate SectionOk(rules: Rules, key: string, v: Json) {
    if key == "filesystem" then FilesystemOk(rules, v)
    else if key == "network" then NetworkOk(rules, v)
    else if key == "security" then SecurityOk(rules, v)
    else false
  }

  predicate PatchOk(rules: Rules, v: Json) {
    v.Obj? && forall k :: k in v.fields ==> SectionOk(rules, k, v.fields[k])
  }

  predicate OverrideOk(rules: Rules, os: string, v: Json) {
    os in rules.oses && PatchOk(rules, v)
  }

  predicate OverridesOk(rules: Rules, v: Json) {
    v.Obj? && forall os :: os in v.fields ==> OverrideOk(rules, os, v.fields[os])
  }

  predicate TopOk(rules: Rules, key: string, v: Json) {
    if key == "platform_overrides" then OverridesOk(rules, v) else SectionOk(rules, key, v)
  }

  // The block is within the allowlist.
  predicate BlockOk(rules: Rules, block: Json) {
    block.Obj? && forall k :: k in block.fields ==> TopOk(rules, k, block.fields[k])
  }

  // One path a block grants: entry `index` of the list `list`, at the top
  // level or under `platform_overrides.<os>`.
  datatype BlockGrant = BlockGrant(
    os: Option<string>,
    list: string,
    index: nat,
    raw: string,
    path: seq<string>,
    access: Access)

  function PatchPath(os: Option<string>): Path {
    match os
    case None => []
    case Some(name) => ["platform_overrides", name]
  }

  function ListPath(g: BlockGrant): Path {
    PatchPath(g.os) + ["filesystem", g.list]
  }

  // The list `v` hands out `g`.
  predicate ListGrants(rules: Rules, v: Json, g: BlockGrant) {
    && v.Arr?
    && g.index < |v.items|
    && EntryText(v.items[g.index]) == Some(g.raw)
    && g.path == Components(g.raw)
    && AccessOf(rules, g.list) == Some(Some(g.access))
  }

  // The block hands out `g`.
  predicate Grants(rules: Rules, block: Json, g: BlockGrant) {
    At(block, ListPath(g)).Some? && ListGrants(rules, At(block, ListPath(g)).value, g)
  }

  // --- The grants, in the order of the walk -------------------------------

  // The grants of the first `n` entries of a list.
  function GrantsOfEntries(rules: Rules, key: string, items: seq<Json>, os: Option<string>, n: nat): seq<BlockGrant>
    requires n <= |items|
  {
    if n == 0 then [] else
      var before := GrantsOfEntries(rules, key, items, os, n - 1);
      match (AccessOf(rules, key), EntryText(items[n - 1]))
      case (Some(Some(access)), Some(raw)) =>
        before + [BlockGrant(os, key, n - 1, raw, Components(raw), access)]
      case _ => before
  }

  function GrantsOfList(rules: Rules, key: string, v: Json, os: Option<string>): seq<BlockGrant> {
    if v.Arr? then GrantsOfEntries(rules, key, v.items, os, |v.items|) else []
  }

  // The grants of the lists named by `keys`, in that order.
  function GrantsOfLists(rules: Rules, fs: map<string, Json>, os: Option<string>, keys: seq<string>, n: nat): seq<BlockGrant>
    requires n <= |keys|
  {
    if n == 0 then [] else
      var last := keys[n - 1];
      GrantsOfLists(rules, fs, os, keys, n - 1) + (if last in fs then GrantsOfList(rules, last, fs[last], os) else [])
  }

  ghost function GrantsOfSection(rules: Rules, key: string, v: Json, os: Option<string>): seq<BlockGrant> {
    if key == "filesystem" && v.Obj? then GrantsOfLists(rules, v.fields, os, Sorted(v.fields.Keys), |v.fields.Keys|) else []
  }

  ghost function GrantsOfSections(rules: Rules, u: map<string, Json>, os: Option<string>, keys: seq<string>, n: nat)
    : seq<BlockGrant>
    requires n <= |keys|
  {
    if n == 0 then [] else
      var last := keys[n - 1];
      GrantsOfSections(rules, u, os, keys, n - 1) + (if last in u then GrantsOfSection(rules, last, u[last], os) else [])
  }

  ghost function GrantsOfPatch(rules: Rules, v: Json, os: Option<string>): seq<BlockGrant> {
    if v.Obj? then GrantsOfSections(rules, v.fields, os, Sorted(v.fields.Keys), |v.fields.Keys|) else []
  }

  ghost function GrantsOfPatches(rules: Rules, patches: map<string, Json>, oses: seq<string>, n: nat): seq<BlockGrant>
    requires n <= |oses|
  {
    if n == 0 then [] else
      var last := oses[n - 1];
      GrantsOfPatches(rules, patches, oses, n - 1)
      + (if last in patches then GrantsOfPatch(rules, patches[last], Some(last)) else [])
  }

  ghost function GrantsOfTop(rules: Rules, key: string, v: Json): seq<BlockGrant> {
    if key != "platform_overrides" then GrantsOfSection(rules, key, v, None)
    else if v.Obj? then GrantsOfPatches(rules, v.fields, Sorted(v.fields.Keys), |v.fields.Keys|)
    else []
  }

  ghost function GrantsOfTops(rules: Rules, u: map<string, Json>, keys: seq<string>, n: nat): seq<BlockGrant>
    requires n <= |keys|
  {
    if n == 0 then [] else
      var last := keys[n - 1];
      GrantsOfTops(rules, u, keys, n - 1) + (if last in u then GrantsOfTop(rules, last, u[last]) else [])
  }

  // Every grant of a block, in the order of its keys.
  ghost function Collected(rules: Rules, block: Json): seq<BlockGrant> {
    if block.Obj? then GrantsOfTops(rules, block.fields, Sorted(block.fields.Keys), |block.fields.Keys|) else []
  }

  // --- The walk ------------------------------------------------------------

  class Walk {
    const rules: Rules
    var grants: seq<BlockGrant>

    constructor (rules: Rules)
      ensures this.rules == rules && grants == []
    {
      this.rules := rules;
      grants := [];
    }

    method List(key: string, entries: Json, os: Option<string>) returns (ok: bool)
      modifies this
      ensures ok <==> ListOk(rules, key, entries)
      ensures ok ==> grants == old(grants) + GrantsOfList(rules, key, entries, os)
    {
      var access := AccessOf(rules, key);
      if access.None? || !entries.Arr? {
        return false;
      }
      var items := entries.items;
      for i := 0 to |items|
        invariant forall j :: 0 <= j < i ==> EntryOk(items[j])
        invariant grants == old(grants) + GrantsOfEntries(rules, key, items, os, i)
      {
        var raw := EntryText(items[i]);
        if raw.None? || !LiteralPath(raw.value) {
          assert !EntryOk(items[i]);
          return false;
        }
        if access.value.Some? {
          grants := grants + [BlockGrant(os, key, i, raw.value, Components(raw.value), access.value.value)];
        }
      }
      return true;
    }

    // The lists of one `filesystem` section.
    method Filesystem(fs: map<string, Json>, keys: seq<string>, os: Option<string>) returns (ok: bool)
      requires forall i :: 0 <= i < |keys| ==> keys[i] in fs
      modifies this
      ensures ok <==> forall i :: 0 <= i < |keys| ==> ListOk(rules, keys[i], fs[keys[i]])
      ensures ok ==> grants == old(grants) + GrantsOfLists(rules, fs, os, keys, |keys|)
    {
      for i := 0 to |keys|
        invariant forall j :: 0 <= j < i ==> ListOk(rules, keys[j], fs[keys[j]])
        invariant grants == old(grants) + GrantsOfLists(rules, fs, os, keys, i)
      {
        var key, entries := keys[i], fs[keys[i]];
        ghost var before := GrantsOfLists(rules, fs, os, keys, i);
        var accepted := List(key, entries, os);
        if !accepted {
          return false;
        }
        Assoc(old(grants), before, GrantsOfList(rules, key, entries, os));
        assert GrantsOfLists(rules, fs, os, keys, i + 1) == before + GrantsOfList(rules, key, entries, os);
      }
      return true;
    }

    method Section(key: string, value: Json, os: Option<string>) returns (ok: bool)
      modifies this
      ensures ok <==> SectionOk(rules, key, value)
      ensures ok ==> grants == old(grants) + GrantsOfSection(rules, key, value, os)
    {
      if key == "filesystem" {
        if !value.Obj? {
          return false;
        }
        var keys := KeysInOrder(value.fields.Keys);
        InOrderCovers(keys, value.fields.Keys);
        ok := Filesystem(value.fields, keys, os);
      } else if key == "network" {
        ok := NetworkOk(rules, value);
      } else if key == "security" {
        ok := SecurityOk(rules, value);
      } else {
        ok := false;
      }
    }

    // The sections of one `platform_overrides.<os>` patch.
    method Patch(u: map<string, Json>, keys: seq<string>, os: Option<string>) returns (ok: bool)
      requires forall i :: 0 <= i < |keys| ==> keys[i] in u
      modifies this
      ensures ok <==> forall i :: 0 <= i < |keys| ==> SectionOk(rules, keys[i], u[keys[i]])
      ensures ok ==> grants == old(grants) + GrantsOfSections(rules, u, os, keys, |keys|)
    {
      for i := 0 to |keys|
        invariant forall j :: 0 <= j < i ==> SectionOk(rules, keys[j], u[keys[j]])
        invariant grants == old(grants) + GrantsOfSections(rules, u, os, keys, i)
      {
        var accepted := Section(keys[i], u[keys[i]], os);
        if !accepted {
          return false;
        }
        Assoc(old(grants), GrantsOfSections(rules, u, os, keys, i), GrantsOfSection(rules, keys[i], u[keys[i]], os));
      }
      return true;
    }

    method PatchOf(os: string, patch: Json) returns (ok: bool)
      modifies this
      ensures ok <==> OverrideOk(rules, os, patch)
      ensures ok ==> grants == old(grants) + GrantsOfPatch(rules, patch, Some(os))
    {
      if os !in rules.oses || !patch.Obj? {
        return false;
      }
      var keys := KeysInOrder(patch.fields.Keys);
      InOrderCovers(keys, patch.fields.Keys);
      ok := Patch(patch.fields, keys, Some(os));
    }

    method Overrides(patches: map<string, Json>, oses: seq<string>) returns (ok: bool)
      requires forall i :: 0 <= i < |oses| ==> oses[i] in patches
      modifies this
      ensures ok <==> forall i :: 0 <= i < |oses| ==> OverrideOk(rules, oses[i], patches[oses[i]])
      ensures ok ==> grants == old(grants) + GrantsOfPatches(rules, patches, oses, |oses|)
    {
      for i := 0 to |oses|
        invariant forall j :: 0 <= j < i ==> OverrideOk(rules, oses[j], patches[oses[j]])
        invariant grants == old(grants) + GrantsOfPatches(rules, patches, oses, i)
      {
        var os, patch := oses[i], patches[oses[i]];
        ghost var before := GrantsOfPatches(rules, patches, oses, i);
        var accepted := PatchOf(os, patch);
        if !accepted {
          return false;
        }
        Assoc(old(grants), before, GrantsOfPatch(rules, patch, Some(os)));
        assert GrantsOfPatches(rules, patches, oses, i + 1) == before + GrantsOfPatch(rules, patch, Some(os));
      }
      return true;
    }

    method Top(key: string, value: Json) returns (ok: bool)
      modifies this
      ensures ok <==> TopOk(rules, key, value)
      ensures ok ==> grants == old(grants) + GrantsOfTop(rules, key, value)
    {
      if key == "platform_overrides" {
        if !value.Obj? {
          return false;
        }
        var oses := KeysInOrder(value.fields.Keys);
        InOrderCovers(oses, value.fields.Keys);
        ok := Overrides(value.fields, oses);
      } else {
        ok := Section(key, value, None);
      }
    }

    // The top level.
    method Block(u: map<string, Json>, keys: seq<string>) returns (ok: bool)
      requires forall i :: 0 <= i < |keys| ==> keys[i] in u
      modifies this
      ensures ok <==> forall i :: 0 <= i < |keys| ==> TopOk(rules, keys[i], u[keys[i]])
      ensures ok ==> grants == old(grants) + GrantsOfTops(rules, u, keys, |keys|)
    {
      for i := 0 to |keys|
        invariant forall j :: 0 <= j < i ==> TopOk(rules, keys[j], u[keys[j]])
        invariant grants == old(grants) + GrantsOfTops(rules, u, keys, i)
      {
        var key, value := keys[i], u[keys[i]];
        ghost var before := GrantsOfTops(rules, u, keys, i);
        var accepted := Top(key, value);
        if !accepted {
          return false;
        }
        Assoc(old(grants), before, GrantsOfTop(rules, key, value));
        assert GrantsOfTops(rules, u, keys, i + 1) == before + GrantsOfTop(rules, key, value);
      }
      return true;
    }
  }

  // A map's keys in order are all its keys, and the order is the one.
  lemma InOrderCovers(s: seq<string>, keys: set<string>)
    requires InOrder(s, keys)
    ensures s == Sorted(keys) && |s| == |keys|
    ensures forall i :: 0 <= i < |s| ==> s[i] in keys
    ensures forall k :: k in keys ==> exists i :: 0 <= i < |s| && s[i] == k
  {
    InOrderHas(s, keys);
    TheOrderIsUnique(s, Sorted(keys), keys);
  }

  method CheckBlock(rules: Rules, block: Json) returns (r: Option<seq<BlockGrant>>)
    ensures r.Some? <==> BlockOk(rules, block)
    ensures r.Some? ==> r.value == Collected(rules, block)
  {
    if !block.Obj? {
      return None;
    }
    var walk := new Walk(rules);
    var keys := KeysInOrder(block.fields.Keys);
    InOrderCovers(keys, block.fields.Keys);
    var ok := walk.Block(block.fields, keys);
    return if ok then Some(walk.grants) else None;
  }

  // --- What is collected is what is granted, each grant once ----------------

  ghost predicate Once<T(!new)>(s: seq<T>) {
    forall i, j :: 0 <= i < j < |s| ==> s[i] != s[j]
  }

  lemma {:induction false} EntriesCollected(rules: Rules, key: string, v: Json, os: Option<string>, n: nat)
    requires v.Arr? && n <= |v.items|
    ensures forall g :: g in GrantsOfEntries(rules, key, v.items, os, n) <==>
      g.os == os && g.list == key && g.index < n && ListGrants(rules, v, g)
    ensures Once(GrantsOfEntries(rules, key, v.items, os, n))
  {
    if n > 0 {
      EntriesCollected(rules, key, v, os, n - 1);
    }
  }

  lemma {:induction false} ListsCollected(rules: Rules, fs: map<string, Json>, os: Option<string>, keys: seq<string>, n: nat)
    requires n <= |keys| && forall k :: k in keys ==> k in fs
    requires Increasing(keys)
    ensures forall g :: g in GrantsOfLists(rules, fs, os, keys, n) <==>
      g.os == os && g.list in keys[..n] && ListGrants(rules, fs[g.list], g)
    ensures Once(GrantsOfLists(rules, fs, os, keys, n))
  {
    if n > 0 {
      var last := keys[n - 1];
      assert keys[..n] == keys[..n - 1] + [last];
      ListsCollected(rules, fs, os, keys, n - 1);
      if fs[last].Arr? {
        EntriesCollected(rules, last, fs[last], os, |fs[last].items|);
      }
      FreshInOrder(keys, n - 1);
    }
  }

  lemma SectionCollected(rules: Rules, key: string, v: Json, os: Option<string>)
    ensures forall g :: g in GrantsOfSection(rules, key, v, os) <==>
      g.os == os && key == "filesystem" && v.Obj? && g.list in v.fields && ListGrants(rules, v.fields[g.list], g)
    ensures Once(GrantsOfSection(rules, key, v, os))
  {
    if key == "filesystem" && v.Obj? {
      SortedHas(v.fields.Keys);
      ListsCollected(rules, v.fields, os, Sorted(v.fields.Keys), |v.fields.Keys|);
    }
  }

  lemma SomeIn<T>(s: seq<T>)
    ensures s != [] ==> exists g :: g in s
  {
    if s != [] {
      assert s[0] in s;
    }
  }

  lemma {:induction false} SectionsCollected(rules: Rules, u: map<string, Json>, os: Option<string>, keys: seq<string>, n: nat)
    requires n <= |keys| && forall k :: k in keys ==> k in u
    requires Increasing(keys)
    ensures forall g :: g in GrantsOfSections(rules, u, os, keys, n) <==>
      "filesystem" in keys[..n] && g in GrantsOfSection(rules, "filesystem", u["filesystem"], os)
    ensures Once(GrantsOfSections(rules, u, os, keys, n))
  {
    if n > 0 {
      var last := keys[n - 1];
      assert keys[..n] == keys[..n - 1] + [last];
      SectionsCollected(rules, u, os, keys, n - 1);
      FreshInOrder(keys, n - 1);
      var before, section := GrantsOfSections(rules, u, os, keys, n - 1), GrantsOfSection(rules, last, u[last], os);
      if last == "filesystem" {
        SomeIn(before);
        assert before + section == section;
        SectionCollected(rules, last, u[last], os);
      } else {
        assert before + section == before;
      }
    }
  }

  lemma PatchCollected(rules: Rules, v: Json, os: Option<string>)
    ensures forall g :: g in GrantsOfPatch(rules, v, os) <==>
      g.os == os && At(v, ["filesystem", g.list]).Some? && ListGrants(rules, At(v, ["filesystem", g.list]).value, g)
    ensures Once(GrantsOfPatch(rules, v, os))
  {
    if v.Obj? {
      SortedHas(v.fields.Keys);
      SectionsCollected(rules, v.fields, os, Sorted(v.fields.Keys), |v.fields.Keys|);
      if "filesystem" in v.fields {
        SectionCollected(rules, "filesystem", v.fields["filesystem"], os);
      }
    }
    forall g: BlockGrant {
      AtTwo(v, "filesystem", g.list);
    }
  }

  lemma {:induction false} PatchesCollected(rules: Rules, patches: map<string, Json>, oses: seq<string>, n: nat)
    requires n <= |oses| && forall k :: k in oses ==> k in patches
    requires Increasing(oses)
    ensures forall g :: g in GrantsOfPatches(rules, patches, oses, n) <==>
      g.os.Some? && g.os.value in oses[..n] && g in GrantsOfPatch(rules, patches[g.os.value], g.os)
    ensures Once(GrantsOfPatches(rules, patches, oses, n))
  {
    if n > 0 {
      var last := oses[n - 1];
      assert oses[..n] == oses[..n - 1] + [last];
      PatchesCollected(rules, patches, oses, n - 1);
      PatchCollected(rules, patches[last], Some(last));
      FreshInOrder(oses, n - 1);
    }
  }

  lemma TopCollected(rules: Rules, key: string, v: Json)
    ensures forall g :: g in GrantsOfTop(rules, key, v) <==>
      if key == "platform_overrides"
      then g.os.Some? && v.Obj? && g.os.value in v.fields && g in GrantsOfPatch(rules, v.fields[g.os.value], g.os)
      else g in GrantsOfSection(rules, key, v, None)
    ensures Once(GrantsOfTop(rules, key, v))
  {
    if key != "platform_overrides" {
      SectionCollected(rules, key, v, None);
    } else if v.Obj? {
      SortedHas(v.fields.Keys);
      PatchesCollected(rules, v.fields, Sorted(v.fields.Keys), |v.fields.Keys|);
    }
  }

  lemma {:induction false} TopsCollected(rules: Rules, u: map<string, Json>, keys: seq<string>, n: nat)
    requires n <= |keys| && forall k :: k in keys ==> k in u
    requires Increasing(keys)
    ensures forall g :: g in GrantsOfTops(rules, u, keys, n) <==>
      var key := if g.os.Some? then "platform_overrides" else "filesystem";
      key in keys[..n] && g in GrantsOfTop(rules, key, u[key])
    ensures Once(GrantsOfTops(rules, u, keys, n))
  {
    if n > 0 {
      var last := keys[n - 1];
      assert keys[..n] == keys[..n - 1] + [last];
      TopsCollected(rules, u, keys, n - 1);
      TopCollected(rules, last, u[last]);
      FreshInOrder(keys, n - 1);
      forall g | g in (if last in u then GrantsOfTop(rules, last, u[last]) else [])
        ensures last == if g.os.Some? then "platform_overrides" else "filesystem"
      {
        SectionCollected(rules, last, u[last], None);
      }
    }
  }

  lemma CollectedIsWhatIsGranted(rules: Rules, block: Json)
    ensures forall g :: g in Collected(rules, block) <==> Grants(rules, block, g)
    ensures Once(Collected(rules, block))
  {
    if block.Obj? {
      var u := block.fields;
      SortedHas(u.Keys);
      TopsCollected(rules, u, Sorted(u.Keys), |u.Keys|);
      forall g ensures g in Collected(rules, block) <==> Grants(rules, block, g) {
        AtConcat(block, PatchPath(g.os), ["filesystem", g.list]);
        if g.os.Some? {
          AtTwo(block, "platform_overrides", g.os.value);
          if "platform_overrides" in u {
            TopCollected(rules, "platform_overrides", u["platform_overrides"]);
            if u["platform_overrides"].Obj? && g.os.value in u["platform_overrides"].fields {
              PatchCollected(rules, u["platform_overrides"].fields[g.os.value], g.os);
            }
          }
        } else {
          AtTwo(block, "filesystem", g.list);
          if "filesystem" in u {
            TopCollected(rules, "filesystem", u["filesystem"]);
            SectionCollected(rules, "filesystem", u["filesystem"], None);
          }
        }
      }
    }
  }

  lemma FreshInOrder(keys: seq<string>, i: nat)
    requires i < |keys| && Increasing(keys)
    ensures keys[i] !in keys[..i]
  {
    if j :| 0 <= j < i && keys[..i][j] == keys[i] {
      LessIsAsymmetric(keys[j], keys[i]);
    }
  }

  lemma AtTwo(v: Json, a: string, b: string)
    ensures At(v, [a, b]) ==
      if v.Obj? && a in v.fields && v.fields[a].Obj? && b in v.fields[a].fields
      then Some(v.fields[a].fields[b]) else None
  {
    assert [a, b][1..] == [b] && [b][1..] == [];
    if v.Obj? && a in v.fields {
      assert At(v, [a, b]) == At(v.fields[a], [b]);
      if v.fields[a].Obj? && b in v.fields[a].fields {
        assert At(v.fields[a], [b]) == At(v.fields[a].fields[b], []);
      }
    }
  }

  // Every list in an accepted block is a list of the policy.
  lemma ListsOfAnAcceptedBlock(rules: Rules, block: Json, g: BlockGrant)
    requires BlockOk(rules, block) && At(block, ListPath(g)).Some?
    ensures ListOk(rules, g.list, At(block, ListPath(g)).value)
  {
    AtConcat(block, PatchPath(g.os), ["filesystem", g.list]);
    var patch := At(block, PatchPath(g.os)).value;
    AtTwo(patch, "filesystem", g.list);
    if g.os.Some? {
      AtTwo(block, "platform_overrides", g.os.value);
      assert TopOk(rules, "platform_overrides", block.fields["platform_overrides"]);
      assert PatchOk(rules, patch);
      assert SectionOk(rules, "filesystem", patch.fields["filesystem"]);
    } else {
      assert TopOk(rules, "filesystem", block.fields["filesystem"]);
    }
  }

  // In an accepted block every entry of every list, at the top level or under a
  // platform, whether the list grants or not, is a path that is absolute,
  // literal, and leads to no refused place however it is spelled.
  lemma AcceptedEntriesStayOut(policy: Policy, block: Json, os: Option<string>, list: string, i: nat)
    requires BlockOk(RulesOf(policy), block)
    requires At(block, PatchPath(os) + ["filesystem", list]).Some?
    requires var v := At(block, PatchPath(os) + ["filesystem", list]).value; v.Arr? ==> i < |v.items|
    ensures var v := At(block, PatchPath(os) + ["filesystem", list]).value;
      v.Arr? && exists raw :: IsEntry(v.items[i], raw) && StaysOut(raw)
  {
    var g := BlockGrant(os, list, i, "", [], Read);
    ListsOfAnAcceptedBlock(RulesOf(policy), block, g);
    var v := At(block, ListPath(g)).value;
    assert EntryOk(v.items[i]);
    var raw := EntryText(v.items[i]).value;
    EntryTextIsIt(v.items[i], raw);
    LiteralPathsStayOut(raw);
  }

  // A grant's path is the names its entry spells.
  lemma GrantsArePlain(rules: Rules, block: Json, g: BlockGrant)
    requires BlockOk(rules, block) && Grants(rules, block, g)
    ensures Spells(g.raw, g.path) && !Refused(g.path) && g.raw != "" && g.raw[0] == '/'
  {
    ListsOfAnAcceptedBlock(rules, block, g);
    var v := At(block, ListPath(g)).value;
    assert EntryOk(v.items[g.index]);
    ComponentsAreSpelled(g.raw, g.path);
    LiteralPathsStayOut(g.raw);
  }

  // --- What merging does to a checked block -------------------------------

  // The grants of a merge are all grants of one of the two: a list comes
  // whole from one of them.
  lemma MergedGrantsAreTheirs(rules: Rules, base: Json, overlay: Json, g: BlockGrant)
    requires Clean(base)
    requires Grants(rules, Merge(base, overlay), g)
    ensures Grants(rules, base, g) || Grants(rules, StripNulls(overlay), g)
  {
    var path := ListPath(g);
    MergeListensToTheOverlay(base, overlay, path);
    StripKeepsClean(base);
    StripHoldsWhatItSays(overlay, path);
    assert ContentAt(Merge(base, overlay), path).Leaf?;
  }

  // One field of a merge with a clean base: the stripped overlay's, the
  // base's, or the merge of two objects.
  lemma MergedField(base: Json, overlay: Json, k: string)
    requires Clean(base) && base.Obj? && overlay.Obj?
    requires k in Merge(base, overlay).fields
    ensures var m, b, o, s := Merge(base, overlay).fields, base.fields, overlay.fields, StripNulls(overlay).fields;
      if k in s && k in b && s[k].Obj? && b[k].Obj?
      then k in o && o[k] != Null && m[k] == Merge(b[k], o[k]) && s[k] == StripNulls(o[k]) && Clean(b[k])
      else if k in s then m[k] == s[k]
      else k in b && m[k] == b[k]
  {
    var b, o := base.fields, overlay.fields;
    assert Merge(base, overlay).fields[k] == Entry(base, overlay, k);
    if k !in o {
      StripKeepsClean(b[k]);
    }
  }

  lemma MergedNetworkIsOk(rules: Rules, base: Json, overlay: Json)
    requires Clean(base) && NetworkOk(rules, base) && NetworkOk(rules, StripNulls(overlay))
    ensures NetworkOk(rules, Merge(base, overlay))
  {
    var merged := Merge(base, overlay).fields;
    forall k | k in merged ensures k in rules.network {
      MergedField(base, overlay, k);
    }
    if "allow_domain" in merged {
      MergedField(base, overlay, "allow_domain");
    }
  }

  lemma MergedSecurityIsOk(rules: Rules, base: Json, overlay: Json)
    requires Clean(base) && SecurityOk(rules, base) && SecurityOk(rules, StripNulls(overlay))
    ensures SecurityOk(rules, Merge(base, overlay))
  {
    var merged := Merge(base, overlay).fields;
    forall k | k in merged ensures k in rules.security {
      MergedField(base, overlay, k);
    }
    if "ipc_mode" in merged {
      MergedField(base, overlay, "ipc_mode");
    }
  }

  lemma MergedFilesystemIsOk(rules: Rules, base: Json, overlay: Json)
    requires Clean(base) && FilesystemOk(rules, base) && FilesystemOk(rules, StripNulls(overlay))
    ensures FilesystemOk(rules, Merge(base, overlay))
  {
    var merged := Merge(base, overlay).fields;
    forall k | k in merged ensures ListOk(rules, k, merged[k]) {
      MergedField(base, overlay, k);
    }
  }

  lemma MergedSectionIsOk(rules: Rules, key: string, base: Json, overlay: Json)
    requires Clean(base) && SectionOk(rules, key, base) && SectionOk(rules, key, StripNulls(overlay))
    ensures SectionOk(rules, key, Merge(base, overlay))
  {
    if key == "filesystem" {
      MergedFilesystemIsOk(rules, base, overlay);
    } else if key == "network" {
      MergedNetworkIsOk(rules, base, overlay);
    } else {
      MergedSecurityIsOk(rules, base, overlay);
    }
  }

  lemma MergedPatchIsOk(rules: Rules, base: Json, overlay: Json)
    requires Clean(base) && PatchOk(rules, base) && PatchOk(rules, StripNulls(overlay))
    ensures PatchOk(rules, Merge(base, overlay))
  {
    var b, o, merged := base.fields, overlay.fields, Merge(base, overlay).fields;
    forall k | k in merged ensures SectionOk(rules, k, merged[k]) {
      MergedField(base, overlay, k);
      if k in b && k in StripNulls(overlay).fields {
        MergedSectionIsOk(rules, k, b[k], o[k]);
      }
    }
  }

  lemma MergedOverridesAreOk(rules: Rules, base: Json, overlay: Json)
    requires Clean(base) && OverridesOk(rules, base) && OverridesOk(rules, StripNulls(overlay))
    ensures OverridesOk(rules, Merge(base, overlay))
  {
    var b, o, merged := base.fields, overlay.fields, Merge(base, overlay).fields;
    forall os | os in merged ensures OverrideOk(rules, os, merged[os]) {
      MergedField(base, overlay, os);
      if os in b && os in StripNulls(overlay).fields {
        MergedPatchIsOk(rules, b[os], o[os]);
      }
    }
  }

  // Two blocks within the fleet allowlist merge to one within it.
  lemma MergedBlockIsOk(rules: Rules, base: Json, overlay: Json)
    requires Clean(base) && BlockOk(rules, base) && BlockOk(rules, StripNulls(overlay))
    ensures BlockOk(rules, Merge(base, overlay))
  {
    var b, o, merged := base.fields, overlay.fields, Merge(base, overlay).fields;
    forall k | k in merged ensures TopOk(rules, k, merged[k]) {
      MergedField(base, overlay, k);
      if k in b && k in StripNulls(overlay).fields {
        assert TopOk(rules, k, b[k]) && TopOk(rules, k, StripNulls(overlay).fields[k]);
        if k == "platform_overrides" {
          MergedOverridesAreOk(rules, b[k], o[k]);
        } else {
          MergedSectionIsOk(rules, k, b[k], o[k]);
        }
      }
    }
  }

  // --- The two policies -------------------------------------------------

  const GRANT_KEYS: map<string, Option<Access>> := map[
    "read" := Some(Read),
    "read_file" := Some(Read),
    "allow" := Some(Write),
    "allow_file" := Some(Write),
    "write" := Some(Write),
    "write_file" := Some(Write),
    "deny" := None]

  const UNIX_SOCKET_KEYS: set<string> := {
    "unix_socket", "unix_socket_bind", "unix_socket_dir", "unix_socket_dir_bind",
    "unix_socket_subtree", "unix_socket_subtree_bind"}

  const NETWORK_KEYS: set<string> := {
    "block", "allow_http2", "network_profile", "allow_domain", "deny_domain", "open_port",
    "open_port_range", "connect_port", "listen_port", "listen_port_range", "no_proxy",
    "upstream_proxy", "upstream_bypass"}

  const SECURITY_KEYS: set<string> := {"ipc_mode"}

  const SANDBOX_OSES: set<string> := {"linux", "macos", "windows"}

  // The fleet's lists are the plugin's and the `unix_socket*` grants.
  function RulesOf(policy: Policy): Rules {
    var sockets := map k | k in UNIX_SOCKET_KEYS :: Some(Socket);
    Rules(
      if policy == Fleet then sockets + GRANT_KEYS else GRANT_KEYS,
      NETWORK_KEYS, SECURITY_KEYS, SANDBOX_OSES)
  }

  // The lists of a `filesystem` section, and what each hands out; `deny` hands
  // out nothing, and only a fleet may name sockets.
  lemma TheLists(policy: Policy, key: string)
    ensures AccessOf(RulesOf(policy), key) ==
      if key == "read" || key == "read_file" then Some(Some(Read))
      else if key == "allow" || key == "allow_file" || key == "write" || key == "write_file" then Some(Some(Write))
      else if key == "deny" then Some(None)
      else if policy == Fleet && (key == "unix_socket" || key == "unix_socket_bind" || key == "unix_socket_dir"
        || key == "unix_socket_dir_bind" || key == "unix_socket_subtree" || key == "unix_socket_subtree_bind")
      then Some(Some(Socket))
      else None
  {
  }

  // A `network` section is of these keys, its domains all texts.
  lemma TheNetworkSection(policy: Policy, v: Json)
    ensures NetworkOk(RulesOf(policy), v) <==>
      && v.Obj?
      && v.fields.Keys <= {"block", "allow_http2", "network_profile", "allow_domain", "deny_domain", "open_port",
        "open_port_range", "connect_port", "listen_port", "listen_port_range", "no_proxy", "upstream_proxy",
        "upstream_bypass"}
      && ("allow_domain" in v.fields ==> exists domains :: v.fields["allow_domain"] == Texts(domains))
  {
    if v.Obj? && "allow_domain" in v.fields && v.fields["allow_domain"].Arr? {
      var items := v.fields["allow_domain"].items;
      if forall i :: 0 <= i < |items| ==> items[i].Str? {
        var domains := seq(|items|, i requires 0 <= i < |items| => if items[i].Str? then items[i].s else "");
        assert v.fields["allow_domain"] == Texts(domains);
      }
    }
  }

  function Texts(texts: seq<string>): Json {
    Arr(seq(|texts|, i requires 0 <= i < |texts| => Str(texts[i])))
  }

  // A `security` section says nothing but its one key's default.
  lemma TheSecuritySection(policy: Policy, v: Json)
    ensures SecurityOk(RulesOf(policy), v) <==>
      v == Obj(map[]) || v == Obj(map["ipc_mode" := Str("shared_memory_only")])
  {
    if v.Obj? {
      if "ipc_mode" in v.fields {
        assert v.fields.Keys <= {"ipc_mode"} ==> v.fields == map["ipc_mode" := v.fields["ipc_mode"]];
      } else {
        assert v.fields.Keys <= {"ipc_mode"} ==> v.fields == map[];
      }
    }
  }

  // `wide` accepts all that `narrow` does, in the same way.
  ghost predicate Widens(narrow: Rules, wide: Rules) {
    && (forall k :: k in narrow.access ==> k in wide.access && wide.access[k] == narrow.access[k])
    && narrow.network == wide.network
    && narrow.security == wide.security
    && narrow.oses == wide.oses
  }

  lemma WiderSection(narrow: Rules, wide: Rules, key: string, v: Json)
    requires Widens(narrow, wide) && SectionOk(narrow, key, v)
    ensures SectionOk(wide, key, v)
  {
    if key == "filesystem" {
      forall k | k in v.fields ensures ListOk(wide, k, v.fields[k]) {
        assert ListOk(narrow, k, v.fields[k]);
      }
    }
  }

  lemma WiderBlock(narrow: Rules, wide: Rules, block: Json)
    requires Widens(narrow, wide) && BlockOk(narrow, block)
    ensures BlockOk(wide, block)
  {
    forall k | k in block.fields ensures TopOk(wide, k, block.fields[k]) {
      var v := block.fields[k];
      assert TopOk(narrow, k, v);
      if k == "platform_overrides" {
        forall os | os in v.fields ensures OverrideOk(wide, os, v.fields[os]) {
          assert OverrideOk(narrow, os, v.fields[os]);
          forall s | s in v.fields[os].fields ensures SectionOk(wide, s, v.fields[os].fields[s]) {
            WiderSection(narrow, wide, s, v.fields[os].fields[s]);
          }
        }
      } else {
        WiderSection(narrow, wide, k, v);
      }
    }
  }

  // A block accepted for a plugin is accepted for a fleet, with the same
  // grants, none of them a socket.
  lemma PluginBlockIsFleetBlock(block: Json)
    requires BlockOk(RulesOf(Plugin), block)
    ensures BlockOk(RulesOf(Fleet), block)
    ensures forall g :: Grants(RulesOf(Fleet), block, g) <==> Grants(RulesOf(Plugin), block, g)
    ensures forall g :: Grants(RulesOf(Plugin), block, g) ==> g.access != Socket
  {
    WiderBlock(RulesOf(Plugin), RulesOf(Fleet), block);
    forall g ensures Grants(RulesOf(Fleet), block, g) <==> Grants(RulesOf(Plugin), block, g) {
      if At(block, ListPath(g)).Some? {
        ListsOfAnAcceptedBlock(RulesOf(Plugin), block, g);
      }
    }
  }

  // Checks a block against a policy: accepted exactly when it is within the
  // allowlist, and then with every grant it hands out, each once.
  method CheckSandboxBlock(policy: Policy, block: Json) returns (r: Option<seq<BlockGrant>>)
    ensures r.Some? <==> BlockOk(RulesOf(policy), block)
    ensures r.Some? ==> r.value == Collected(RulesOf(policy), block)
    ensures r.Some? ==> forall g :: g in r.value <==> Grants(RulesOf(policy), block, g)
    ensures r.Some? ==> Once(r.value)
    ensures r.Some? ==> forall g :: g in r.value ==> Spells(g.raw, g.path) && !Refused(g.path)
  {
    r := CheckBlock(RulesOf(policy), block);
    if r.Some? {
      CollectedIsWhatIsGranted(RulesOf(policy), block);
      forall g | g in r.value ensures Spells(g.raw, g.path) && !Refused(g.path) {
        GrantsArePlain(RulesOf(policy), block, g);
      }
    }
  }
}
