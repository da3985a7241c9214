// The plugins' key-value store of the SDK's reference host. Its keys must fit
// into one file tree, so the theory here is of prefix-free sets of paths, and
// of the single ordered-range lookup that keeps a set prefix-free.
module KvStores {
  import opened Basics
  import opened Order

  const MAX_KV_KEY: nat := 200

  predicate KeyChar(c: char) {
    'a' <= c <= 'z' || 'A' <= c <= 'Z' || '0' <= c <= '9' || c in {'.', '_', '/', '-'}
  }

  // A key as a path: its characters, its length, and no segment a path would
  // resolve away.
  predicate ValidKey(key: string) {
    && key != ""
    && ByteLen(key) <= MAX_KV_KEY
    && (forall i :: 0 <= i < |key| ==> KeyChar(key[i]))
    && forall seg :: seg in Split(key, '/') ==> seg !in {"", ".", ".."}
  }

  // Where a path leads from a directory: up for `..`, nowhere for an empty
  // segment and for `.`.
  function Leads(dir: seq<string>, segs: seq<string>): seq<string>
    decreases |segs|
  {
    if segs == [] then dir
    else if segs[0] == "" || segs[0] == "." then Leads(dir, segs[1..])
    else if segs[0] == ".." then Leads(if dir == [] then [] else dir[..|dir| - 1], segs[1..])
    else Leads(dir + [segs[0]], segs[1..])
  }

  lemma {:induction false} LeadsNoDeeper(dir: seq<string>, segs: seq<string>)
    ensures |Leads(dir, segs)| <= |dir| + |segs|
    ensures (exists i :: 0 <= i < |segs| && segs[i] in {"", ".", ".."}) ==> |Leads(dir, segs)| < |dir| + |segs|
    decreases |segs|
  {
    if segs != [] {
      if segs[0] == "" || segs[0] == "." {
        LeadsNoDeeper(dir, segs[1..]);
      } else if segs[0] == ".." {
        LeadsNoDeeper(if dir == [] then [] else dir[..|dir| - 1], segs[1..]);
      } else {
        LeadsNoDeeper(dir + [segs[0]], segs[1..]);
        if i :| 0 <= i < |segs| && segs[i] in {"", ".", ".."} {
          assert segs[1..][i - 1] == segs[i];
        }
      }
    }
  }

  lemma {:induction false} PlainSegmentsLeadDown(dir: seq<string>, segs: seq<string>)
    requires forall i :: 0 <= i < |segs| ==> segs[i] !in {"", ".", ".."}
    ensures Leads(dir, segs) == dir + segs
    decreases |segs|
  {
    if segs == [] {
      assert dir + segs == dir;
    } else {
      PlainSegmentsLeadDown(dir + [segs[0]], segs[1..]);
      assert dir + [segs[0]] + segs[1..] == dir + segs;
    }
  }

  // From every directory, each segment is one step down.
  ghost predicate LeadsDown(segs: seq<string>) {
    forall dir :: Leads(dir, segs) == dir + segs
  }

  // A key of the right length and characters is accepted exactly when it leads
  // from every directory to a place beneath it, one step for each segment: no
  // accepted key leads out of its tree, or to another key's place.
  lemma AcceptedKeysStayInTheirTree(key: string)
    ensures ValidKey(key) <==>
      && key != "" && ByteLen(key) <= 200
      && (forall i :: 0 <= i < |key| ==> KeyChar(key[i]))
      && LeadsDown(Split(key, '/'))
  {
    PlainExactlyIfTheyLeadDown(Split(key, '/'));
  }

  lemma PlainExactlyIfTheyLeadDown(segs: seq<string>)
    ensures (forall seg :: seg in segs ==> seg !in {"", ".", ".."}) <==> LeadsDown(segs)
  {
    if forall seg :: seg in segs ==> seg !in {"", ".", ".."} {
      assert forall i :: 0 <= i < |segs| ==> segs[i] in segs;
      forall dir ensures Leads(dir, segs) == dir + segs {
        PlainSegmentsLeadDown(dir, segs);
      }
    } else {
      LeadsNoDeeper([], segs);
      assert Leads([], segs) != [] + segs;
    }
  }

  // Two keys never lead to one place.
  lemma KeysHaveTheirOwnPlace(a: string, b: string, dir: seq<string>)
    requires ValidKey(a) && ValidKey(b) && Leads(dir, Split(a, '/')) == Leads(dir, Split(b, '/'))
    ensures a == b
  {
    AcceptedKeysStayInTheirTree(a);
    AcceptedKeysStayInTheirTree(b);
    var s, t := Split(a, '/'), Split(b, '/');
    assert s == (dir + s)[|dir|..] && t == (dir + t)[|dir|..];
    JoinSplit(a, '/');
    JoinSplit(b, '/');
  }

  datatype Stored = Stored(bytes: Bytes, secret: bool)
  type Table = map<string, Stored>

  // The first key of the ordered range that starts at `from`.
  function FirstFrom(keys: set<string>, from: string): Option<string> {
    var range := set k | k in keys && AtMost(from, k);
    if range == {} then None else Some(Least(range))
  }

  // The source's two tests: some stored key is a directory the new key
  // would lie in, and the probe for a stored key inside the new one.
  predicate UnderAValue(keys: set<string>, key: string) {
    exists i :: 0 <= i < |key| && key[i] == '/' && key[..i] in keys
  }

  predicate ADirectory(keys: set<string>, key: string) {
    var dir := key + "/";
    match FirstFrom(keys, dir)
    case Some(k) => dir <= k
    case None => false
  }

  predicate Conflicting(keys: set<string>, key: string) {
    UnderAValue(keys, key) || ADirectory(keys, key)
  }

  // `a` names a directory that `b` lies in.
  predicate Holds(a: string, b: string) {
    a + "/" <= b
  }

  // The one probe of the ordered range is a search through all the keys.
  lemma ProbeIsASearch(keys: set<string>, key: string)
    ensures ADirectory(keys, key) <==> exists k :: k in keys && Holds(key, k)
  {
    var dir := key + "/";
    var range := set k | k in keys && AtMost(dir, k);
    if k :| k in keys && Holds(key, k) {
      PrefixOpensItsInterval(dir, k);
      assert k in range;
      PrefixIntervalIsConvex(dir, Least(range), k);
    }
    if ADirectory(keys, key) {
      assert Holds(key, Least(range));
    }
  }

  lemma UnderAValueIsASearch(keys: set<string>, key: string)
    ensures UnderAValue(keys, key) <==> exists k :: k in keys && Holds(k, key)
  {
    if i :| 0 <= i < |key| && key[i] == '/' && key[..i] in keys {
      assert key[..i] + "/" == key[..i + 1];
      assert Holds(key[..i], key);
    }
    if k :| k in keys && Holds(k, key) {
      var i := |k|;
      assert (k + "/")[i] == key[i] && k == (k + "/")[..i] == key[..i];
    }
  }

  // The keys can all be files of one tree.
  ghost predicate PrefixFree(keys: set<string>) {
    forall a, b {:trigger Holds(a, b)} :: a in keys && b in keys ==> !Holds(a, b)
  }

  // A key is refused exactly when, were it stored, some key would be a value and a
  // directory at once.
  lemma ConflictIffUnstorable(keys: set<string>, key: string)
    requires PrefixFree(keys)
    ensures Conflicting(keys, key) <==> !PrefixFree(keys + {key})
  {
    ProbeIsASearch(keys, key);
    UnderAValueIsASearch(keys, key);
    assert !Holds(key, key) by {
      assert |key + "/"| > |key|;
    }
  }

  datatype Op = Put(key: string, value: Stored) | Delete(key: string)
  datatype Answer = Done | Invalid | Conflict

  function Respond(kv: Table, op: Op): Answer {
    if !ValidKey(op.key) then Invalid
    else if op.Put? && Conflicting(kv.Keys, op.key) then Conflict
    else Done
  }

  function After(kv: Table, op: Op): Table {
    if Respond(kv, op) != Done then kv
    else match op
      case Put(key, value) => kv[key := value]
      case Delete(key) => kv - {key}
  }

  function Run(kv: Table, ops: seq<Op>): Table
    decreases |ops|
  {
    if ops == [] then kv else After(Run(kv, ops[..|ops| - 1]), ops[|ops| - 1])
  }

  ghost predicate Sound(kv: Table) {
    PrefixFree(kv.Keys) && forall k {:trigger ValidKey(k)} :: k in kv ==> ValidKey(k)
  }

  lemma StepIsSound(kv: Table, op: Op)
    requires Sound(kv)
    ensures Sound(After(kv, op))
  {
    if op.Put? && Respond(kv, op) == Done {
      ConflictIffUnstorable(kv.Keys, op.key);
      assert After(kv, op).Keys == kv.Keys + {op.key};
    }
  }

  lemma {:induction false} EveryRunIsSound(ops: seq<Op>)
    ensures Sound(Run(map[], ops))
    decreases |ops|
  {
    if ops != [] {
      EveryRunIsSound(ops[..|ops| - 1]);
      StepIsSound(Run(map[], ops[..|ops| - 1]), ops[|ops| - 1]);
    }
  }

  // What the last operation on `key` that was answered `Done` left there.
  function LastWord(ops: seq<Op>, key: string): Option<Stored>
    decreases |ops|
  {
    if ops == [] then None else
      var before, op := ops[..|ops| - 1], ops[|ops| - 1];
      if op.key == key && Respond(Run(map[], before), op) == Done then
        if op.Put? then Some(op.value) else None
      else
        LastWord(before, key)
  }

  // The table of any run is each key's last word, and nothing else.
  lemma {:induction false} RunHoldsTheLastWord(ops: seq<Op>, key: string)
    ensures LastWord(ops, key) ==
      (var kv := Run(map[], ops); if key in kv then Some(kv[key]) else None)
    decreases |ops|
  {
    if ops != [] {
      RunHoldsTheLastWord(ops[..|ops| - 1], key);
    }
  }

  // An overwrite is never a conflict, and a delete makes room again: after
  // it, its key conflicts with nothing unless it did before.
  lemma StoredKeysStayWritable(ops: seq<Op>, key: string, value: Stored)
    requires key in Run(map[], ops)
    ensures Respond(Run(map[], ops), Put(key, value)) == Done
    ensures Respond(After(Run(map[], ops), Delete(key)), Put(key, value)) == Done
  {
    var kv := Run(map[], ops);
    EveryRunIsSound(ops);
    ConflictIffUnstorable(kv.Keys, key);
    assert kv.Keys + {key} == kv.Keys;
    var less := kv - {key};
    assert PrefixFree(less.Keys);
    ConflictIffUnstorable(less.Keys, key);
    assert less.Keys + {key} == kv.Keys;
  }

  // One more operation in the log is one more change of the table.
  lemma OneMoreOperation(log: seq<Op>, op: Op)
    ensures Run(map[], log + [op]) == After(Run(map[], log), op)
    ensures Sound(Run(map[], log)) && Sound(Run(map[], log + [op]))
  {
    assert (log + [op])[..|log|] == log;
    EveryRunIsSound(log);
    EveryRunIsSound(log + [op]);
  }

  // The answer to an operation: its key is checked, then looked up.
  method Check(kv: Table, op: Op) returns (answer: Answer)
    ensures answer == Respond(kv, op)
  {
    if !ValidKey(op.key) {
      return Invalid;
    }
    if op.Put? && Conflicting(kv.Keys, op.key) {
      return Conflict;
    }
    return Done;
  }

  // The shared table, changed in place.
  class Store {
    var kv: Table
    ghost var log: seq<Op>

    ghost predicate Valid()
      reads this
    {
      kv == Run(map[], log)
    }

    constructor ()
      ensures Valid() && kv == map[] && log == []
    {
      kv := map[];
      log := [];
    }

    method PutKey(key: string, value: Stored) returns (answer: Answer)
      requires Valid()
      modifies this
      ensures Valid() && log == old(log) + [Put(key, value)]
      ensures answer == Respond(old(kv), Put(key, value))
      ensures kv == if answer == Done then old(kv)[key := value] else old(kv)
      ensures Sound(kv)
    {
      assert kv == Run(map[], log);
      answer := Check(kv, Put(key, value));
      OneMoreOperation(log, Put(key, value));
      log := log + [Put(key, value)];
      if answer == Done {
        kv := kv[key := value];
      }
    }

    method DeleteKey(key: string) returns (answer: Answer)
      requires Valid()
      modifies this
      ensures Valid() && log == old(log) + [Delete(key)]
      ensures answer == Respond(old(kv), Delete(key))
      ensures kv == if answer == Done then old(kv) - {key} else old(kv)
      ensures Sound(kv)
    {
      assert kv == Run(map[], log);
      answer := Check(kv, Delete(key));
      OneMoreOperation(log, Delete(key));
      log := log + [Delete(key)];
      if answer == Done {
        kv := kv - {key};
      }
    }

    method GetKey(key: string) returns (answer: Answer, found: Option<Stored>)
      requires Valid()
      ensures answer == Invalid <==> !ValidKey(key)
      ensures answer != Conflict
      ensures found == LastWord(log, key)
    {
      RunHoldsTheLastWord(log, key);
      EveryRunIsSound(log);
      if !ValidKey(key) {
        return Invalid, None;
      }
      return Done, if key in kv then Some(kv[key]) else None;
    }
  }
}
