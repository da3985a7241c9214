// The merge of settings layers, and three theories of it: which values it
// leaves unchanged; the scan, which says path by path what a fold of any
// number of layers holds; and when two layers may be merged ahead of the rest.
module Merging {
  import opened Basics
  import opened JsonValues

  // A value as a base layer leaves it: delete markers have nothing to delete.
  function StripNulls(v: Json): Json {
    match v
    case Obj(m) => Obj(map k | k in m && m[k] != Null :: StripNulls(m[k]))
    case Arr(a) => Arr(seq(|a|, i requires 0 <= i < |a| => StripNulls(a[i])))
    case _ => v
  }

  // Whether the merge of two maps has the key `k`.
  predicate Kept(b: map<string, Json>, o: map<string, Json>, k: string) {
    if k in o then o[k] != Null else k in b && b[k] != Null
  }

  // What the merge of two maps holds under a key it keeps.
  function Entry(base: Json, overlay: Json, k: string): Json
    requires base.Obj? && overlay.Obj? && Kept(base.fields, overlay.fields, k)
    decreases base, 0
  {
    var b, o := base.fields, overlay.fields;
    if k in o then
      if k in b then Merge(b[k], o[k]) else StripNulls(o[k])
    else
      StripNulls(b[k])
  }

  // `overlay` merged onto `base`.
  function Merge(base: Json, overlay: Json): Json
    decreases base, 1
  {
    if base.Obj? && overlay.Obj? then
      var b, o := base.fields, overlay.fields;
      Obj(map k | k in b.Keys + o.Keys && Kept(b, o, k) :: Entry(base, overlay, k))
    else if overlay.Null? then StripNulls(base)
    else StripNulls(overlay)
  }

  // What the merge has under the keys done so far.
  ghost predicate Built(base: Json, overlay: Json, out: map<string, Json>, done: set<string>)
    requires base.Obj? && overlay.Obj?
  {
    && (forall k :: k in out <==> k in done && Kept(base.fields, overlay.fields, k))
    && (forall k :: k in out ==> out[k] == Entry(base, overlay, k))
  }

  lemma MergedKey(base: Json, overlay: Json, k: string)
    requires base.Obj? && overlay.Obj?
    ensures var b, o, m := base.fields, overlay.fields, Merge(base, overlay).fields;
      && (k in m <==> (k in b || k in o) && Kept(b, o, k))
      && (k in m ==> m[k] == Entry(base, overlay, k))
  {
  }

  lemma BuiltIsTheMerge(base: Json, overlay: Json, out: map<string, Json>)
    requires base.Obj? && overlay.Obj? && Built(base, overlay, out, base.fields.Keys + overlay.fields.Keys)
    ensures Obj(out) == Merge(base, overlay)
  {
    forall k {
      BuiltKey(base, overlay, out, k);
    }
    SameEntries(out, Merge(base, overlay).fields);
  }

  lemma SameEntries(a: map<string, Json>, b: map<string, Json>)
    requires forall k :: (k in a <==> k in b) && (k in a ==> a[k] == b[k])
    ensures a == b
  {
  }

  lemma BuiltKey(base: Json, overlay: Json, out: map<string, Json>, k: string)
    requires base.Obj? && overlay.Obj? && Built(base, overlay, out, base.fields.Keys + overlay.fields.Keys)
    ensures var merged := Merge(base, overlay).fields; (k in out <==> k in merged) && (k in out ==> out[k] == merged[k])
  {
    MergedKey(base, overlay, k);
  }

  // First the base's own keys, then the overlay's.
  method MergeByLoops(base: Json, overlay: Json) returns (merged: Json)
    ensures merged == Merge(base, overlay)
    decreases base
  {
    if !base.Obj? || !overlay.Obj? {
      return if overlay.Null? then StripNulls(base) else StripNulls(overlay);
    }
    var b, o := base.fields, overlay.fields;
    var out: map<string, Json> := map[];
    var todo := b.Keys;
    while todo != {}
      invariant todo <= b.Keys
      invariant Built(base, overlay, out, b.Keys - o.Keys - todo)
      decreases todo
    {
      var k :| k in todo;
      todo := todo - {k};
      if k !in o && b[k] != Null {
        out := out[k := StripNulls(b[k])];
      }
    }
    todo := o.Keys;
    while todo != {}
      invariant todo <= o.Keys
      invariant Built(base, overlay, out, b.Keys + o.Keys - todo)
      decreases todo
    {
      var k :| k in todo;
      todo := todo - {k};
      if o[k] != Null {
        var entry;
        if k in b {
          entry := MergeByLoops(b[k], o[k]);
        } else {
          entry := StripNulls(o[k]);
        }
        out := out[k := entry];
      }
    }
    BuiltIsTheMerge(base, overlay, out);
    return Obj(out);
  }

  // The layers folded left to right onto `acc`.
  function Fold(acc: Json, layers: seq<Json>): Json
    decreases |layers|
  {
    if layers == [] then acc else Fold(Merge(acc, layers[0]), layers[1..])
  }

  // The fold the scan below is proved to describe.
  function MergeLayers(layers: seq<Json>): Json {
    Fold(EMPTY_OBJECT, layers)
  }

  lemma {:induction false} FoldLast(acc: Json, layers: seq<Json>, last: Json)
    ensures Fold(acc, layers + [last]) == Merge(Fold(acc, layers), last)
    decreases |layers|
  {
    var all := layers + [last];
    if layers == [] {
      assert all == [last] && all[1..] == [];
    } else {
      assert all[0] == layers[0] && all[1..] == layers[1..] + [last];
      FoldLast(Merge(acc, layers[0]), layers[1..], last);
    }
  }

  // --- What stripping keeps ------------------------------------------

  // `s` is `v` without its null map entries: scalars are the same, lists go
  // item by item, and an object has exactly the entries that are not null.
  ghost predicate Stripped(v: Json, s: Json) {
    match v
    case Obj(m) =>
      && s.Obj?
      && (forall k :: k in s.fields <==> k in m && m[k] != Null)
      && (forall k :: k in m && m[k] != Null && k in s.fields ==> Stripped(m[k], s.fields[k]))
    case Arr(a) =>
      && s.Arr? && |s.items| == |a|
      && (forall i :: 0 <= i < |a| && i < |s.items| ==> Stripped(a[i], s.items[i]))
    case _ => s == v
  }

  // Stripping gives that value and no other, inside lists as well.
  lemma {:induction false} StrippedIsStripNulls(v: Json, s: Json)
    ensures Stripped(v, s) <==> s == StripNulls(v)
    decreases v
  {
    match v
    case Obj(m) =>
      if s.Obj? {
        forall k | k in m && k in s.fields
          ensures Stripped(m[k], s.fields[k]) <==> s.fields[k] == StripNulls(m[k])
        {
          StrippedIsStripNulls(m[k], s.fields[k]);
        }
      }
    case Arr(a) =>
      if s.Arr? && |s.items| == |a| {
        forall i | 0 <= i < |a| ensures Stripped(a[i], s.items[i]) <==> s.items[i] == StripNulls(a[i]) {
          StrippedIsStripNulls(a[i], s.items[i]);
        }
      }
    case _ =>
  }

  // --- No null map entry survives -------------------------------------

  // No map entry is null, at any depth.
  ghost predicate Clean(v: Json) {
    match v
    case Obj(m) => forall k :: k in m ==> m[k] != Null && Clean(m[k])
    case Arr(a) => forall i :: 0 <= i < |a| ==> Clean(a[i])
    case _ => true
  }

  lemma {:induction false} StripIsClean(v: Json)
    ensures Clean(StripNulls(v))
    ensures v != Null ==> StripNulls(v) != Null
  {
    match v
    case Obj(m) =>
      forall k | k in m && m[k] != Null ensures Clean(StripNulls(m[k])) && StripNulls(m[k]) != Null {
        StripIsClean(m[k]);
      }
    case Arr(a) =>
      forall i | 0 <= i < |a| ensures Clean(StripNulls(a[i])) {
        StripIsClean(a[i]);
      }
    case _ =>
  }

  lemma {:induction false} StripKeepsClean(v: Json)
    requires Clean(v)
    ensures StripNulls(v) == v
  {
    match v
    case Obj(m) =>
      forall k | k in m ensures StripNulls(m[k]) == m[k] {
        StripKeepsClean(m[k]);
      }
    case Arr(a) =>
      forall i | 0 <= i < |a| ensures StripNulls(a[i]) == a[i] {
        StripKeepsClean(a[i]);
      }
    case _ =>
  }

  // Stripping is exactly the projection onto clean values: idempotent, and
  // the identity on the clean values alone.
  lemma {:induction false} StripIsAProjection(v: Json)
    ensures StripNulls(StripNulls(v)) == StripNulls(v)
    ensures Clean(v) <==> StripNulls(v) == v
  {
    StripIsClean(v);
    StripKeepsClean(StripNulls(v));
    if Clean(v) {
      StripKeepsClean(v);
    }
  }

  lemma {:induction false} MergeIsClean(base: Json, overlay: Json)
    ensures Clean(Merge(base, overlay))
    ensures overlay != Null ==> Merge(base, overlay) != Null
    ensures base.Obj? && (overlay.Obj? || overlay.Null?) ==> Merge(base, overlay).Obj?
    decreases base
  {
    if base.Obj? && overlay.Obj? {
      var b, o := base.fields, overlay.fields;
      forall k | k in b.Keys + o.Keys && Kept(b, o, k)
        ensures Entry(base, overlay, k) != Null && Clean(Entry(base, overlay, k))
      {
        if k in o && k in b {
          MergeIsClean(b[k], o[k]);
        } else if k in o {
          StripIsClean(o[k]);
        } else {
          StripIsClean(b[k]);
        }
      }
    } else {
      StripIsClean(base);
      StripIsClean(overlay);
    }
  }

  // Neither layer's nulls matter beyond what they delete: a base may be
  // stripped first, and a layer applied twice is a layer applied once.
  lemma {:induction false} MergeOfStripped(base: Json, overlay: Json)
    ensures Merge(StripNulls(base), overlay) == Merge(base, overlay)
    decreases base, 1
  {
    if base.Obj? && overlay.Obj? {
      var left, right := Merge(StripNulls(base), overlay).fields, Merge(base, overlay).fields;
      forall k ensures k in left <==> k in right
        ensures k in left ==> left[k] == right[k]
      {
        StrippedKey(base, overlay, k);
      }
    } else {
      StripIsAProjection(base);
    }
  }

  lemma {:induction false} StrippedKey(base: Json, overlay: Json, k: string)
    requires base.Obj? && overlay.Obj?
    ensures var left, right := Merge(StripNulls(base), overlay).fields, Merge(base, overlay).fields;
      (k in left <==> k in right) && (k in left ==> left[k] == right[k])
    decreases base, 0
  {
    var b, o, s := base.fields, overlay.fields, StripNulls(base).fields;
    assert k in s <==> k in b && b[k] != Null;
    if k in s {
      assert s[k] == StripNulls(b[k]);
      StripIsAProjection(b[k]);
      if k in o {
        MergeOfStripped(b[k], o[k]);
      }
    } else if k in b && k in o {
      assert Merge(b[k], o[k]) == StripNulls(o[k]);
    }
  }

  lemma {:induction false} MergeTwice(base: Json, overlay: Json)
    ensures Merge(Merge(base, overlay), overlay) == Merge(base, overlay)
    decreases base
  {
    MergeIsClean(base, overlay);
    StripIsAProjection(Merge(base, overlay));
    if base.Obj? && overlay.Obj? {
      var b, o := base.fields, overlay.fields;
      var m := Merge(base, overlay).fields;
      forall k | k in m ensures Kept(m, o, k) && Entry(Merge(base, overlay), overlay, k) == m[k] {
        if k in o && k in b {
          MergeTwice(b[k], o[k]);
        } else if k in o {
          MergeWithItself(o[k]);
          MergeOfStripped(o[k], o[k]);
        } else {
          StripIsAProjection(b[k]);
        }
      }
      assert forall k :: k in m.Keys + o.Keys && Kept(m, o, k) ==> k in m;
    } else if !overlay.Null? {
      MergeWithItself(overlay);
      MergeOfStripped(overlay, overlay);
    }
  }

  lemma {:induction false} MergeWithItself(v: Json)
    ensures Merge(v, v) == StripNulls(v)
  {
    if v.Obj? {
      var m := v.fields;
      forall k | k in m && Kept(m, m, k) ensures Entry(v, v, k) == StripNulls(m[k]) {
        MergeWithItself(m[k]);
      }
    }
  }

  // --- What a fold means, path by path --------------------------------

  // What a value holds at a path: nothing, a value that is not an object,
  // or an object.
  datatype Content = Absent | Leaf(v: Json) | Mapping

  function ContentAt(v: Json, path: Path): Content {
    match At(v, path)
    case None => Absent
    case Some(Obj(_)) => Mapping
    case Some(x) => Leaf(x)
  }

  // What one layer says about a path: nothing, or what is to be there.
  datatype Voice = Silent | Says(c: Content)

  // A layer says a path is absent by a null on it, and by a null or any
  // other non-object on the way to it.
  function Speak(v: Json, path: Path): Voice {
    if path == [] then
      match v
      case Null => Says(Absent)
      case Obj(_) => Says(Mapping)
      case _ => Says(Leaf(StripNulls(v)))
    else if !v.Obj? then Says(Absent)
    else if path[0] in v.fields then Speak(v.fields[path[0]], path[1..])
    else Silent
  }

  // A layer that is null as a whole is silent about everything.
  function Say(layer: Json, path: Path): Voice {
    if layer.Null? then Silent else Speak(layer, path)
  }

  // The right-to-left scan for the last layer that is not silent.
  function Scan(layers: seq<Json>, path: Path): Content
    decreases |layers|
  {
    if layers == [] then
      if path == [] then Mapping else Absent
    else
      match Say(layers[|layers| - 1], path)
      case Says(c) => c
      case Silent => Scan(layers[..|layers| - 1], path)
  }

  // Stripped, a value holds what it says.
  lemma {:induction false} StripHoldsWhatItSays(v: Json, path: Path)
    ensures v != Null ==>
      ContentAt(StripNulls(v), path) == match Speak(v, path) case Says(c) => c case Silent => Absent
    ensures v == Null && path != [] ==> ContentAt(StripNulls(v), path) == Absent
    decreases path
  {
    if v.Obj? && path != [] && path[0] in v.fields && v.fields[path[0]] != Null {
      StripHoldsWhatItSays(v.fields[path[0]], path[1..]);
    }
  }

  // One merge: the overlay's word where it has one, else the base's.
  lemma {:induction false} MergeListensToTheOverlay(base: Json, overlay: Json, path: Path)
    ensures ContentAt(Merge(base, overlay), path) ==
      match Say(overlay, path) case Says(c) => c case Silent => ContentAt(StripNulls(base), path)
    decreases base
  {
    StripHoldsWhatItSays(overlay, path);
    if base.Obj? && overlay.Obj? && path != [] {
      var b, o, k := base.fields, overlay.fields, path[0];
      if Kept(b, o, k) {
        assert ContentAt(Merge(base, overlay), path) == ContentAt(Entry(base, overlay, k), path[1..]);
        if k in o && k in b {
          MergeListensToTheOverlay(b[k], o[k], path[1..]);
        } else if k in o {
          StripHoldsWhatItSays(o[k], path[1..]);
        }
      }
    }
  }

  // The fold of any layers holds at any path what the scan finds.
  lemma {:induction false} FoldIsTheScan(layers: seq<Json>, path: Path)
    ensures ContentAt(MergeLayers(layers), path) == Scan(layers, path)
    ensures Clean(MergeLayers(layers)) && MergeLayers(layers) != Null
    decreases |layers|
  {
    if layers != [] {
      var below, last := layers[..|layers| - 1], layers[|layers| - 1];
      assert layers == below + [last];
      FoldLast(EMPTY_OBJECT, below, last);
      FoldIsTheScan(below, path);
      MergeIsClean(MergeLayers(below), last);
      StripKeepsClean(MergeLayers(below));
      MergeListensToTheOverlay(MergeLayers(below), last, path);
    }
  }

  // Layer `i` holds the leaf, and no later layer speaks of the path.
  ghost predicate LeafComesFrom(layers: seq<Json>, path: Path, leaf: Json, i: nat) {
    && i < |layers|
    && At(layers[i], path).Some? && Stripped(At(layers[i], path).value, leaf)
    && forall j :: i < j < |layers| ==> Say(layers[j], path) == Silent
  }

  // What a leaf of the fold is: some layer's own value there, without its null
  // entries.
  lemma {:induction false} LeavesAreStrippedValues(layers: seq<Json>, path: Path, leaf: Json)
    requires ContentAt(MergeLayers(layers), path) == Leaf(leaf)
    ensures exists i :: LeafComesFrom(layers, path, leaf, i)
  {
    FoldIsTheScan(layers, path);
    var i := LastToSpeak(layers, path);
    SpokenLeafIsThere(layers[i], path);
    StrippedIsStripNulls(At(layers[i], path).value, leaf);
    assert LeafComesFrom(layers, path, leaf, i);
  }

  lemma {:induction false} LastToSpeak(layers: seq<Json>, path: Path) returns (i: nat)
    requires Scan(layers, path).Leaf?
    ensures i < |layers| && Say(layers[i], path) == Says(Scan(layers, path))
    ensures forall j :: i < j < |layers| ==> Say(layers[j], path) == Silent
    decreases |layers|
  {
    i := |layers| - 1;
    if Say(layers[i], path) == Silent {
      i := LastToSpeak(layers[..|layers| - 1], path);
    }
  }

  lemma {:induction false} SpokenLeafIsThere(v: Json, path: Path)
    requires Speak(v, path).Says? && Speak(v, path).c.Leaf?
    ensures At(v, path).Some? && Speak(v, path).c.v == StripNulls(At(v, path).value)
    decreases path
  {
    if path != [] {
      SpokenLeafIsThere(v.fields[path[0]], path[1..]);
    }
  }

  // What a value holds at every path is all there is to it: the scan
  // leaves the fold no freedom.
  lemma {:induction false} ContentDetermines(a: Json, b: Json)
    requires forall path :: ContentAt(a, path) == ContentAt(b, path)
    ensures a == b
  {
    assert ContentAt(a, []) == ContentAt(b, []);
    if a.Obj? {
      forall k | k in a.fields.Keys + b.fields.Keys
        ensures k in a.fields && k in b.fields && a.fields[k] == b.fields[k]
      {
        assert ContentAt(a, [k]) == ContentAt(b, [k]);
        assert [k][1..] == [];
        assert k in a.fields ==> ContentAt(a, [k]) == ContentAt(a.fields[k], []);
        assert k in b.fields ==> ContentAt(b, [k]) == ContentAt(b.fields[k], []);
        forall path ensures ContentAt(a.fields[k], path) == ContentAt(b.fields[k], path) {
          assert ContentAt(a, [k] + path) == ContentAt(b, [k] + path);
          assert ([k] + path)[1..] == path;
        }
        ContentDetermines(a.fields[k], b.fields[k]);
      }
    }
  }

  // Silence about a path is silence about everything beneath it.
  lemma {:induction false} SilenceReachesDown(layer: Json, p: Path, q: Path)
    requires Speak(layer, p) == Silent
    ensures Speak(layer, p + q) == Silent
    decreases p
  {
    assert (p + q)[0] == p[0] && (p + q)[1..] == p[1..] + q;
    if p[0] in layer.fields {
      SilenceReachesDown(layer.fields[p[0]], p[1..], q);
    }
  }

  // --- When two layers may be merged first -----------------------------

  // What the upper of two layers says, else what the lower one does.
  function SayOver(lower: Json, upper: Json, path: Path): Voice {
    match Say(upper, path)
    case Says(c) => Says(c)
    case Silent => Say(lower, path)
  }

  // The two layers merged into one still delete whatever they deleted.
  ghost predicate NoDeletionForgotten(lower: Json, upper: Json) {
    forall path :: SayOver(lower, upper, path) == Says(Absent) ==>
      Say(Merge(lower, upper), path) == Says(Absent)
  }

  // A clean value that is not null says what it holds, wherever it holds
  // something, and says or leaves unsaid that the rest is absent.
  lemma {:induction false} CleanSpeaksItsContent(v: Json, path: Path)
    requires Clean(v) && v != Null
    ensures ContentAt(v, path) != Absent ==> Speak(v, path) == Says(ContentAt(v, path))
    ensures ContentAt(v, path) == Absent ==> Speak(v, path) in {Silent, Says(Absent)}
    decreases path
  {
    StripKeepsClean(v);
    if path != [] && v.Obj? && path[0] in v.fields {
      CleanSpeaksItsContent(v.fields[path[0]], path[1..]);
    }
  }

  // A clean value saying that a path is absent holds something that is
  // not an object on the way to it.
  lemma {:induction false} CleanBlocks(v: Json, path: Path) returns (n: nat)
    requires Clean(v) && v != Null && Speak(v, path) == Says(Absent)
    ensures n < |path| && ContentAt(v, path[..n]).Leaf?
    decreases path
  {
    if v.Obj? {
      var m := CleanBlocks(v.fields[path[0]], path[1..]);
      n := m + 1;
      assert path[..n][1..] == path[1..][..m];
    } else {
      n := 0;
    }
  }

  // A leaf on the way to a path makes the path absent.
  lemma {:induction false} LeafSilencesNothing(v: Json, path: Path, n: nat)
    requires n < |path| && Speak(v, path[..n]).Says? && Speak(v, path[..n]).c.Leaf?
    ensures Speak(v, path) == Says(Absent)
    decreases path
  {
    if n > 0 {
      assert path[..n][0] == path[0] && path[..n][1..] == path[1..][..n - 1];
      LeafSilencesNothing(v.fields[path[0]], path[1..], n - 1);
    }
  }

  // Where neither of two layers speaks, their merge does not either.
  lemma MergeKeepsSilence(lower: Json, upper: Json, path: Path)
    requires SayOver(lower, upper, path) == Silent
    ensures Say(Merge(lower, upper), path) == Silent
  {
    var both := Merge(lower, upper);
    MergeIsClean(lower, upper);
    if both != Null {
      MergeListensToTheOverlay(lower, upper, path);
      StripHoldsWhatItSays(lower, path);
      if path != [] {
        assert ContentAt(both, path) == Absent;
        CleanSpeaksItsContent(both, path);
        if Speak(both, path) == Says(Absent) {
          var n := CleanBlocks(both, path);
          MergeListensToTheOverlay(lower, upper, path[..n]);
          StripHoldsWhatItSays(lower, path[..n]);
          if Say(upper, path[..n]).Says? {
            LeafSilencesNothing(upper, path, n);
          } else {
            LeafSilencesNothing(lower, path, n);
          }
        }
      }
    }
  }

  // Where one of two layers has something to say that is not a deletion,
  // their merge says the same.
  lemma MergeSaysWhatIsThere(lower: Json, upper: Json, path: Path)
    requires SayOver(lower, upper, path).Says? && SayOver(lower, upper, path).c != Absent
    ensures Say(Merge(lower, upper), path) == SayOver(lower, upper, path)
  {
    MergeIsClean(lower, upper);
    MergeListensToTheOverlay(lower, upper, path);
    StripHoldsWhatItSays(lower, path);
    StripIsClean(lower);
    CleanSpeaksItsContent(Merge(lower, upper), path);
  }

  // The value holding only `leaf`, at `path`.
  function Nest(path: Path, leaf: Json): Json {
    if path == [] then leaf else Obj(map[path[0] := Nest(path[1..], leaf)])
  }

  lemma {:induction false} NestHolds(path: Path, leaf: Json)
    requires leaf.Bool?
    ensures ContentAt(StripNulls(Nest(path, leaf)), path) == Leaf(leaf)
  {
    if path != [] {
      NestHolds(path[1..], leaf);
      assert Nest(path, leaf).fields[path[0]] == Nest(path[1..], leaf);
    }
  }

  ghost predicate MayMergeFirst(lower: Json, upper: Json) {
    forall base :: Merge(Merge(base, lower), upper) == Merge(base, Merge(lower, upper))
  }

  lemma NothingForgottenMergesFirst(base: Json, lower: Json, upper: Json)
    requires NoDeletionForgotten(lower, upper)
    ensures Merge(Merge(base, lower), upper) == Merge(base, Merge(lower, upper))
  {
    var left, right := Merge(Merge(base, lower), upper), Merge(base, Merge(lower, upper));
    MergeIsClean(base, lower);
    StripKeepsClean(Merge(base, lower));
    forall path ensures ContentAt(left, path) == ContentAt(right, path) {
      MergeListensToTheOverlay(Merge(base, lower), upper, path);
      MergeListensToTheOverlay(base, lower, path);
      MergeListensToTheOverlay(base, Merge(lower, upper), path);
      var v := SayOver(lower, upper, path);
      if v == Silent {
        MergeKeepsSilence(lower, upper, path);
      } else if v.c != Absent {
        MergeSaysWhatIsThere(lower, upper, path);
      }
    }
    ContentDetermines(left, right);
  }

  lemma AForgottenDeletionShows(lower: Json, upper: Json, path: Path)
    requires SayOver(lower, upper, path) == Says(Absent)
    requires Say(Merge(lower, upper), path) != Says(Absent)
    ensures var base := Nest(path, Bool(true));
      Merge(Merge(base, lower), upper) != Merge(base, Merge(lower, upper))
  {
    var base := Nest(path, Bool(true));
    NestHolds(path, Bool(true));
    MergeIsClean(base, lower);
    StripKeepsClean(Merge(base, lower));
    MergeListensToTheOverlay(Merge(base, lower), upper, path);
    MergeListensToTheOverlay(base, lower, path);
    MergeListensToTheOverlay(base, Merge(lower, upper), path);
    MergeListensToTheOverlay(lower, upper, path);
    StripHoldsWhatItSays(lower, path);
    MergeIsClean(lower, upper);
    if Merge(lower, upper) != Null {
      CleanSpeaksItsContent(Merge(lower, upper), path);
    }
  }

  // The merge is not associative; two layers may be merged before the
  // rest, whatever lies below them, exactly when that forgets no deletion.
  lemma MergeFirstIffNothingForgotten(lower: Json, upper: Json)
    ensures MayMergeFirst(lower, upper) <==> NoDeletionForgotten(lower, upper)
  {
    if NoDeletionForgotten(lower, upper) {
      forall base ensures Merge(Merge(base, lower), upper) == Merge(base, Merge(lower, upper)) {
        NothingForgottenMergesFirst(base, lower, upper);
      }
    } else {
      var path :| SayOver(lower, upper, path) == Says(Absent) &&
        Say(Merge(lower, upper), path) != Says(Absent);
      AForgottenDeletionShows(lower, upper, path);
    }
  }

  // --- A test for it ---------------------------------------------------------

  // No entry is null, down through objects; what is inside an array is
  // stripped by any merge and does not count.
  predicate NullFree(v: Json) {
    v.Obj? ==> forall k :: k in v.fields ==> v.fields[k] != Null && NullFree(v.fields[k])
  }

  // Two layers' values for one key, the lower one perhaps a delete marker: an
  // upper object only where the lower has one, key by key; a key of one of
  // them alone, without any delete marker.
  predicate EntriesMayGoFirst(lower: Json, upper: Json) {
    && upper != Null
    && (upper.Obj? ==>
      && lower.Obj?
      && (forall k :: k in lower.fields && k in upper.fields ==> EntriesMayGoFirst(lower.fields[k], upper.fields[k]))
      && (forall k :: k in lower.fields && k !in upper.fields ==> Undeleting(lower.fields[k]))
      && (forall k :: k in upper.fields && k !in lower.fields ==> Undeleting(upper.fields[k])))
  }

  predicate Undeleting(v: Json) {
    v != Null && NullFree(v)
  }

  // Two layers may be merged ahead of the rest. A layer that is null as a
  // whole is silent, so only the other one's delete markers matter.
  predicate MayGoFirst(lower: Json, upper: Json) {
    if upper.Null? then NullFree(lower)
    else if lower.Null? then NullFree(upper)
    else EntriesMayGoFirst(lower, upper)
  }

  // Without delete markers a layer merges as its stripped self.
  lemma {:induction false} NullFreeMergesStripped(base: Json, v: Json)
    requires NullFree(v)
    ensures Merge(base, StripNulls(v)) == Merge(base, v)
    decreases v, 1
  {
    if base.Obj? && v.Obj? {
      var left, right := Merge(base, StripNulls(v)).fields, Merge(base, v).fields;
      forall k ensures k in left <==> k in right
        ensures k in left ==> left[k] == right[k]
      {
        NullFreeKey(base, v, k);
      }
    } else {
      StripIsAProjection(v);
    }
  }

  lemma {:induction false} NullFreeKey(base: Json, v: Json, k: string)
    requires NullFree(v) && base.Obj? && v.Obj?
    ensures var left, right := Merge(base, StripNulls(v)).fields, Merge(base, v).fields;
      (k in left <==> k in right) && (k in left ==> left[k] == right[k])
    decreases v, 0
  {
    if k in v.fields {
      StripIsAProjection(v.fields[k]);
      if k in base.fields {
        NullFreeMergesStripped(base.fields[k], v.fields[k]);
      }
    }
  }

  // The values of one key, wherever it comes from.
  lemma {:induction false} EntriesGoFirst(base: Json, lower: Json, upper: Json)
    requires EntriesMayGoFirst(lower, upper)
    ensures lower != Null ==> Merge(Merge(base, lower), upper) == Merge(base, Merge(lower, upper))
    ensures lower == Null ==> StripNulls(upper) == Merge(base, Merge(lower, upper))
    decreases lower, 2
  {
    StripIsAProjection(upper);
    StripIsAProjection(lower);
    if upper.Obj? && !base.Obj? {
      MergeIsClean(lower, upper);
      StripKeepsClean(Merge(lower, upper));
      MergeOfStripped(lower, upper);
    } else if upper.Obj? {
      ObjectsGoFirst(base, lower, upper);
    }
  }

  lemma {:induction false} ObjectsGoFirst(base: Json, lower: Json, upper: Json)
    requires EntriesMayGoFirst(lower, upper) && base.Obj? && upper.Obj?
    ensures Merge(Merge(base, lower), upper) == Merge(base, Merge(lower, upper))
    decreases lower, 1
  {
    var below, both := Merge(base, lower), Merge(lower, upper);
    var left, right := Merge(below, upper).fields, Merge(base, both).fields;
    forall k ensures k in left <==> k in right
      ensures k in left ==> left[k] == right[k]
    {
      KeyGoesFirst(base, lower, upper, k);
    }
  }

  lemma {:induction false} KeyGoesFirst(base: Json, lower: Json, upper: Json, k: string)
    requires EntriesMayGoFirst(lower, upper) && base.Obj? && upper.Obj?
    ensures var left, right := Merge(Merge(base, lower), upper).fields, Merge(base, Merge(lower, upper)).fields;
      (k in left <==> k in right) && (k in left ==> left[k] == right[k])
    decreases lower, 0, 1
  {
    var b, l, u := base.fields, lower.fields, upper.fields;
    if k in l && k in u {
      SharedKeyGoesFirst(base, lower, upper, k);
    } else if k in l {
      LowerKeyGoesFirst(base, lower, upper, k);
    } else if k in u {
      UpperKeyGoesFirst(base, lower, upper, k);
    } else if k in b {
      StripIsAProjection(b[k]);
    }
  }

  lemma {:induction false} SharedKeyGoesFirst(base: Json, lower: Json, upper: Json, k: string)
    requires EntriesMayGoFirst(lower, upper) && base.Obj? && upper.Obj?
    requires k in lower.fields && k in upper.fields
    ensures var left, right := Merge(Merge(base, lower), upper).fields, Merge(base, Merge(lower, upper)).fields;
      (k in left <==> k in right) && (k in left ==> left[k] == right[k])
    decreases lower, 0, 0
  {
    var b, l, u := base.fields, lower.fields, upper.fields;
    MergeIsClean(l[k], u[k]);
    StripKeepsClean(Merge(l[k], u[k]));
    MergeOfStripped(l[k], u[k]);
    if k in b {
      EntriesGoFirst(b[k], l[k], u[k]);
    }
  }

  lemma LowerKeyGoesFirst(base: Json, lower: Json, upper: Json, k: string)
    requires EntriesMayGoFirst(lower, upper) && base.Obj? && upper.Obj?
    requires k in lower.fields && k !in upper.fields
    ensures var left, right := Merge(Merge(base, lower), upper).fields, Merge(base, Merge(lower, upper)).fields;
      (k in left <==> k in right) && (k in left ==> left[k] == right[k])
  {
    var b, l, u := base.fields, lower.fields, upper.fields;
    var below, both := Merge(base, lower), Merge(lower, upper);
    assert Undeleting(l[k]);
    StripIsAProjection(l[k]);
    assert both.fields[k] == Entry(lower, upper, k) == StripNulls(l[k]);
    assert below.fields[k] == Entry(base, lower, k);
    if k in b {
      NullFreeMergesStripped(b[k], l[k]);
      MergeIsClean(b[k], l[k]);
      StripKeepsClean(Merge(b[k], l[k]));
      assert below.fields[k] == Merge(b[k], l[k]);
    }
    assert Kept(below.fields, u, k) && Kept(b, both.fields, k);
    assert Entry(below, upper, k) == StripNulls(below.fields[k]);
  }

  lemma UpperKeyGoesFirst(base: Json, lower: Json, upper: Json, k: string)
    requires EntriesMayGoFirst(lower, upper) && base.Obj? && upper.Obj?
    requires k !in lower.fields && k in upper.fields
    ensures var left, right := Merge(Merge(base, lower), upper).fields, Merge(base, Merge(lower, upper)).fields;
      (k in left <==> k in right) && (k in left ==> left[k] == right[k])
  {
    var b, u := base.fields, upper.fields;
    assert Undeleting(u[k]);
    StripIsAProjection(u[k]);
    if k in b {
      NullFreeMergesStripped(b[k], u[k]);
      MergeOfStripped(b[k], u[k]);
    }
  }

  lemma MayGoFirstIsEnough(base: Json, lower: Json, upper: Json)
    requires MayGoFirst(lower, upper)
    ensures Merge(Merge(base, lower), upper) == Merge(base, Merge(lower, upper))
  {
    if upper.Null? {
      NullFreeMergesStripped(base, lower);
      MergeIsClean(base, lower);
      StripKeepsClean(Merge(base, lower));
    } else if lower.Null? {
      NullFreeMergesStripped(base, upper);
      MergeOfStripped(base, upper);
    } else {
      EntriesGoFirst(base, lower, upper);
    }
  }

  // --- And without it a deletion is forgotten ----------------------------------

  // What the upper of two entries says, else what the lower one does.
  function SpeakOver(lower: Json, upper: Json, path: Path): Voice {
    match Speak(upper, path)
    case Says(c) => Says(c)
    case Silent => Speak(lower, path)
  }

  // A delete marker is gone from the stripped value.
  lemma {:induction false} StrippingForgets(v: Json) returns (path: Path)
    requires !NullFree(v)
    ensures path != [] && Speak(v, path) == Says(Absent) && Speak(StripNulls(v), path) == Silent
    decreases v
  {
    var k :| k in v.fields && (v.fields[k] == Null || !NullFree(v.fields[k]));
    if v.fields[k] == Null {
      path := [k];
      assert path[1..] == [];
    } else {
      var rest := StrippingForgets(v.fields[k]);
      path := [k] + rest;
      assert path[1..] == rest;
    }
  }

  // A text that is not among some texts: one longer than all of them.
  lemma {:induction false} FreshKey(keys: set<string>) returns (longer: string)
    ensures longer !in keys
    ensures forall k :: k in keys ==> |k| < |longer|
  {
    if keys == {} {
      longer := "";
    } else {
      var k :| k in keys;
      var shorter := FreshKey(keys - {k});
      longer := seq((if |k| > |shorter| then |k| else |shorter|) + 1, i => 'a');
      forall x | x in keys ensures |x| < |longer| {
        assert x == k || x in keys - {k};
      }
    }
  }

  lemma {:induction false} EntriesForget(lower: Json, upper: Json) returns (path: Path)
    requires upper != Null && !EntriesMayGoFirst(lower, upper)
    ensures path != [] && SpeakOver(lower, upper, path) == Says(Absent)
    ensures Speak(Merge(lower, upper), path) == Silent
    decreases lower
  {
    var u := upper.fields;
    if !lower.Obj? {
      var k := FreshKey(u.Keys);
      path := [k];
      assert path[1..] == [];
    } else {
      var l := lower.fields;
      var k :|
        || (k in l && k in u && !EntriesMayGoFirst(l[k], u[k]))
        || (k in l && k !in u && !Undeleting(l[k]))
        || (k in u && k !in l && !Undeleting(u[k]));
      var rest := KeyForgets(lower, upper, k);
      path := [k] + rest;
      assert path[1..] == rest;
    }
  }

  lemma {:induction false} KeyForgets(lower: Json, upper: Json, k: string) returns (rest: Path)
    requires lower.Obj? && upper.Obj?
    requires
      || (k in lower.fields && k in upper.fields && !EntriesMayGoFirst(lower.fields[k], upper.fields[k]))
      || (k in lower.fields && k !in upper.fields && !Undeleting(lower.fields[k]))
      || (k in upper.fields && k !in lower.fields && !Undeleting(upper.fields[k]))
    ensures SpeakOver(lower, upper, [k] + rest) == Says(Absent)
    ensures Speak(Merge(lower, upper), [k] + rest) == Silent
    decreases lower, 0
  {
    var l, u, m := lower.fields, upper.fields, Merge(lower, upper).fields;
    assert k in m ==> m[k] == Entry(lower, upper, k);
    if k in u && u[k] == Null {
      rest := [];
    } else if k in u && k in l {
      rest := EntriesForget(l[k], u[k]);
      assert m[k] == Merge(l[k], u[k]);
    } else if k in l {
      if l[k] == Null {
        rest := [];
      } else {
        rest := StrippingForgets(l[k]);
      }
    } else {
      rest := StrippingForgets(u[k]);
    }
    var path := [k] + rest;
    assert path[0] == k && path[1..] == rest;
    assert Speak(upper, path) == if k in u then Speak(u[k], rest) else Silent;
    assert Speak(lower, path) == if k in l then Speak(l[k], rest) else Silent;
    assert Speak(Merge(lower, upper), path) == if k in m then Speak(m[k], rest) else Silent;
  }

  lemma MayGoFirstIsNeeded(lower: Json, upper: Json)
    requires !MayGoFirst(lower, upper)
    ensures !MayMergeFirst(lower, upper)
  {
    var path: Path;
    if upper.Null? {
      path := StrippingForgets(lower);
    } else if lower.Null? {
      path := StrippingForgets(upper);
      assert Merge(lower, upper) == StripNulls(upper);
    } else {
      path := EntriesForget(lower, upper);
    }
    AForgottenDeletionShows(lower, upper, path);
  }

  // Two layers may be merged ahead of every base exactly when the test, made
  // on the two layers alone, says so.
  lemma MergeFirstIffMayGoFirst(lower: Json, upper: Json)
    ensures MayMergeFirst(lower, upper) <==> MayGoFirst(lower, upper)
  {
    if MayGoFirst(lower, upper) {
      forall base ensures Merge(Merge(base, lower), upper) == Merge(base, Merge(lower, upper)) {
        MayGoFirstIsEnough(base, lower, upper);
      }
    } else {
      MayGoFirstIsNeeded(lower, upper);
    }
  }
}
