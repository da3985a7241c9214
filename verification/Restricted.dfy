// The check on a layer of a file a plugin applied, and what it secures: since
// it accepts exactly the layers silent about seven paths, the fold holds at
// those paths what it would hold without them.
module Restrictions {
  import opened Basics
  import opened JsonValues
  import opened Merging

  // The refused keys, and the refused keys of `claude.settings`.
  const REFUSED: seq<Path> := [
    ["claude", "binary"],
    ["claude", "args"],
    ["env"],
    ["sandbox"],
    ["claude", "settings", "env"],
    ["claude", "settings", "apiKeyHelper"],
    ["claude", "settings", "disableAllHooks"]
  ]

  // The walk down one key from `depth` on. It stops, refusing, where the layer
  // first has a say in the key.
  function CheckKey(layer: Json, key: Path, depth: nat): Option<Path>
    decreases |key| - depth
  {
    if depth > |key| then None
    else match At(layer, key[..depth])
      case None => None
      case Some(found) =>
        if depth == |key| || !found.Obj? then Some(key[..depth]) else CheckKey(layer, key, depth + 1)
  }

  function CheckKeys(layer: Json, keys: seq<Path>): Option<Path> {
    if keys == [] then None
    else match CheckKey(layer, keys[0], 1)
      case Some(refused) => Some(refused)
      case None => CheckKeys(layer, keys[1..])
  }

  // The refused key or ancestor a layer carries, if any.
  function CheckLayer(layer: Json): Option<Path> {
    CheckKeys(layer, REFUSED)
  }

  // What a layer says beneath a value it holds is what the value says.
  lemma {:induction false} SpeakThrough(v: Json, p: Path, q: Path)
    requires At(v, p).Some?
    ensures Speak(v, p + q) == Speak(At(v, p).value, q)
  {
    if p == [] {
      assert p + q == q;
    } else {
      assert (p + q)[0] == p[0] && (p + q)[1..] == p[1..] + q;
      SpeakThrough(v.fields[p[0]], p[1..], q);
    }
  }

  lemma {:induction false} CheckKeyFindsWhatIsSaid(layer: Json, key: Path, depth: nat)
    requires 1 <= depth <= |key|
    requires At(layer, key[..depth - 1]).Some? && At(layer, key[..depth - 1]).value.Obj?
    ensures CheckKey(layer, key, depth).None? <==> Speak(layer, key) == Silent
    decreases |key| - depth
  {
    var parent := At(layer, key[..depth - 1]).value;
    SpeakThrough(layer, key[..depth - 1], key[depth - 1..]);
    AtConcat(layer, key[..depth - 1], [key[depth - 1]]);
    assert key[..depth - 1] + key[depth - 1..] == key;
    assert key[..depth - 1] + [key[depth - 1]] == key[..depth];
    assert key[depth - 1..][0] == key[depth - 1] && key[depth - 1..][1..] == key[depth..];
    assert [key[depth - 1]][1..] == [];
    if At(layer, key[..depth]).Some? {
      var found := At(layer, key[..depth]).value;
      assert found == parent.fields[key[depth - 1]];
      if depth < |key| && found.Obj? {
        CheckKeyFindsWhatIsSaid(layer, key, depth + 1);
      }
    }
  }

  // A key is found exactly when the layer is not silent about it.
  lemma CheckKeyIffSpoken(layer: Json, key: Path)
    requires layer.Obj? || layer.Null?
    requires key != []
    ensures CheckKey(layer, key, 1).None? <==> Say(layer, key) == Silent
  {
    if layer.Obj? {
      assert key[..0] == [];
      CheckKeyFindsWhatIsSaid(layer, key, 1);
    } else {
      assert key[..1][0] == key[0];
    }
  }

  lemma {:induction false} CheckKeysIffSpoken(layer: Json, keys: seq<Path>)
    requires layer.Obj? || layer.Null?
    requires forall i :: 0 <= i < |keys| ==> keys[i] != []
    ensures CheckKeys(layer, keys).None? <==>
      forall i :: 0 <= i < |keys| ==> Say(layer, keys[i]) == Silent
  {
    if keys != [] {
      CheckKeyIffSpoken(layer, keys[0]);
      CheckKeysIffSpoken(layer, keys[1..]);
      assert forall i :: 0 <= i < |keys[1..]| ==> keys[1..][i] == keys[i + 1];
    }
  }

  // A layer is accepted exactly when it is silent about every refused key.
  lemma AcceptedIffSilent(layer: Json)
    requires layer.Obj? || layer.Null?
    ensures CheckLayer(layer).None? <==>
      forall i :: 0 <= i < |REFUSED| ==> Say(layer, REFUSED[i]) == Silent
  {
    CheckKeysIffSpoken(layer, REFUSED);
  }

  // Which those paths are.
  lemma WhatAFileMayNotSay(layer: Json)
    requires layer.Obj? || layer.Null?
    ensures CheckLayer(layer).None? <==>
      && Say(layer, ["claude", "binary"]) == Say(layer, ["claude", "args"]) == Silent
      && Say(layer, ["env"]) == Say(layer, ["sandbox"]) == Silent
      && Say(layer, ["claude", "settings", "env"]) == Say(layer, ["claude", "settings", "apiKeyHelper"]) == Silent
      && Say(layer, ["claude", "settings", "disableAllHooks"]) == Silent
  {
    AcceptedIffSilent(layer);
    if CheckLayer(layer).None? {
      assert Say(layer, REFUSED[0]) == Say(layer, REFUSED[1]) == Say(layer, REFUSED[2]) == Silent;
      assert Say(layer, REFUSED[3]) == Say(layer, REFUSED[4]) == Say(layer, REFUSED[5]) == Silent;
      assert Say(layer, REFUSED[6]) == Silent;
    }
  }

  // Layers silent about a path change nothing beneath it.
  lemma {:induction false} SilentLayersAreUnheard(below: seq<Json>, file: seq<Json>, path: Path)
    requires forall i :: 0 <= i < |file| ==> Say(file[i], path) == Silent
    ensures Scan(below + file, path) == Scan(below, path)
    decreases |file|
  {
    var all := below + file;
    if file == [] {
      assert all == below;
    } else {
      assert all[|all| - 1] == file[|file| - 1];
      assert all[..|all| - 1] == below + file[..|file| - 1];
      SilentLayersAreUnheard(below, file[..|file| - 1], path);
    }
  }

  lemma ContentBeneath(v: Json, p: Path, q: Path)
    ensures ContentAt(v, p + q) == if At(v, p).Some? then ContentAt(At(v, p).value, q) else Absent
  {
    AtConcat(v, p, q);
  }

  // Whatever accepted file layers say, the merged value at a refused key is
  // the one the layers below them give.
  lemma RefusedKeysComeFromBelow(below: seq<Json>, file: seq<Json>, key: Path)
    requires key in REFUSED
    requires forall i :: 0 <= i < |file| ==> (file[i].Obj? || file[i].Null?) && CheckLayer(file[i]).None?
    ensures At(MergeLayers(below + file), key) == At(MergeLayers(below), key)
  {
    var with, without := MergeLayers(below + file), MergeLayers(below);
    forall q ensures ContentAt(with, key + q) == ContentAt(without, key + q) {
      forall i | 0 <= i < |file| ensures Say(file[i], key + q) == Silent {
        AcceptedIffSilent(file[i]);
        if file[i].Obj? {
          SilenceReachesDown(file[i], key, q);
        }
      }
      SilentLayersAreUnheard(below, file, key + q);
      FoldIsTheScan(below + file, key + q);
      FoldIsTheScan(below, key + q);
    }
    assert key + [] == key;
    assert ContentAt(with, key) == ContentAt(without, key) by {
      assert ContentAt(with, key + []) == ContentAt(without, key + []);
    }
    if At(with, key).Some? {
      var a, b := At(with, key).value, At(without, key).value;
      forall q ensures ContentAt(a, q) == ContentAt(b, q) {
        ContentBeneath(with, key, q);
        ContentBeneath(without, key, q);
      }
      ContentDetermines(a, b);
    }
  }
}
