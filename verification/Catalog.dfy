/**
 * The model list a provider built by `createProvider` reports (packages/ai/src/models.ts):
 * a static baseline overlaid with the last published dynamic list.
 */
module Catalog {
  import opened Basics

  datatype Model = Model(id: string, provider: string, settings: int)

  /** The first entry with the given id, as `getModel` finds it. */
  function FirstWith(models: seq<Model>, id: string): Option<Model> {
    if models == [] then None
    else if models[0].id == id then Some(models[0])
    else FirstWith(models[1..], id)
  }

  /** The last entry with the given id. */
  function LastWith(models: seq<Model>, id: string): Option<Model> {
    if models == [] then None
    else if models[|models| - 1].id == id then Some(models[|models| - 1])
    else LastWith(models[..|models| - 1], id)
  }

  /** What the overlaid catalog means: the last dynamic entry wins, else the first baseline entry, else nothing. */
  function Lookup(baseline: seq<Model>, dynamicModels: seq<Model>, id: string): Option<Model> {
    if LastWith(dynamicModels, id).Some? then LastWith(dynamicModels, id) else FirstWith(baseline, id)
  }

  function Ids(models: seq<Model>): (ids: seq<string>)
    ensures |ids| == |models| && forall i :: 0 <= i < |ids| ==> ids[i] == models[i].id
  {
    seq(|models|, i requires 0 <= i < |models| => models[i].id)
  }

  /** The ids of `models` outside `seen`, each once, in order of first appearance. */
  function NewIds(models: seq<Model>, seen: set<string>): seq<string> {
    if models == [] then []
    else if models[0].id in seen then NewIds(models[1..], seen)
    else [models[0].id] + NewIds(models[1..], seen + {models[0].id})
  }

  function IdSet(models: seq<Model>): set<string> {
    set m | m in models :: m.id
  }

  method FindIndex(models: seq<Model>, id: string) returns (index: int)
    ensures -1 <= index < |models|
    ensures index >= 0 ==> models[index].id == id && forall i :: 0 <= i < index ==> models[i].id != id
    ensures index < 0 ==> forall m :: m in models ==> m.id != id
  {
    index := 0;
    while index < |models|
      invariant 0 <= index <= |models|
      invariant forall i :: 0 <= i < index ==> models[i].id != id
    {
      if models[index].id == id { return; }
      index := index + 1;
    }
    index := -1;
  }

  /** The model replaces the first with its id or comes last, and every other lookup stays. */
  ghost predicate Upserted(models: seq<Model>, model: Model, merged: seq<Model>) {
    && (forall id :: FirstWith(merged, id) == if id == model.id then Some(model) else FirstWith(models, id))
    && Ids(merged) == Ids(models) + (if model.id in IdSet(models) then [] else [model.id])
    && IdSet(merged) == IdSet(models) + {model.id}
  }

  /** One round of the overlay loop. */
  method Upsert(models: seq<Model>, model: Model) returns (merged: seq<Model>)
    ensures Upserted(models, model, merged)
  {
    var index := FindIndex(models, model.id);
    if index >= 0 {
      merged := models[index := model];
      forall id ensures FirstWith(merged, id) == if id == model.id then Some(model) else FirstWith(models, id) {
        FirstAfterReplace(models, index, model, id);
      }
      assert models[index] in models && merged[index] in merged;
      assert models[index].id in IdSet(models);
      assert Ids(merged) == Ids(models) + [];
    } else {
      merged := models + [model];
      forall id ensures FirstWith(merged, id) == if id == model.id then Some(model) else FirstWith(models, id) {
        FirstAfterPush(models, model, id);
      }
      assert Ids(merged) == Ids(models) + [model.id];
    }
    IdSetIsIds(models);
    IdSetIsIds(merged);
  }

  lemma IdSetIsIds(models: seq<Model>)
    ensures forall id :: id in IdSet(models) <==> id in Ids(models)
  {
    forall id | id in IdSet(models) ensures id in Ids(models) {
      var m :| m in models && m.id == id;
      var i :| 0 <= i < |models| && models[i] == m;
      assert Ids(models)[i] == id;
    }
    forall i | 0 <= i < |models| ensures Ids(models)[i] in IdSet(models) {
      assert models[i] in models;
    }
  }

  /** `currentModels` */
  method CurrentModels(baseline: seq<Model>, dynamicModels: seq<Model>) returns (merged: seq<Model>)
    ensures Overlaid(baseline, dynamicModels, merged)
  {
    merged := baseline;
    NothingOverlaid(baseline);
    for k := 0 to |dynamicModels|
      invariant IdSet(merged) == IdSet(baseline) + IdSet(dynamicModels[..k])
      invariant Overlaid(baseline, dynamicModels[..k], merged)
    {
      ghost var before, done := merged, dynamicModels[..k];
      assert dynamicModels[..k + 1] == done + [dynamicModels[k]];
      merged := Upsert(merged, dynamicModels[k]);
      OverlaysOne(baseline, done, before, dynamicModels[k], merged);
    }
    assert dynamicModels[..|dynamicModels|] == dynamicModels;
  }

  /** Every lookup, and the order of the ids, of the overlaid catalog. */
  ghost predicate Overlaid(baseline: seq<Model>, dynamicModels: seq<Model>, merged: seq<Model>) {
    && (forall id :: FirstWith(merged, id) == Lookup(baseline, dynamicModels, id))
    && Ids(merged) == Ids(baseline) + NewIds(dynamicModels, IdSet(baseline))
  }

  lemma NothingOverlaid(baseline: seq<Model>)
    ensures Overlaid(baseline, [], baseline) && IdSet(baseline) == IdSet(baseline) + IdSet([])
  {
  }

  lemma OverlaysOne(baseline: seq<Model>, done: seq<Model>, merged: seq<Model>, model: Model, next: seq<Model>)
    requires Overlaid(baseline, done, merged) && IdSet(merged) == IdSet(baseline) + IdSet(done)
    requires Upserted(merged, model, next)
    ensures Overlaid(baseline, done + [model], next) && IdSet(next) == IdSet(baseline) + IdSet(done + [model])
  {
    NewIdsSnoc(done, model, IdSet(baseline));
    LastAfterPush(done, model);
  }

  lemma LastAfterPush(models: seq<Model>, model: Model)
    ensures forall id :: LastWith(models + [model], id) == if id == model.id then Some(model) else LastWith(models, id)
    ensures IdSet(models + [model]) == IdSet(models) + {model.id}
  {
    assert (models + [model])[..|models|] == models;
  }

  lemma {:induction false} FirstAfterReplace(models: seq<Model>, index: nat, model: Model, id: string)
    requires index < |models| && models[index].id == model.id
    requires forall i :: 0 <= i < index ==> models[i].id != model.id
    ensures FirstWith(models[index := model], id) == if id == model.id then Some(model) else FirstWith(models, id)
  {
    if index > 0 {
      assert models[index := model][1..] == models[1..][index - 1 := model];
      FirstAfterReplace(models[1..], index - 1, model, id);
    } else {
      assert models[0 := model][1..] == models[1..];
    }
  }

  lemma {:induction false} FirstAfterPush(models: seq<Model>, model: Model, id: string)
    requires forall m :: m in models ==> m.id != model.id
    ensures FirstWith(models + [model], id) == if id == model.id then Some(model) else FirstWith(models, id)
  {
    if models != [] {
      assert (models + [model])[1..] == models[1..] + [model];
      FirstAfterPush(models[1..], model, id);
    }
  }

  lemma {:induction false} NewIdsSnoc(models: seq<Model>, model: Model, seen: set<string>)
    ensures NewIds(models + [model], seen) ==
      NewIds(models, seen) + if model.id in seen + IdSet(models) then [] else [model.id]
  {
    if models != [] {
      assert (models + [model])[1..] == models[1..] + [model];
      var head := models[0].id;
      var seen' := if head in seen then seen else seen + {head};
      NewIdsSnoc(models[1..], model, seen');
      assert seen' + IdSet(models[1..]) == seen + IdSet(models) by {
        assert models == [models[0]] + models[1..];
      }
    }
  }

  /** New ids appear once each, and none of them is already taken. */
  lemma {:induction false} NewIdsAreNew(models: seq<Model>, seen: set<string>)
    ensures var ids := NewIds(models, seen);
      && (set id | id in ids) == IdSet(models) - seen
      && (forall i, j :: 0 <= i < j < |ids| ==> ids[i] != ids[j])
  {
    if models != [] {
      var seen' := if models[0].id in seen then seen else seen + {models[0].id};
      NewIdsAreNew(models[1..], seen');
      assert models == [models[0]] + models[1..];
      assert IdSet(models) == {models[0].id} + IdSet(models[1..]);
      var ids, rest := NewIds(models, seen), NewIds(models[1..], seen');
      if models[0].id !in seen {
        assert ids == [models[0].id] + rest;
        assert (set id | id in ids) == {models[0].id} + (set id | id in rest);
        assert forall j :: 0 < j < |ids| ==> ids[j] == rest[j - 1] && rest[j - 1] in (set id | id in rest);
      }
    }
  }
}
