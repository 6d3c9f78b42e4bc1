/**
  The model registry as the admin panel maintains it: the list transforms behind
  add/update, delete, set-default, enable/disable and the search filter, the
  registry invariants they keep, and the panel object that applies each
  transform to its state and persists the result.
*/
module Registry {

  import opened Wrappers
  import opened Types
  import opened JsString
  import opened Store

  // ---------------------------------------------------------------------------
  // Registry invariants

  /** The ids of a list. */
  function IdsOf(ms: seq<AIModel>): (ids: set<string>)
    ensures forall i :: 0 <= i < |ms| ==> ms[i].id in ids
    ensures forall id :: id in ids ==> exists i :: 0 <= i < |ms| && ms[i].id == id
  {
    set m | m in ms :: m.id
  }

  ghost predicate UniqueIds(ms: seq<AIModel>)
  {
    forall i, j :: 0 <= i < j < |ms| ==> ms[i].id != ms[j].id
  }

  ghost predicate AtMostOneDefault(ms: seq<AIModel>)
  {
    forall i, j :: 0 <= i < j < |ms| && ms[i].isDefault ==> !ms[j].isDefault
  }

  ghost predicate DefaultIsEnabled(ms: seq<AIModel>)
  {
    forall i :: 0 <= i < |ms| && ms[i].isDefault ==> ms[i].isEnabled
  }

  ghost predicate HasDefault(ms: seq<AIModel>)
  {
    exists i :: 0 <= i < |ms| && ms[i].isDefault
  }

  /** What every mutation keeps: unique ids, at most one default, and the default enabled. */
  ghost predicate RegistryValid(ms: seq<AIModel>)
  {
    UniqueIds(ms) && AtMostOneDefault(ms) && DefaultIsEnabled(ms)
  }

  // ---------------------------------------------------------------------------
  // The list transforms

  /** Adding: one new entry at the end, enabled, and the default only when the list was empty. */
  function AddModel(ms: seq<AIModel>, newId: string, name: string, key: string): (r: seq<AIModel>)
    ensures |r| == |ms| + 1 && r[..|ms|] == ms
    ensures r[|ms|].id == newId && r[|ms|].name == name && r[|ms|].apiKey == key
    ensures r[|ms|].isEnabled && (r[|ms|].isDefault <==> ms == [])
  {
    ms + [AIModel(newId, name, key, |ms| == 0, true)]
  }

  /** Updating: entries whose id matches get the new name and key; nothing else changes. */
  function UpdateModel(ms: seq<AIModel>, id: string, name: string, key: string): (r: seq<AIModel>)
    ensures |r| == |ms|
    ensures forall i :: 0 <= i < |ms| ==>
      r[i].id == ms[i].id && r[i].isDefault == ms[i].isDefault && r[i].isEnabled == ms[i].isEnabled
    ensures forall i :: 0 <= i < |ms| && ms[i].id == id ==> r[i].name == name && r[i].apiKey == key
    ensures forall i :: 0 <= i < |ms| && ms[i].id != id ==> r[i] == ms[i]
  {
    if ms == [] then []
    else
      var m := ms[0];
      [if m.id == id then m.(name := name, apiKey := key) else m] + UpdateModel(ms[1..], id, name, key)
  }

  /** Deleting: exactly the entries with that id go, the others stay. No entry is promoted to default. */
  function DeleteModel(ms: seq<AIModel>, id: string): (r: seq<AIModel>)
    ensures |r| <= |ms|
    ensures forall m :: m in r <==> m in ms && m.id != id
  {
    if ms == [] then []
    else if ms[0].id != id then [ms[0]] + DeleteModel(ms[1..], id)
    else DeleteModel(ms[1..], id)
  }

  /**
    Making `id` the default: exactly the entries with that id become default and
    are forced enabled; the others lose the default flag and keep their enabled flag.
  */
  function SetDefault(ms: seq<AIModel>, id: string): (r: seq<AIModel>)
    ensures |r| == |ms|
    ensures forall i :: 0 <= i < |ms| ==>
      && r[i].id == ms[i].id && r[i].name == ms[i].name && r[i].apiKey == ms[i].apiKey
      && (r[i].isDefault <==> ms[i].id == id)
      && r[i].isEnabled == (ms[i].id == id || ms[i].isEnabled)
  {
    if ms == [] then []
    else
      var m := ms[0];
      [m.(isDefault := m.id == id, isEnabled := if m.id == id then true else m.isEnabled)] + SetDefault(ms[1..], id)
  }

  /** Setting the enabled flag of the entries with that id; nothing else changes. */
  function SetEnabled(ms: seq<AIModel>, id: string, enabled: bool): (r: seq<AIModel>)
    ensures |r| == |ms|
    ensures forall i :: 0 <= i < |ms| && ms[i].id == id ==> r[i] == ms[i].(isEnabled := enabled)
    ensures forall i :: 0 <= i < |ms| && ms[i].id != id ==> r[i] == ms[i]
  {
    if ms == [] then []
    else
      var m := ms[0];
      [if m.id == id then m.(isEnabled := enabled) else m] + SetEnabled(ms[1..], id, enabled)
  }

  /** The outcome of a toggle: refused (the alert), or the new list. */
  datatype Toggle = Rejected | Applied(models: seq<AIModel>)

  /**
    Toggling: refused when the first entry with that id is the default and the
    caller reports it as enabled; otherwise its enabled flag becomes `!currentStatus`.
  */
  function ToggleEnabled(ms: seq<AIModel>, id: string, currentStatus: bool): (r: Toggle)
    ensures r.Rejected? <==> currentStatus && exists k :: 0 <= k < |ms| && ms[k].id == id && ms[k].isDefault
                                                         && forall j :: 0 <= j < k ==> ms[j].id != id
    ensures r.Applied? ==> r.models == SetEnabled(ms, id, !currentStatus)
  {
    match FindFirst(ms, (m: AIModel) => m.id == id)
    case Some(k) =>
      if ms[k].isDefault && currentStatus then Rejected else Applied(SetEnabled(ms, id, !currentStatus))
    case None =>
      Applied(SetEnabled(ms, id, !currentStatus))
  }

  /** The search match: the lower-cased name contains the lower-cased query, or the id contains the query. */
  predicate Matches(m: AIModel, query: string)
  {
    Includes(ToLower(m.name), ToLower(query)) || Includes(m.id, query)
  }

  /** The search filter: the matching entries, in their order. */
  function FilterModels(ms: seq<AIModel>, query: string): (r: seq<AIModel>)
    ensures |r| <= |ms|
    ensures forall m :: m in r <==> m in ms && Matches(m, query)
  {
    if ms == [] then []
    else if Matches(ms[0], query) then [ms[0]] + FilterModels(ms[1..], query)
    else FilterModels(ms[1..], query)
  }

  // ---------------------------------------------------------------------------
  // Properties of the transforms

  /** The filter keeps relative order: filtering a concatenation filters each part. */
  lemma {:induction false} FilterAppend(a: seq<AIModel>, b: seq<AIModel>, query: string)
    ensures FilterModels(a + b, query) == FilterModels(a, query) + FilterModels(b, query)
  {
    if a != [] {
      assert (a + b)[1..] == a[1..] + b;
      FilterAppend(a[1..], b, query);
    } else {
      assert a + b == b;
    }
  }

  /** An empty query keeps every entry. */
  lemma {:induction false} EmptyQueryKeepsAll(ms: seq<AIModel>)
    ensures FilterModels(ms, "") == ms
  {
    if ms != [] {
      IncludesEmpty(ToLower(ms[0].name));
      EmptyQueryKeepsAll(ms[1..]);
    }
  }

  /** Deleting keeps relative order: deleting from a concatenation deletes from each part. */
  lemma {:induction false} DeleteAppend(a: seq<AIModel>, b: seq<AIModel>, id: string)
    ensures DeleteModel(a + b, id) == DeleteModel(a, id) + DeleteModel(b, id)
  {
    if a != [] {
      assert (a + b)[1..] == a[1..] + b;
      DeleteAppend(a[1..], b, id);
    } else {
      assert a + b == b;
    }
  }

  /** Deleting an id that is not present changes nothing. */
  lemma {:induction false} DeleteAbsent(ms: seq<AIModel>, id: string)
    requires id !in IdsOf(ms)
    ensures DeleteModel(ms, id) == ms
  {
    if ms != [] {
      assert ms[0].id != id;
      assert IdsOf(ms[1..]) <= IdsOf(ms);
      DeleteAbsent(ms[1..], id);
      assert [ms[0]] + ms[1..] == ms;
    }
  }

  /** Updating an id that is not present changes nothing. */
  lemma UpdateAbsent(ms: seq<AIModel>, id: string, name: string, key: string)
    requires id !in IdsOf(ms)
    ensures UpdateModel(ms, id, name, key) == ms
  {
  }

  /** Making an absent id the default leaves no default at all. */
  lemma SetDefaultAbsent(ms: seq<AIModel>, id: string)
    requires id !in IdsOf(ms)
    ensures !HasDefault(SetDefault(ms, id))
  {
  }

  /** With unique ids, making a present id the default leaves exactly one default, and it is enabled. */
  lemma SetDefaultExactlyOne(ms: seq<AIModel>, id: string)
    requires UniqueIds(ms) && id in IdsOf(ms)
    ensures HasDefault(SetDefault(ms, id)) && AtMostOneDefault(SetDefault(ms, id))
    ensures DefaultIsEnabled(SetDefault(ms, id))
  {
  }

  /** Deleting the only default leaves no default: delete does not promote another entry. */
  lemma DeleteDefaultLeavesNone(ms: seq<AIModel>, k: nat)
    requires RegistryValid(ms) && k < |ms| && ms[k].isDefault
    ensures !HasDefault(DeleteModel(ms, ms[k].id))
  {
  }

  // Each transform keeps the registry invariants; adding needs an id not yet in the list.

  lemma AddKeepsValid(ms: seq<AIModel>, newId: string, name: string, key: string)
    requires RegistryValid(ms) && newId !in IdsOf(ms)
    ensures RegistryValid(AddModel(ms, newId, name, key))
  {
  }

  lemma UpdateKeepsValid(ms: seq<AIModel>, id: string, name: string, key: string)
    requires RegistryValid(ms)
    ensures RegistryValid(UpdateModel(ms, id, name, key))
  {
  }

  lemma {:induction false} DeleteKeepsValid(ms: seq<AIModel>, id: string)
    requires RegistryValid(ms)
    ensures RegistryValid(DeleteModel(ms, id))
  {
    if ms != [] {
      var tail := ms[1..];
      assert RegistryValid(tail);
      DeleteKeepsValid(tail, id);
      var rt := DeleteModel(tail, id);
      if ms[0].id != id {
        var r := [ms[0]] + rt;
        forall j | 1 <= j < |r| ensures r[j].id != ms[0].id && (ms[0].isDefault ==> !r[j].isDefault) {
          assert r[j] == rt[j - 1] && rt[j - 1] in tail;
        }
      }
    }
  }

  lemma SetDefaultKeepsValid(ms: seq<AIModel>, id: string)
    requires RegistryValid(ms)
    ensures RegistryValid(SetDefault(ms, id))
  {
  }

  lemma ToggleKeepsValid(ms: seq<AIModel>, id: string, currentStatus: bool)
    requires RegistryValid(ms)
    ensures ToggleEnabled(ms, id, currentStatus).Applied? ==> RegistryValid(ToggleEnabled(ms, id, currentStatus).models)
  {
  }

  /**
    The end-to-end registry scenario: starting empty, add "model-a" and
    "model-b", make "model-b" the default, disable "model-a"; the active model
    is then "model-b".
  */
  lemma EndToEnd(idA: string, idB: string)
    requires idA != idB
    ensures
      var s1 := AddModel([], idA, "model-a", "key-a");
      var s2 := AddModel(s1, idB, "model-b", "key-b");
      var s3 := SetDefault(s2, idB);
      var t := ToggleEnabled(s3, idA, true);
      && s1[0].isDefault && s1[0].isEnabled
      && !s2[1].isDefault && s2[1].isEnabled
      && !s3[0].isDefault && s3[1].isDefault && s3[1].isEnabled
      && t.Applied? && !t.models[0].isEnabled
      && ActiveModelOf(t.models) == Some(t.models[1]) && t.models[1].name == "model-b"
  {
  }

  // ---------------------------------------------------------------------------
  // The panel

  /** The admin form's model name after a reset. */
  const FormDefaultName := DefaultModelName

  /**
    The admin panel's registry state: the in-memory list, the search query and
    the add/edit form, over the store it persists to.
  */
  class AdminPanel {
    const store: ConfigStore
    var models: seq<AIModel>
    var searchQuery: string
    var editingModelId: Option<string>
    var formName: string
    var formKey: string

    /** The list in memory is the list the store reads back. */
    ghost predicate Persisted()
      reads this, store
    {
      store.GetModels() == models
    }

    constructor (store: ConfigStore)
      ensures this.store == store && models == store.GetModels() && Persisted()
      ensures searchQuery == "" && editingModelId == None && formName == FormDefaultName && formKey == ""
    {
      this.store := store;
      models := store.GetModels();
      searchQuery := "";
      editingModelId := None;
      formName := FormDefaultName;
      formKey := "";
    }

    /** The entries shown for the current query. */
    function FilteredModels(): (r: seq<AIModel>)
      reads this
      ensures forall m :: m in r <==> m in models && Matches(m, searchQuery)
    {
      FilterModels(models, searchQuery)
    }

    /** Clears the form back to adding a new model. */
    method ResetModelForm()
      modifies this
      ensures editingModelId == None && formName == FormDefaultName && formKey == ""
      ensures models == old(models) && searchQuery == old(searchQuery)
    {
      editingModelId := None;
      formName := FormDefaultName;
      formKey := "";
    }

    /** Loads an entry into the form for editing. */
    method EditModel(m: AIModel)
      modifies this
      ensures editingModelId == Some(m.id) && formName == m.name && formKey == m.apiKey
      ensures models == old(models) && searchQuery == old(searchQuery)
    {
      editingModelId := Some(m.id);
      formName := m.name;
      formKey := m.apiKey;
    }

    /**
      Submits the form. An empty name or key changes and persists nothing. With a
      non-empty id being edited the matching entries are updated; otherwise a new
      entry with the given fresh id is appended. The result is persisted and the
      form reset.
    */
    method SaveModel(newId: string)
      requires newId !in IdsOf(models)
      modifies this, store
      ensures old(formName) == "" || old(formKey) == "" ==>
        models == old(models) && store.items == old(store.items)
        && editingModelId == old(editingModelId) && formName == old(formName) && formKey == old(formKey)
      ensures old(formName) != "" && old(formKey) != "" ==>
        && models == (if old(editingModelId).Some? && old(editingModelId).value != ""
                      then UpdateModel(old(models), old(editingModelId).value, old(formName), old(formKey))
                      else AddModel(old(models), newId, old(formName), old(formKey)))
        && store.items == old(store.items)[ModelsKey := ModelsJson(ModelRecords(models))]
        && editingModelId == None && formName == FormDefaultName && formKey == ""
      ensures old(Persisted()) ==> Persisted()
      ensures RegistryValid(old(models)) ==> RegistryValid(models)
      ensures searchQuery == old(searchQuery)
    {
      if formName == "" || formKey == "" {
        return;
      }
      var updated;
      if editingModelId.Some? && editingModelId.value != "" {
        updated := UpdateModel(models, editingModelId.value, formName, formKey);
        if RegistryValid(models) { UpdateKeepsValid(models, editingModelId.value, formName, formKey); }
      } else {
        updated := AddModel(models, newId, formName, formKey);
        if RegistryValid(models) { AddKeepsValid(models, newId, formName, formKey); }
      }
      models := updated;
      store.SaveModels(updated);
      ResetModelForm();
    }

    /** Deletes (confirmation already given) and persists; an edit of that entry is abandoned. */
    method DeleteModelById(id: string)
      modifies this, store
      ensures models == DeleteModel(old(models), id)
      ensures store.items == old(store.items)[ModelsKey := ModelsJson(ModelRecords(models))]
      ensures Persisted()
      ensures old(editingModelId) == Some(id) ==> editingModelId == None && formName == FormDefaultName && formKey == ""
      ensures old(editingModelId) != Some(id) ==>
        editingModelId == old(editingModelId) && formName == old(formName) && formKey == old(formKey)
      ensures RegistryValid(old(models)) ==> RegistryValid(models)
      ensures searchQuery == old(searchQuery)
    {
      var updated := DeleteModel(models, id);
      if RegistryValid(models) { DeleteKeepsValid(models, id); }
      models := updated;
      store.SaveModels(updated);
      if editingModelId == Some(id) {
        ResetModelForm();
      }
    }

    /** Makes `id` the default and persists. */
    method SetDefaultById(id: string)
      modifies this, store
      ensures models == SetDefault(old(models), id)
      ensures store.items == old(store.items)[ModelsKey := ModelsJson(ModelRecords(models))]
      ensures Persisted()
      ensures RegistryValid(old(models)) ==> RegistryValid(models)
      ensures editingModelId == old(editingModelId) && formName == old(formName) && formKey == old(formKey)
      ensures searchQuery == old(searchQuery)
    {
      var updated := SetDefault(models, id);
      if RegistryValid(models) { SetDefaultKeepsValid(models, id); }
      models := updated;
      store.SaveModels(updated);
    }

    /**
      Flips the enabled flag of `id`, given the status the caller shows for it.
      Refused, with no change and nothing persisted, when that entry is the
      default and reported enabled; `applied` tells which happened.
    */
    method ToggleEnabledById(id: string, currentStatus: bool) returns (applied: bool)
      modifies this, store
      ensures applied <==> ToggleEnabled(old(models), id, currentStatus).Applied?
      ensures !applied ==> models == old(models) && store.items == old(store.items)
      ensures applied ==> (models == SetEnabled(old(models), id, !currentStatus)
        && store.items == old(store.items)[ModelsKey := ModelsJson(ModelRecords(models))])
      ensures old(Persisted()) ==> Persisted()
      ensures RegistryValid(old(models)) ==> RegistryValid(models)
      ensures editingModelId == old(editingModelId) && formName == old(formName) && formKey == old(formKey)
      ensures searchQuery == old(searchQuery)
    {
      var outcome := ToggleEnabled(models, id, currentStatus);
      if RegistryValid(models) { ToggleKeepsValid(models, id, currentStatus); }
      match outcome
      case Rejected =>
        applied := false;
      case Applied(updated) =>
        applied := true;
        models := updated;
        store.SaveModels(updated);
    }
  }
}
