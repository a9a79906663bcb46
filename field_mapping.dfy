/** The field-mapping preset engine of the field-mapping dialog: a working
    mapping from task fields to Azure DevOps reference names, an ordered list
    of named presets, the selected preset id (`""` for none), and the
    browser-local slot the presets are written to. */
module FieldMapping {
  import opened Results
  import opened Text

  /** One of the fixed task fields the dialog maps. */
  datatype MappingField = MappingField(id: string, name: string, description: string)

  /** The four task fields, in display order. */
  const TaskFields: seq<MappingField> := [
    MappingField("title", "Title", "Maps to the title/headline of the task"),
    MappingField("description", "Description", "Maps to the main description content of the task"),
    MappingField("acceptanceCriteria", "Acceptance Criteria", "Maps to the criteria that must be met for the task to be considered complete"),
    MappingField("additionalInfo", "Additional Information", "Maps to any additional information or context about the task")
  ]

  /** The ids of the task fields. */
  function TaskFieldIds(): set<string>
  {
    set f | f in TaskFields :: f.id
  }

  /** A mapping from task-field id to an Azure DevOps field reference name.
      Keys are plain strings: a mapping read back from storage may hold any keys. */
  type Mapping = map<string, string>

  /** A named, saved mapping. */
  datatype Preset = Preset(id: string, name: string, fields: Mapping)

  /** What the startup load finds under the presets key of the browser-local store:
      nothing (or the empty string), text that does not parse, parsed JSON that is
      not an array, or an array of presets. The handlers write `PresetList(ps)`
      for the list `ps` they serialise. */
  datatype PresetPayload = NoEntry | Unparsable | NotAList | PresetList(presets: seq<Preset>)

  /** The working mapping the dialog starts with: every task field unmapped. */
  function InitialMappings(): Mapping
  {
    map["title" := "", "description" := "", "acceptanceCriteria" := "", "additionalInfo" := ""]
  }

  /** The built-in preset the preset list starts with. */
  function DefaultPreset(): Preset
  {
    Preset("default", "Default Mapping", map[
      "title" := "System.Title",
      "description" := "System.Description",
      "acceptanceCriteria" := "Microsoft.VSTS.Common.AcceptanceCriteria",
      "additionalInfo" := "System.AdditionalInfo"])
  }

  /** The id a preset saved at time `now` (milliseconds) receives. */
  function NewPresetId(now: nat): (r: string)
    ensures |r| > 7 && r[..7] == "preset-"
    ensures forall i :: 7 <= i < |r| ==> IsDigit(r[i])
  {
    "preset-" + Decimal(now)
  }

  /** Saves at different times give different ids. */
  lemma NewPresetIdInjective(t1: nat, t2: nat)
    ensures NewPresetId(t1) == NewPresetId(t2) ==> t1 == t2
  {
    if NewPresetId(t1) == NewPresetId(t2) {
      assert NewPresetId(t1)[7..] == Decimal(t1);
      assert NewPresetId(t2)[7..] == Decimal(t2);
      DecimalInjective(t1, t2);
    }
  }

  /** The number of presets in `ps` whose id is `id`. */
  function CountId(ps: seq<Preset>, id: string): nat
  {
    if ps == [] then 0 else (if ps[0].id == id then 1 else 0) + CountId(ps[1..], id)
  }

  /** `presets.find(p => p.id === id)`: the first preset with that id, if any. */
  function FindPreset(ps: seq<Preset>, id: string): (r: Option<Preset>)
    ensures r.None? <==> forall i :: 0 <= i < |ps| ==> ps[i].id != id
    ensures r.Some? ==> r.value.id == id
    ensures r.Some? ==>
      exists i :: 0 <= i < |ps| && ps[i] == r.value && forall j :: 0 <= j < i ==> ps[j].id != id
  {
    if ps == [] then None
    else if ps[0].id == id then Some(ps[0])
    else
      var r := FindPreset(ps[1..], id);
      assert forall i :: 1 <= i < |ps| ==> ps[i] == ps[1..][i - 1];
      r
  }

  /** A preset appended with an id no earlier preset has is the one found for that id. */
  lemma FindAppendedFresh(ps: seq<Preset>, p: Preset)
    requires forall i :: 0 <= i < |ps| ==> ps[i].id != p.id
    ensures FindPreset(ps + [p], p.id) == Some(p)
  {
    var r := FindPreset(ps + [p], p.id);
    assert (ps + [p])[|ps|].id == p.id;
    var i :| 0 <= i < |ps + [p]| && (ps + [p])[i] == r.value && forall j :: 0 <= j < i ==> (ps + [p])[j].id != p.id;
  }

  /** `presets.map(p => p.id === id ? {...p, fields} : p)`: every preset with
      that id gets `fields`; ids, names, order and length are kept. */
  function OverwritePreset(ps: seq<Preset>, id: string, fields: Mapping): (r: seq<Preset>)
    ensures |r| == |ps|
    ensures forall i :: 0 <= i < |ps| ==>
      r[i].id == ps[i].id && r[i].name == ps[i].name &&
      r[i].fields == (if ps[i].id == id then fields else ps[i].fields)
  {
    seq(|ps|, i requires 0 <= i < |ps| => if ps[i].id == id then ps[i].(fields := fields) else ps[i])
  }

  /** After an overwrite, looking the id up finds the new fields, and
      it finds a preset exactly when one was there before. */
  lemma OverwriteThenFind(ps: seq<Preset>, id: string, fields: Mapping)
    ensures FindPreset(OverwritePreset(ps, id, fields), id).Some? <==> FindPreset(ps, id).Some?
    ensures FindPreset(OverwritePreset(ps, id, fields), id).Some? ==>
      FindPreset(OverwritePreset(ps, id, fields), id).value.fields == fields
  {
  }

  /** `presets.filter(p => p.id !== id)`: the presets without that id. */
  function RemovePreset(ps: seq<Preset>, id: string): (r: seq<Preset>)
    ensures forall p :: p in r <==> p in ps && p.id != id
    ensures |r| == |ps| - CountId(ps, id)
  {
    if ps == [] then []
    else
      var rest := RemovePreset(ps[1..], id);
      assert forall p :: p in ps <==> p == ps[0] || p in ps[1..];
      if ps[0].id == id then rest else [ps[0]] + rest
  }

  /** Removal keeps the surviving presets in their order: it works piecewise. */
  lemma {:induction false} RemovePresetConcat(a: seq<Preset>, b: seq<Preset>, id: string)
    ensures RemovePreset(a + b, id) == RemovePreset(a, id) + RemovePreset(b, id)
  {
    if a == [] {
      assert a + b == b;
    } else {
      assert (a + b)[0] == a[0];
      assert (a + b)[1..] == a[1..] + b;
      RemovePresetConcat(a[1..], b, id);
      if a[0].id != id {
        assert [a[0]] + (RemovePreset(a[1..], id) + RemovePreset(b, id))
          == ([a[0]] + RemovePreset(a[1..], id)) + RemovePreset(b, id);
      }
    }
  }

  /** Removing an id no preset has changes nothing. */
  lemma {:induction false} RemovePresetAbsent(ps: seq<Preset>, id: string)
    requires forall i :: 0 <= i < |ps| ==> ps[i].id != id
    ensures RemovePreset(ps, id) == ps
  {
    if ps != [] {
      RemovePresetAbsent(ps[1..], id);
    }
  }

  /** The preset list after mounting: the built-in preset, followed by the stored
      list when it is a non-empty array. Stored ids are not de-duplicated. */
  function StartupPresets(stored: PresetPayload): (r: seq<Preset>)
    ensures |r| >= 1 && r[0] == DefaultPreset()
    ensures |r| > 1 ==> stored.PresetList? && r[1..] == stored.presets
  {
    if stored.PresetList? && |stored.presets| > 0 then [DefaultPreset()] + stored.presets
    else [DefaultPreset()]
  }

  /** A missing entry, unparsable text, a non-array or an empty array leaves
      only the built-in preset; a non-empty stored list follows it unchanged. */
  lemma StartupShape(stored: PresetPayload)
    ensures StartupPresets(stored)[0] == DefaultPreset()
    ensures !stored.PresetList? || stored.presets == [] <==> StartupPresets(stored) == [DefaultPreset()]
    ensures stored.PresetList? ==> StartupPresets(stored)[1..] == stored.presets
  {
  }

  /** Each mount adds one more preset with id "default" to what was stored:
      a stored built-in preset is kept beside the in-memory one. */
  lemma StartupDuplicatesDefault(ps: seq<Preset>)
    requires ps != []
    ensures CountId(StartupPresets(PresetList(ps)), "default") == CountId(ps, "default") + 1
  {
  }

  /** The state of the field-mapping dialog and the storage slot it writes. */
  class FieldMappingDialog {
    var mappings: Mapping
    var presets: seq<Preset>
    var selectedPreset: string
    var store: PresetPayload

    /** Mounting: the initial state, then the effect that appends the stored presets. */
    constructor (stored: PresetPayload)
      ensures mappings == InitialMappings() && mappings.Keys == TaskFieldIds()
      ensures forall f :: f in mappings ==> mappings[f] == ""
      ensures selectedPreset == ""
      ensures presets == StartupPresets(stored)
      ensures store == stored
    {
      mappings := InitialMappings();
      presets := [DefaultPreset()];
      selectedPreset := "";
      store := stored;
      new;
      assert TaskFields[0].id == "title" && TaskFields[1].id == "description";
      assert TaskFields[2].id == "acceptanceCriteria" && TaskFields[3].id == "additionalInfo";
      LoadSavedPresets();
    }

    /** The startup effect: append a non-empty stored array to the presets;
        anything else (nothing, a parse failure, a non-array, `[]`) is ignored. */
    method LoadSavedPresets()
      modifies this`presets
      ensures store.PresetList? && |store.presets| > 0 ==> presets == old(presets) + store.presets
      ensures !(store.PresetList? && |store.presets| > 0) ==> presets == old(presets)
    {
      match store
      case PresetList(saved) =>
        if |saved| > 0 {
          presets := presets + saved;
        }
      case _ =>
    }

    /** Picking a preset in the preset selector. */
    method SetSelectedPreset(id: string)
      modifies this`selectedPreset
      ensures selectedPreset == id
    {
      selectedPreset := id;
    }

    /** Choosing `azureField` for `taskField`: that entry changes, no other. */
    method HandleMappingChange(taskField: string, azureField: string)
      modifies this`mappings
      ensures taskField in mappings && mappings[taskField] == azureField
      ensures mappings.Keys == old(mappings).Keys + {taskField}
      ensures forall k :: k in old(mappings) && k != taskField ==> mappings[k] == old(mappings)[k]
    {
      mappings := mappings[taskField := azureField];
    }

    /** "Save Mapping": with a preset selected, every preset with that id takes
        the working mapping and the whole list is written; otherwise nothing changes. */
    method HandleSaveMapping()
      modifies this`presets, this`store
      ensures selectedPreset == "" ==> presets == old(presets) && store == old(store)
      ensures selectedPreset != "" ==>
        presets == OverwritePreset(old(presets), selectedPreset, mappings) && store == PresetList(presets)
    {
      if selectedPreset != "" {
        var updatedPresets := OverwritePreset(presets, selectedPreset, mappings);
        presets := updatedPresets;
        store := PresetList(updatedPresets);
      }
    }

    /** "Load": the working mapping becomes the fields of the first preset with
        the selected id; with no such preset nothing changes. */
    method HandleLoadPreset()
      modifies this`mappings
      ensures FindPreset(presets, selectedPreset).Some? ==>
        mappings == FindPreset(presets, selectedPreset).value.fields
      ensures FindPreset(presets, selectedPreset).None? ==> mappings == old(mappings)
    {
      var preset := FindPreset(presets, selectedPreset);
      if preset.Some? {
        mappings := preset.value.fields;
      }
    }

    /** "Save As...": the prompt's answer `name` (`None` when cancelled) and the
        clock reading `now`. A missing or empty name changes nothing; otherwise
        one preset holding the working mapping is appended, selected and written. */
    method HandleSaveAsPreset(now: nat, name: Option<string>)
      modifies this`presets, this`selectedPreset, this`store
      ensures name.None? || name.value == "" ==>
        presets == old(presets) && selectedPreset == old(selectedPreset) && store == old(store)
      ensures name.Some? && name.value != "" ==>
        && presets == old(presets) + [Preset(NewPresetId(now), name.value, mappings)]
        && selectedPreset == NewPresetId(now)
        && store == PresetList(presets)
    {
      var newId := NewPresetId(now);
      if name.Some? && name.value != "" {
        var newPreset := Preset(newId, name.value, mappings);
        var updatedPresets := presets + [newPreset];
        presets := updatedPresets;
        selectedPreset := newId;
        store := PresetList(updatedPresets);
      }
    }

    /** "Delete": with a preset selected, every preset with that id goes, the
        selection is cleared and the rest is written; otherwise nothing changes. */
    method HandleDeletePreset()
      modifies this`presets, this`selectedPreset, this`store
      ensures old(selectedPreset) == "" ==>
        presets == old(presets) && selectedPreset == "" && store == old(store)
      ensures old(selectedPreset) != "" ==>
        && presets == RemovePreset(old(presets), old(selectedPreset))
        && FindPreset(presets, old(selectedPreset)).None?
        && selectedPreset == ""
        && store == PresetList(presets)
    {
      if selectedPreset != "" {
        var updatedPresets := RemovePreset(presets, selectedPreset);
        presets := updatedPresets;
        selectedPreset := "";
        store := PresetList(updatedPresets);
      }
    }
  }

  /** Saving the working mapping under a fresh id, editing one entry, and
      loading the new preset back restores the mapping as it was when saved. */
  method SaveAsThenLoad(d: FieldMappingDialog, now: nat, name: string, f: string, v: string)
    requires name != ""
    requires forall i :: 0 <= i < |d.presets| ==> d.presets[i].id != NewPresetId(now)
    modifies d
    ensures d.selectedPreset == NewPresetId(now)
    ensures d.mappings == old(d.mappings)
    ensures d.presets == old(d.presets) + [Preset(NewPresetId(now), name, old(d.mappings))]
  {
    d.HandleSaveAsPreset(now, Some(name));
    d.HandleMappingChange(f, v);
    FindAppendedFresh(old(d.presets), Preset(NewPresetId(now), name, old(d.mappings)));
    d.HandleLoadPreset();
  }

  /** Deleting the only preset empties the list, and a later "Save Mapping" writes nothing. */
  method DeleteOnlyPreset(d: FieldMappingDialog)
    requires |d.presets| == 1 && d.selectedPreset == d.presets[0].id != ""
    modifies d
    ensures d.presets == [] && d.selectedPreset == "" && d.store == PresetList([])
    ensures d.mappings == old(d.mappings)
  {
    d.HandleDeletePreset();
    assert d.presets == [] by {
      assert forall p :: p !in d.presets;
    }
    d.HandleSaveMapping();
  }
}
