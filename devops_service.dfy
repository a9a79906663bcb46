/** The Azure DevOps service: a configuration cached over the browser-local
    store, the "configuration not set" guard on every request, and the pure
    shaping of what is sent (the WIQL text, the id list, the JSON Patch
    document) and of what is kept (the storage record of a work item). */
module DevOpsService {
  import opened Results
  import opened Text

  datatype AzureDevOpsConfig = AzureDevOpsConfig(organizationName: string, personalAccessToken: string)

  /** What the service methods throw. */
  datatype ServiceError =
    | ConfigurationNotSet  // "Azure DevOps configuration not set"
    | StoredConfigUnparsable  // JSON.parse of the stored configuration threw

  /** What the browser-local store holds under the configuration key: nothing
      (or the empty string), a configuration written by `SetConfig`, or text
      that does not parse. */
  datatype ConfigEntry = Absent | Saved(config: AzureDevOpsConfig) | Garbled

  datatype Identity = Identity(displayName: string)

  /** A work item as the API returns it; `tags` is the optional "System.Tags"
      entry of the open-ended field bag, whose other entries are not modelled. */
  datatype WorkItem = WorkItem(
    id: int,
    rev: int,
    title: string,
    state: string,
    createdBy: Option<Identity>,
    assignedTo: Option<Identity>,
    description: Option<string>,
    workItemType: string,
    createdDate: string,
    changedDate: string,
    tags: Option<string>)

  /** The record `formatWorkItemForStorage` builds; `None` stands for
      `undefined` in `createdBy` and for `null` in `assignedTo`. */
  datatype StorageRecord = StorageRecord(
    id: int,
    title: string,
    description: string,
    state: string,
    workItemType: string,
    createdDate: string,
    changedDate: string,
    createdBy: Option<string>,
    assignedTo: Option<string>)

  /** `formatWorkItemForStorage`: the scalar fields copied, a missing or empty
      description as `""`, the creator's display name when there is a creator,
      and the assignee's display name, or `null` when there is none or it is empty. */
  function FormatWorkItemForStorage(w: WorkItem): (r: StorageRecord)
    ensures r.id == w.id && r.title == w.title && r.state == w.state
    ensures r.workItemType == w.workItemType
    ensures r.createdDate == w.createdDate && r.changedDate == w.changedDate
    ensures w.description.None? ==> r.description == ""
    ensures w.description.Some? ==> r.description == w.description.value
    ensures r.createdBy.Some? <==> w.createdBy.Some?
    ensures r.createdBy.Some? ==> r.createdBy.value == w.createdBy.value.displayName
    ensures r.assignedTo.Some? <==> w.assignedTo.Some? && w.assignedTo.value.displayName != ""
    ensures r.assignedTo.Some? ==> r.assignedTo.value == w.assignedTo.value.displayName
  {
    StorageRecord(
      w.id,
      w.title,
      match w.description case Some(d) => d case None => "",
      w.state,
      w.workItemType,
      w.createdDate,
      w.changedDate,
      match w.createdBy case Some(c) => Some(c.displayName) case None => None,
      match w.assignedTo
      case Some(a) => if a.displayName != "" then Some(a.displayName) else None
      case None => None)
  }

  /** The stored record depends on nothing but the fields it copies: revision,
      tags and the rest of the field bag are dropped. */
  lemma StorageIgnoresUncopied(w: WorkItem, rev: int, tags: Option<string>)
    ensures FormatWorkItemForStorage(w.(rev := rev, tags := tags)) == FormatWorkItemForStorage(w)
  {
  }

  /** The query `getWorkItems` runs when it is given none. */
  const DefaultQuery: string :=
    "Select [System.Id] From WorkItems Where [System.TeamProject] = @project Order By [System.ChangedDate] Desc"

  /** `query || DefaultQuery`: the WIQL text sent. */
  function WiqlQuery(query: string): (r: string)
    ensures query != "" ==> r == query
    ensures query == "" ==> r == DefaultQuery
    ensures r != ""
  {
    if query != "" then query else DefaultQuery
  }

  /** The decimal rendering of each id. */
  function DecimalIds(ids: seq<nat>): (r: seq<string>)
    ensures |r| == |ids| && forall i :: 0 <= i < |ids| ==> r[i] == Decimal(ids[i])
  {
    seq(|ids|, i requires 0 <= i < |ids| => Decimal(ids[i]))
  }

  /** `workItemIds.join(",")`. */
  function JoinIds(ids: seq<nat>): (r: string)
    ensures ids == [] <==> r == ""
    ensures ids != [] ==> Decimal(ids[0]) <= r
  {
    Join(DecimalIds(ids), ',')
  }

  /** The joined id list is unambiguous: splitting it at the commas and reading
      each piece gives the ids back, in result order. */
  lemma JoinIdsRoundTrip(ids: seq<nat>)
    requires ids != []
    ensures Split(JoinIds(ids), ',') == DecimalIds(ids)
    ensures forall i :: 0 <= i < |ids| ==> ParseDecimal(DecimalIds(ids)[i]) == ids[i]
  {
    var parts := DecimalIds(ids);
    forall i | 0 <= i < |parts|
      ensures ',' !in parts[i]
    {
      assert forall k :: 0 <= k < |parts[i]| ==> IsDigit(parts[i][k]);
    }
    SplitJoin(parts, ',');
    forall i | 0 <= i < |ids|
      ensures ParseDecimal(parts[i]) == ids[i]
    {
      DecimalRoundTrip(ids[i]);
    }
  }

  /** What `getWorkItems` does after a successful WIQL request: it sends
      `wiql`, then either returns `[]` at once (`details == None`) or asks for
      the details of the ids in `details`. */
  datatype WorkItemsPlan = WorkItemsPlan(wiql: string, details: Option<string>)

  /** The fields an update can set, in the order the patch document lists them. */
  datatype UpdateField = TitleField | DescriptionField | StateField | AssignedToField

  const FieldOrder: seq<UpdateField> := [TitleField, DescriptionField, StateField, AssignedToField]

  /** An update of a work item; every field is optional. */
  datatype WorkItemUpdate = WorkItemUpdate(
    title: Option<string>,
    description: Option<string>,
    state: Option<string>,
    assignedTo: Option<string>)

  /** One operation of a JSON Patch document (RFC 6902); only "add" (section 4.1) is built. */
  datatype PatchOp = PatchOp(op: string, path: string, value: string)

  function FieldValue(u: WorkItemUpdate, f: UpdateField): Option<string>
  {
    match f
    case TitleField => u.title
    case DescriptionField => u.description
    case StateField => u.state
    case AssignedToField => u.assignedTo
  }

  /** The JSON Pointer (RFC 6901) an operation on `f` targets. */
  function FieldPath(f: UpdateField): string
  {
    match f
    case TitleField => "/fields/System.Title"
    case DescriptionField => "/fields/System.Description"
    case StateField => "/fields/System.State"
    case AssignedToField => "/fields/System.AssignedTo"
  }

  /** JavaScript truthiness of an optional string: present and not empty. */
  predicate Supplied(v: Option<string>)
  {
    v.Some? && v.value != ""
  }

  function AddOp(f: UpdateField, v: string): PatchOp
  {
    PatchOp("add", FieldPath(f), v)
  }

  /** The "add" for `f` when `u` supplies it, else nothing. */
  function MaybeOp(u: WorkItemUpdate, f: UpdateField): seq<PatchOp>
  {
    if Supplied(FieldValue(u, f)) then [AddOp(f, FieldValue(u, f).value)] else []
  }

  /** One "add" per supplied field of `fs`, in the order of `fs`. */
  function OpsFor(u: WorkItemUpdate, fs: seq<UpdateField>): seq<PatchOp>
  {
    if fs == [] then [] else MaybeOp(u, fs[0]) + OpsFor(u, fs[1..])
  }

  /** The patch document of an update: one "add" per supplied field, in field order. */
  function PatchDocument(u: WorkItemUpdate): (r: seq<PatchOp>)
    ensures |r| <= 4
    ensures forall i :: 0 <= i < |r| ==> r[i].op == "add"
  {
    OpsForFields(u, FieldOrder);
    OpsFor(u, FieldOrder)
  }

  /** The patch document written out field by field. */
  lemma PatchDocumentUnfolded(u: WorkItemUpdate)
    ensures PatchDocument(u) ==
      MaybeOp(u, TitleField) + MaybeOp(u, DescriptionField) + MaybeOp(u, StateField) + MaybeOp(u, AssignedToField)
  {
  }

  /** Every operation of `OpsFor(u, fs)` is an "add" of a supplied field of `fs`
      with that field's value, and each supplied field of `fs` has one. */
  lemma {:induction false} OpsForFields(u: WorkItemUpdate, fs: seq<UpdateField>)
    ensures |OpsFor(u, fs)| <= |fs|
    ensures forall i :: 0 <= i < |OpsFor(u, fs)| ==>
      exists f :: f in fs && Supplied(FieldValue(u, f)) && OpsFor(u, fs)[i] == AddOp(f, FieldValue(u, f).value)
    ensures forall f :: f in fs && Supplied(FieldValue(u, f)) ==> AddOp(f, FieldValue(u, f).value) in OpsFor(u, fs)
  {
    if fs != [] {
      OpsForFields(u, fs[1..]);
      assert forall f :: f in fs ==> f == fs[0] || f in fs[1..];
      var head, rest := MaybeOp(u, fs[0]), OpsFor(u, fs[1..]);
      assert OpsFor(u, fs) == head + rest;
      forall i | 0 <= i < |OpsFor(u, fs)|
        ensures exists f :: f in fs && Supplied(FieldValue(u, f)) && OpsFor(u, fs)[i] == AddOp(f, FieldValue(u, f).value)
      {
        if i < |head| {
          assert OpsFor(u, fs)[i] == AddOp(fs[0], FieldValue(u, fs[0]).value);
        } else {
          var f :| f in fs[1..] && Supplied(FieldValue(u, f)) && rest[i - |head|] == AddOp(f, FieldValue(u, f).value);
          assert f in fs && OpsFor(u, fs)[i] == rest[i - |head|];
        }
      }
    }
  }

  /** The position of a field in the document order. */
  function Rank(f: UpdateField): nat
  {
    match f
    case TitleField => 0
    case DescriptionField => 1
    case StateField => 2
    case AssignedToField => 3
  }

  /** The position of the field an operation path targets (4 for any other path). */
  function PathRank(path: string): nat
  {
    if path == FieldPath(TitleField) then 0
    else if path == FieldPath(DescriptionField) then 1
    else if path == FieldPath(StateField) then 2
    else if path == FieldPath(AssignedToField) then 3
    else 4
  }

  lemma PathRankOfField(f: UpdateField)
    ensures PathRank(FieldPath(f)) == Rank(f)
  {
  }

  /** Listing fields in increasing rank gives operations in increasing rank,
      each no lower than the first field's. */
  lemma {:induction false} OpsForOrdered(u: WorkItemUpdate, fs: seq<UpdateField>)
    requires forall i, j :: 0 <= i < j < |fs| ==> Rank(fs[i]) < Rank(fs[j])
    ensures forall i :: 0 <= i < |OpsFor(u, fs)| ==> PathRank(OpsFor(u, fs)[i].path) >= Rank(fs[0])
    ensures forall i, j :: 0 <= i < j < |OpsFor(u, fs)| ==>
      PathRank(OpsFor(u, fs)[i].path) < PathRank(OpsFor(u, fs)[j].path)
  {
    if fs != [] {
      var head := MaybeOp(u, fs[0]);
      var rest := OpsFor(u, fs[1..]);
      var ops := OpsFor(u, fs);
      assert ops == head + rest;
      OpsForOrdered(u, fs[1..]);
      PathRankOfField(fs[0]);
      assert forall i :: 0 <= i < |head| ==> PathRank(head[i].path) == Rank(fs[0]);
      if |fs| > 1 {
        assert forall i :: 0 <= i < |rest| ==> PathRank(rest[i].path) > Rank(fs[0]);
      } else {
        assert rest == [];
      }
      assert forall i :: 0 <= i < |ops| ==> ops[i] == if i < |head| then head[i] else rest[i - |head|];
    }
  }

  /** Every field occurs in the document order. */
  lemma AllFieldsOrdered(f: UpdateField)
    ensures f in FieldOrder
  {
  }

  /** The patch document of `updateWorkItem` holds at most four operations, all "add". */
  lemma PatchDocumentShape(u: WorkItemUpdate)
    ensures |PatchDocument(u)| <= 4
    ensures forall i :: 0 <= i < |PatchDocument(u)| ==> PatchDocument(u)[i].op == "add"
  {
    OpsForFields(u, FieldOrder);
  }

  /** Every supplied field gets its "add" with the supplied value. */
  lemma PatchDocumentSupplied(u: WorkItemUpdate, f: UpdateField)
    requires Supplied(FieldValue(u, f))
    ensures AddOp(f, FieldValue(u, f).value) in PatchDocument(u)
  {
    OpsForFields(u, FieldOrder);
    AllFieldsOrdered(f);
  }

  /** An operation on a field's path means the field was supplied, and it
      carries the supplied value; so an absent or empty field is not sent. */
  lemma PatchDocumentPath(u: WorkItemUpdate, f: UpdateField, i: nat)
    requires i < |PatchDocument(u)| && PatchDocument(u)[i].path == FieldPath(f)
    ensures Supplied(FieldValue(u, f)) && PatchDocument(u)[i].value == FieldValue(u, f).value
  {
    OpsForFields(u, FieldOrder);
    var d := PatchDocument(u);
    var g :| g in FieldOrder && Supplied(FieldValue(u, g)) && d[i] == AddOp(g, FieldValue(u, g).value);
    PathRankOfField(f);
    PathRankOfField(g);
    assert Rank(f) == Rank(g);
  }

  /** Operations come in the order title, description, state, assignedTo. */
  lemma PatchDocumentOrdered(u: WorkItemUpdate)
    ensures forall i, j :: 0 <= i < j < |PatchDocument(u)| ==>
      PathRank(PatchDocument(u)[i].path) < PathRank(PatchDocument(u)[j].path)
  {
    OpsForOrdered(u, FieldOrder);
  }

  /** An empty description is dropped rather than sent. */
  lemma EmptyDescriptionDropped(u: WorkItemUpdate)
    requires u.description == Some("")
    ensures forall i :: 0 <= i < |PatchDocument(u)| ==> PatchDocument(u)[i].path != FieldPath(DescriptionField)
  {
    forall i | 0 <= i < |PatchDocument(u)|
      ensures PatchDocument(u)[i].path != FieldPath(DescriptionField)
    {
      if PatchDocument(u)[i].path == FieldPath(DescriptionField) {
        PatchDocumentPath(u, DescriptionField, i);
        assert false;
      }
    }
  }

  /** An update without a non-empty field sends no operation. */
  lemma EmptyUpdateNoOps(u: WorkItemUpdate)
    requires forall f :: !Supplied(FieldValue(u, f))
    ensures PatchDocument(u) == []
  {
    PatchDocumentUnfolded(u);
    assert forall f :: MaybeOp(u, f) == [];
  }

  /** The service object; `store` is the configuration slot of the browser-local store. */
  class AzureDevOpsService {
    var config: Option<AzureDevOpsConfig>
    var store: ConfigEntry

    /** The module-level instance is created with no configuration in memory,
        whatever the store holds. */
    constructor (stored: ConfigEntry)
      ensures config == None && store == stored
    {
      config := None;
      store := stored;
    }

    /** `setConfig`: cache the configuration and write it to the store. */
    method SetConfig(c: AzureDevOpsConfig)
      modifies this
      ensures config == Some(c) && store == Saved(c)
    {
      config := Some(c);
      store := Saved(c);
    }

    /** `getConfig`: the cached configuration; with none cached, the stored one,
        which is then cached; with nothing stored, `null`. Unparsable stored
        text makes it throw and leaves the cache empty. */
    method GetConfig() returns (r: Result<Option<AzureDevOpsConfig>, ServiceError>)
      modifies this`config
      ensures old(config).Some? ==> config == old(config) && r == Success(config)
      ensures old(config).None? && store.Saved? ==> config == Some(store.config) && r == Success(config)
      ensures old(config).None? && store.Absent? ==> config == None && r == Success(None)
      ensures old(config).None? && store.Garbled? ==> config == None && r == Failure(StoredConfigUnparsable)
    {
      if config.Some? {
        return Success(config);
      }
      match store
      case Saved(c) =>
        config := Some(c);
        r := Success(config);
      case Absent =>
        r := Success(None);
      case Garbled =>
        r := Failure(StoredConfigUnparsable);
    }

    /** `clearConfig`: empty the cache and remove the stored entry. */
    method ClearConfig()
      modifies this
      ensures config == None && store == Absent
    {
      config := None;
      store := Absent;
    }

    /** The guard at the head of every request method: it fails exactly when no
        configuration is cached, and never looks at the store. */
    function RequireConfig(): (r: Result<AzureDevOpsConfig, ServiceError>)
      reads this
      ensures r.Failure? <==> config.None?
      ensures r.Failure? ==> r.error == ConfigurationNotSet
      ensures r.Success? ==> config == Some(r.value)
    {
      match config
      case None => Failure(ConfigurationNotSet)
      case Some(c) => Success(c)
    }

    /** `getAuthHeaders`: the Authorization value is "Basic " followed by the
        encoding (`encode`, standing for `btoa`) of ":" and the access token. */
    function GetAuthHeaders(encode: string -> string): (r: Result<string, ServiceError>)
      reads this
      ensures r.Failure? <==> config.None?
      ensures r.Failure? ==> r.error == ConfigurationNotSet
      ensures r.Success? ==>
        |r.value| >= 6 && r.value[..6] == "Basic " &&
        r.value[6..] == encode(":" + config.value.personalAccessToken)
    {
      match RequireConfig()
      case Failure(e) => Failure(e)
      case Success(c) => Success("Basic " + encode(":" + c.personalAccessToken))
    }

    /** `getWorkItems`, given the ids the WIQL request answers with: the
        query sent is `query` or, when empty, the default query; no ids means
        no second request; otherwise the ids go comma-joined in result order. */
    method GetWorkItems(projectName: string, query: string, wiqlIds: seq<nat>)
      returns (r: Result<WorkItemsPlan, ServiceError>)
      ensures r.Failure? <==> config.None?
      ensures r.Failure? ==> r.error == ConfigurationNotSet
      ensures r.Success? ==> r.value.wiql == WiqlQuery(query)
      ensures r.Success? ==> (r.value.details.None? <==> wiqlIds == [])
      ensures r.Success? && wiqlIds != [] ==> r.value.details == Some(JoinIds(wiqlIds))
    {
      if config.None? {
        return Failure(ConfigurationNotSet);
      }
      var wiql := WiqlQuery(query);
      if |wiqlIds| == 0 {
        return Success(WorkItemsPlan(wiql, None));
      }
      r := Success(WorkItemsPlan(wiql, Some(JoinIds(wiqlIds))));
    }

    /** The operation list `updateWorkItem` sends, built one push at a time. */
    method UpdateWorkItem(projectName: string, workItemId: int, updates: WorkItemUpdate)
      returns (r: Result<seq<PatchOp>, ServiceError>)
      ensures r.Failure? <==> config.None?
      ensures r.Failure? ==> r.error == ConfigurationNotSet
      ensures r.Success? ==> r.value == PatchDocument(updates)
    {
      if config.None? {
        return Failure(ConfigurationNotSet);
      }
      var operations: seq<PatchOp> := [];
      if Supplied(updates.title) {
        operations := operations + [AddOp(TitleField, updates.title.value)];
      }
      if Supplied(updates.description) {
        operations := operations + [AddOp(DescriptionField, updates.description.value)];
      }
      if Supplied(updates.state) {
        operations := operations + [AddOp(StateField, updates.state.value)];
      }
      if Supplied(updates.assignedTo) {
        operations := operations + [AddOp(AssignedToField, updates.assignedTo.value)];
      }
      PatchDocumentUnfolded(updates);
      r := Success(operations);
    }
  }

  /** Set, read, clear, read: the cache and the store agree at every step. */
  method ConfigLifecycle(s: AzureDevOpsService, c: AzureDevOpsConfig)
    returns (afterSet: Result<Option<AzureDevOpsConfig>, ServiceError>,
             afterClear: Result<Option<AzureDevOpsConfig>, ServiceError>)
    modifies s
    ensures afterSet == Success(Some(c))
    ensures afterClear == Success(None)
    ensures s.config == None && s.store == Absent
    ensures s.RequireConfig() == Failure(ConfigurationNotSet)
  {
    s.SetConfig(c);
    afterSet := s.GetConfig();
    s.ClearConfig();
    afterClear := s.GetConfig();
  }

  /** After a reload the guard fails until `GetConfig` moves the stored
      configuration into the cache. */
  method ReloadThenConnect(c: AzureDevOpsConfig)
    returns (s: AzureDevOpsService,
             guardBefore: Result<AzureDevOpsConfig, ServiceError>,
             got: Result<Option<AzureDevOpsConfig>, ServiceError>)
    ensures fresh(s) && s.store == Saved(c)
    ensures guardBefore == Failure(ConfigurationNotSet)
    ensures got == Success(Some(c))
    ensures s.config == Some(c) && s.RequireConfig() == Success(c)
  {
    s := new AzureDevOpsService(Saved(c));
    guardBefore := s.RequireConfig();
    got := s.GetConfig();
  }
}
