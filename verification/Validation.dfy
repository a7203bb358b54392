/** `validate_manifest`: which documents are manifests, and the normalised groups they stand for. */
module Validation {
  import opened Outcomes
  import opened JsonValues
  import opened Manifests

  datatype Entry = NotAnObject | Object(fields: Dict)

  datatype Group = NotAList | Entries(entries: seq<Entry>)

  /** A parsed document: whether version and kind are supported, and the groups of its spec, if that is an object. */
  datatype Document = Document(supported: bool, spec: Option<map<string, Group>>)

  datatype ManifestError =
    | Unsupported
    | SpecNotAnObject
    | UnknownResources
    | GroupNotAList(resource: Resource)
    | ItemNotAnObject(resource: Resource, index: nat)
    | BadState(resource: Resource, index: nat)
    | UnknownFields(resource: Resource, index: nat)
    | IdentityMissing(resource: Resource, index: nat)
    | DuplicateIdentity(resource: Resource, identity: string)

  const RESOURCES: seq<Resource> := [Permissions, Entities, Roles, Memberships]

  const NAMES: set<string> := {"permissions", "entities", "roles", "memberships"}

  /** The state is present unless the item says otherwise. */
  function WithState(item: Dict): Dict {
    if "state" in item then item else item["state" := Str("present")]
  }

  function GroupOf(spec: map<string, Group>, r: Resource): Group {
    if ResourceName(r) in spec then spec[ResourceName(r)] else Entries([])
  }

  function Normalized(entries: seq<Entry>): seq<Dict> {
    seq(|entries|, i requires 0 <= i < |entries| => if entries[i].Object? then WithState(entries[i].fields) else map[])
  }

  /** A group that validation accepts: objects only, each valid, no identity twice as written. */
  ghost predicate AcceptedGroup(r: Resource, g: Group) {
    && g.Entries?
    && (forall i | 0 <= i < |g.entries| :: g.entries[i].Object?)
    && ValidGroup(r, Normalized(g.entries))
  }

  ghost predicate AcceptedDocument(d: Document) {
    && d.supported && d.spec.Some? && d.spec.value.Keys <= NAMES
    && forall r: Resource :: AcceptedGroup(r, GroupOf(d.spec.value, r))
  }

  /** `item` is what was given, declared present where no state was given. */
  ghost predicate Completes(item: Dict, given: Dict) {
    && item.Keys == given.Keys + {"state"}
    && item["state"] == (if "state" in given then given["state"] else Str("present"))
    && forall f | f in given && f != "state" :: item[f] == given[f]
  }

  lemma WithStateCompletes(given: Dict)
    ensures Completes(WithState(given), given)
  {
  }

  /** The entries' items in the same order. */
  ghost predicate CompletesAll(items: seq<Dict>, entries: seq<Entry>) {
    && |items| == |entries|
    && forall i | 0 <= i < |entries| :: entries[i].Object? && Completes(items[i], entries[i].fields)
  }

  lemma NormalizedCompletes(r: Resource, g: Group)
    requires AcceptedGroup(r, g)
    ensures CompletesAll(Normalized(g.entries), g.entries)
  {
    hide WithState, ValidGroup, Completes;
    forall i | 0 <= i < |g.entries| ensures Completes(Normalized(g.entries)[i], g.entries[i].fields) {
      WithStateCompletes(g.entries[i].fields);
    }
  }

  /** The first thing wrong with one entry. */
  function EntryError(r: Resource, index: nat, e: Entry, seen: set<string>): Option<ManifestError> {
    if e.NotAnObject? then Some(ItemNotAnObject(r, index))
    else
      var item := WithState(e.fields);
      if Get(item, "state") !in {Str("present"), Str("absent")} then Some(BadState(r, index))
      else if !(item.Keys <= AllowedFields(r)) then Some(UnknownFields(r, index))
      else if exists f <- IdentityFields(r) :: !NonemptyText(Get(item, f)) then Some(IdentityMissing(r, index))
      else if NameOf(r, item) in seen then Some(DuplicateIdentity(r, NameOf(r, item)))
      else None
  }

  lemma EntryAccepted(r: Resource, index: nat, e: Entry, seen: set<string>)
    ensures EntryError(r, index, e, seen).None? <==>
      e.Object? && ValidItem(r, WithState(e.fields)) && NameOf(r, WithState(e.fields)) !in seen
  {
  }

  /** What is wrong with an entry is wrong with the group. */
  lemma EntryRejects(r: Resource, entries: seq<Entry>, i: nat, seen: set<string>)
    requires i < |entries| && EntryError(r, i, entries[i], seen).Some?
    requires seen == set j | 0 <= j < i && j < |entries| :: NameOf(r, Normalized(entries)[j])
    ensures !AcceptedGroup(r, Entries(entries))
  {
    EntryAccepted(r, i, entries[i], seen);
    var items := Normalized(entries);
    if entries[i].Object? && ValidItem(r, items[i]) {
      var j :| 0 <= j < i && j < |entries| && NameOf(r, items[j]) == NameOf(r, items[i]);
      assert !ValidGroup(r, items);
    }
  }

  /** The error tells what is wrong with the first entry that cannot be accepted after those before it. */
  ghost predicate Explains(r: Resource, g: Group, e: ManifestError) {
    match e
    case GroupNotAList(r') => r' == r && g.NotAList?
    case ItemNotAnObject(r', i) => r' == r && FirstBad(r, g, i) && g.entries[i].NotAnObject?
    case BadState(r', i) =>
      && r' == r && FirstBad(r, g, i) && g.entries[i].Object?
      && "state" in g.entries[i].fields && g.entries[i].fields["state"] !in {Str("present"), Str("absent")}
    case UnknownFields(r', i) =>
      && r' == r && FirstBad(r, g, i) && g.entries[i].Object?
      && exists f :: f in g.entries[i].fields && f !in AllowedFields(r)
    case IdentityMissing(r', i) =>
      && r' == r && FirstBad(r, g, i) && g.entries[i].Object?
      && exists f <- IdentityFields(r) :: !NonemptyText(Get(g.entries[i].fields, f))
    case DuplicateIdentity(r', identity) =>
      && r' == r && g.Entries?
      && exists i: nat, j: nat | i < j && FirstBad(r, g, j) && g.entries[i].Object? && g.entries[j].Object? ::
           NameOf(r, g.entries[i].fields) == identity && NameOf(r, g.entries[j].fields) == identity
    case _ => false
  }

  ghost predicate FirstBad(r: Resource, g: Group, i: nat) {
    && g.Entries? && i < |g.entries|
    && AcceptedGroup(r, Entries(g.entries[..i])) && !AcceptedGroup(r, Entries(g.entries[..i + 1]))
  }

  lemma SameName(r: Resource, given: Dict)
    ensures NameOf(r, WithState(given)) == NameOf(r, given)
    ensures forall f <- IdentityFields(r) :: Get(WithState(given), f) == Get(given, f)
    ensures "state" in AllowedFields(r)
  {
  }

  lemma PrefixRejected(r: Resource, entries: seq<Entry>, i: nat, seen: set<string>)
    requires i < |entries| && EntryError(r, i, entries[i], seen).Some?
    requires seen == set j | 0 <= j < i && j < |entries| :: NameOf(r, Normalized(entries)[j])
    ensures !AcceptedGroup(r, Entries(entries[..i + 1]))
  {
    hide EntryError, NameOf, WithState, AcceptedGroup;
    var prefix := entries[..i + 1];
    assert forall j | 0 <= j < i :: Normalized(prefix)[j] == Normalized(entries)[j];
    EntryRejects(r, prefix, i, seen);
  }

  lemma EntryExplains(r: Resource, entries: seq<Entry>, i: nat, seen: set<string>)
    requires i < |entries| && EntryError(r, i, entries[i], seen).Some?
    requires seen == set j | 0 <= j < i && j < |entries| :: NameOf(r, Normalized(entries)[j])
    requires AcceptedGroup(r, Entries(entries[..i]))
    ensures Explains(r, Entries(entries), EntryError(r, i, entries[i], seen).value)
  {
    hide AcceptedGroup, NameOf, AllowedFields, IdentityFields;
    PrefixRejected(r, entries, i, seen);
    assert FirstBad(r, Entries(entries), i);
    if entries[i].Object? {
      SameName(r, entries[i].fields);
      var e := EntryError(r, i, entries[i], seen).value;
      if e.DuplicateIdentity? {
        var j :| 0 <= j < i && NameOf(r, Normalized(entries)[j]) == e.identity;
        EarlierObject(r, entries, i, j);
        SameName(r, entries[j].fields);
      }
    }
  }

  lemma EarlierObject(r: Resource, entries: seq<Entry>, i: nat, j: nat)
    requires j < i <= |entries| && AcceptedGroup(r, Entries(entries[..i]))
    ensures entries[j].Object?
  {
    assert entries[..i][j] == entries[j];
  }

  lemma PrefixAccepted(r: Resource, entries: seq<Entry>, i: nat)
    requires i <= |entries|
    requires forall j | 0 <= j < i :: entries[j].Object? && ValidItem(r, Normalized(entries)[j])
    requires forall j, k | 0 <= j < k < i :: NameOf(r, Normalized(entries)[j]) != NameOf(r, Normalized(entries)[k])
    ensures AcceptedGroup(r, Entries(entries[..i]))
  {
    hide NameOf, ValidItem, WithState;
    assert Normalized(entries[..i]) == Normalized(entries)[..i];
  }

  method ValidateGroup(r: Resource, g: Group) returns (result: Result<seq<Dict>, ManifestError>)
    ensures result.Success? <==> AcceptedGroup(r, g)
    ensures result.Success? ==> result.value == Normalized(g.entries)
    ensures result.Success? ==> g.Entries? && CompletesAll(result.value, g.entries)
    ensures result.Failure? ==> Explains(r, g, result.error)
  {
    hide EntryError, AllowedFields, NameOf, ValidItem, WithState, Completes;
    if g.NotAList? {
      return Failure(GroupNotAList(r));
    }
    var parsed: seq<Dict> := [];
    var seen: set<string> := {};
    for i := 0 to |g.entries|
      invariant parsed == Normalized(g.entries)[..i]
      invariant forall j | 0 <= j < i :: g.entries[j].Object? && ValidItem(r, parsed[j])
      invariant forall j, k | 0 <= j < k < i :: NameOf(r, parsed[j]) != NameOf(r, parsed[k])
      invariant seen == set j | 0 <= j < i && j < |g.entries| :: NameOf(r, Normalized(g.entries)[j])
    {
      var error := EntryError(r, i, g.entries[i], seen);
      EntryAccepted(r, i, g.entries[i], seen);
      if error.Some? {
        EntryRejects(r, g.entries, i, seen);
        PrefixAccepted(r, g.entries, i);
        EntryExplains(r, g.entries, i, seen);
        return Failure(error.value);
      }
      var item := WithState(g.entries[i].fields);
      seen := seen + {NameOf(r, item)};
      parsed := parsed + [item];
    }
    NormalizedCompletes(r, g);
    return Success(parsed);
  }

  method ValidateManifest(d: Document) returns (result: Result<Manifest, ManifestError>)
    ensures result.Success? <==> AcceptedDocument(d)
    ensures result.Success? ==> ValidManifest(result.value)
    ensures result.Success? ==>
      forall r: Resource :: result.value.Items(r) == Normalized(GroupOf(d.spec.value, r).entries)
    ensures result.Success? ==> forall r: Resource ::
      if ResourceName(r) in d.spec.value then
        && d.spec.value[ResourceName(r)].Entries?
        && CompletesAll(result.value.Items(r), d.spec.value[ResourceName(r)].entries)
      else result.value.Items(r) == []
    ensures result == Failure(Unsupported) <==> !d.supported
    ensures result == Failure(SpecNotAnObject) <==> d.supported && d.spec.None?
    ensures result == Failure(UnknownResources) <==> d.supported && d.spec.Some? && !(d.spec.value.Keys <= NAMES)
    ensures result.Failure? && d.supported && d.spec.Some? && d.spec.value.Keys <= NAMES ==>
      exists r: Resource :: Explains(r, GroupOf(d.spec.value, r), result.error)
  {
    hide CompletesAll, FirstBad, ValidGroup;
    if !d.supported {
      return Failure(Unsupported);
    }
    if d.spec.None? {
      return Failure(SpecNotAnObject);
    }
    if !(d.spec.value.Keys <= NAMES) {
      return Failure(UnknownResources);
    }
    var groups: seq<seq<Dict>> := [];
    for i := 0 to |RESOURCES|
      invariant |groups| == i
      invariant forall j | 0 <= j < i :: AcceptedGroup(RESOURCES[j], GroupOf(d.spec.value, RESOURCES[j]))
      invariant forall j | 0 <= j < i :: groups[j] == Normalized(GroupOf(d.spec.value, RESOURCES[j]).entries)
    {
      var group := ValidateGroup(RESOURCES[i], GroupOf(d.spec.value, RESOURCES[i]));
      if group.Failure? {
        return Failure(group.error);
      }
      groups := groups + [group.value];
    }
    var m := Manifest(groups[0], groups[1], groups[2], groups[3]);
    forall r: Resource
      ensures AcceptedGroup(r, GroupOf(d.spec.value, r)) && m.Items(r) == Normalized(GroupOf(d.spec.value, r).entries)
      ensures CompletesAll(m.Items(r), GroupOf(d.spec.value, r).entries)
    {
      assert RESOURCES[0] == Permissions && RESOURCES[1] == Entities && RESOURCES[2] == Roles &&
        RESOURCES[3] == Memberships;
      NormalizedCompletes(r, GroupOf(d.spec.value, r));
      match r case Permissions => case Entities => case Roles => case Memberships =>
    }
    assert Normalized([]) == [];
    return Success(m);
  }
}
