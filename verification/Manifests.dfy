/** The declared state: resource groups, the identity of an item, and what validation lets through. */
module Manifests {
  import opened Outcomes
  import opened Text
  import opened JsonValues
  import opened Indexing

  datatype Resource = Permissions | Entities | Roles | Memberships

  function ResourceName(r: Resource): string {
    match r
    case Permissions => "permissions"
    case Entities => "entities"
    case Roles => "roles"
    case Memberships => "memberships"
  }

  lemma ResourceNamesDiffer(r: Resource, s: Resource)
    requires ResourceName(r) == ResourceName(s)
    ensures r == s
  {
    assert ResourceName(Permissions)[0] != ResourceName(Memberships)[0];
    assert |ResourceName(Entities)| == 8 && |ResourceName(Roles)| == 5;
  }

  /** The fields of each resource that a plan compares and writes. */
  function ManagedFields(r: Resource): set<string> {
    match r
    case Permissions => {"display_name", "description", "is_system", "status", "is_active", "tags"}
    case Entities =>
      {"name", "display_name", "description", "entity_class", "entity_type", "status", "valid_from", "valid_until",
       "allowed_child_classes", "allowed_child_types", "max_members", "child_name_pattern",
       "child_display_name_pattern", "child_slug_pattern", "child_naming_guidance"}
    case Roles =>
      {"display_name", "description", "permissions", "is_global", "status", "assignable_at_types", "scope",
       "is_auto_assigned"}
    case Memberships => {"status", "valid_from", "valid_until"}
  }

  function AllowedFields(r: Resource): set<string> {
    ManagedFields(r) +
    match r
    case Permissions => {"name", "state"}
    case Entities => {"slug", "state", "parent"}
    case Roles => {"name", "state", "root_entity", "scope_entity"}
    case Memberships => {"user", "entity", "state", "roles", "reason"}
  }

  function IdentityFields(r: Resource): seq<string> {
    match r
    case Permissions => ["name"]
    case Entities => ["slug"]
    case Roles => ["name"]
    case Memberships => ["user", "entity"]
  }

  /** `_identity`; `None` where the source raises KeyError. */
  function Identity(r: Resource, item: Dict): Option<string> {
    match r
    case Entities => if "slug" in item then Some(PyStr(item["slug"])) else None
    case Memberships =>
      if "user" in item && "entity" in item then
        Some(MembershipIdentity(PyStr(item["user"]), PyStr(item["entity"])))
      else None
    case _ => if "name" in item then Some(PyStr(item["name"])) else None
  }

  function MembershipIdentity(user: string, entity: string): string {
    Fold(user) + "@" + Fold(entity)
  }

  /** The identity of an item that validation accepted. */
  function NameOf(r: Resource, item: Dict): string {
    match Identity(r, item) case Some(s) => s case None => ""
  }

  /** The key under which every dictionary of the planner files an item or a row. */
  function FoldedIdentity(r: Resource, item: Dict): Option<string> {
    match Identity(r, item) case Some(s) => Some(Fold(s)) case None => None
  }

  function Keyed(r: Resource): Dict -> Option<string> {
    item => FoldedIdentity(r, item)
  }

  datatype Manifest = Manifest(permissions: seq<Dict>, entities: seq<Dict>, roles: seq<Dict>, memberships: seq<Dict>)
  {
    function Items(r: Resource): seq<Dict> {
      match r
      case Permissions => permissions
      case Entities => entities
      case Roles => roles
      case Memberships => memberships
    }
  }

  predicate Present(item: Dict) {
    Get(item, "state") == Str("present")
  }

  predicate NonemptyText(j: Json) {
    j.Str? && j.s != ""
  }

  /** What `validate_manifest` guarantees of one item ... */
  predicate ValidItem(r: Resource, item: Dict) {
    && Get(item, "state") in {Str("present"), Str("absent")}
    && item.Keys <= AllowedFields(r)
    && forall f <- IdentityFields(r) :: NonemptyText(Get(item, f))
  }

  /** ... and of a whole group: identities are compared as written. */
  ghost predicate ValidGroup(r: Resource, items: seq<Dict>) {
    && (forall i | 0 <= i < |items| :: ValidItem(r, items[i]))
    && (forall i, j | 0 <= i < j < |items| :: NameOf(r, items[i]) != NameOf(r, items[j]))
  }

  ghost predicate ValidManifest(m: Manifest) {
    forall r: Resource :: ValidGroup(r, m.Items(r))
  }

  /** Every dictionary of the planner is keyed by casefolded identity, so two identities that differ only in case
      collide there although validation accepts them. */
  ghost predicate FoldDistinct(m: Manifest) {
    forall r: Resource :: Distinct(Keyed(r), m.Items(r))
  }

  lemma ValidItemIdentity(r: Resource, item: Dict)
    requires ValidItem(r, item)
    ensures Identity(r, item) == Some(NameOf(r, item))
  {
    assert IdentityFields(r)[0] in IdentityFields(r);
    assert |IdentityFields(r)| > 1 ==> IdentityFields(r)[1] in IdentityFields(r);
  }
}
