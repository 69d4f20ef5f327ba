/**
 * The three stored entities of the modeler app and the constraints their
 * field declarations impose: `Hub` and `Link` names are unique, a
 * `Satellite` is unique per (name, content type, object id), character
 * fields have maximum lengths and `record_source` defaults to
 * `"DefaultSource"`.
 */
module Models {
  import opened Text

  const NameMaxLength: nat := 255
  const BusinessKeysMaxLength: nat := 500
  const RecordSourceMaxLength: nat := 255
  /** Largest value a `PositiveIntegerField` accepts. */
  const ObjectIdMax: nat := 2147483647
  const DefaultSource: string := "DefaultSource"

  datatype Hub = Hub(
    id: nat,
    name: string,
    description: Option<string>,
    businessKeys: string,
    recordSource: string)

  /** The Hub's business keys as both renderers read them: `business_keys` split at commas, each piece stripped, blank pieces dropped. */
  function BusinessKeys(h: Hub): seq<string> {
    NonBlank(Split(h.businessKeys, ','))
  }

  /** A Link with the Hubs of its many-to-many relation, in the order the relation yields them. */
  datatype Link = Link(
    id: nat,
    name: string,
    hubs: seq<Hub>,
    description: Option<string>,
    recordSource: string)

  /** The `model` of a Satellite's content type, as far as the views distinguish it. */
  datatype ContentKind = HubModel | LinkModel | OtherModel

  datatype Satellite = Satellite(
    id: nat,
    name: string,
    attributes: string,
    recordSource: string,
    contentType: ContentKind,
    objectId: nat)

  /** The three tables, each in the order its query returns it. */
  datatype Graph = Graph(hubs: seq<Hub>, links: seq<Link>, satellites: seq<Satellite>)

  predicate HubFieldsValid(h: Hub) {
    |h.name| <= NameMaxLength && |h.businessKeys| <= BusinessKeysMaxLength &&
    |h.recordSource| <= RecordSourceMaxLength
  }

  predicate LinkFieldsValid(l: Link) {
    |l.name| <= NameMaxLength && |l.recordSource| <= RecordSourceMaxLength
  }

  predicate SatelliteFieldsValid(s: Satellite) {
    |s.name| <= NameMaxLength && |s.recordSource| <= RecordSourceMaxLength &&
    s.objectId <= ObjectIdMax
  }

  /** A Hub as `Hub(name=..., description=..., business_keys=...)` creates it. */
  function NewHub(id: nat, name: string, description: Option<string>, businessKeys: string): (h: Hub)
    ensures h.recordSource == DefaultSource && h.name == name && h.id == id
    ensures HubFieldsValid(h) <==> |name| <= NameMaxLength && |businessKeys| <= BusinessKeysMaxLength
  {
    Hub(id, name, description, businessKeys, DefaultSource)
  }

  function NewLink(id: nat, name: string, hubs: seq<Hub>, description: Option<string>): (l: Link)
    ensures l.recordSource == DefaultSource && l.name == name && l.hubs == hubs
    ensures LinkFieldsValid(l) <==> |name| <= NameMaxLength
  {
    Link(id, name, hubs, description, DefaultSource)
  }

  function NewSatellite(id: nat, name: string, attributes: string, kind: ContentKind, objectId: nat): (s: Satellite)
    ensures s.recordSource == DefaultSource && s.name == name && s.objectId == objectId
    ensures SatelliteFieldsValid(s) <==> |name| <= NameMaxLength && objectId <= ObjectIdMax
  {
    Satellite(id, name, attributes, DefaultSource, kind, objectId)
  }

  predicate HubNamesUnique(hubs: seq<Hub>) {
    forall i, j :: 0 <= i < j < |hubs| ==> hubs[i].name != hubs[j].name && hubs[i].id != hubs[j].id
  }

  predicate LinkNamesUnique(links: seq<Link>) {
    forall i, j :: 0 <= i < j < |links| ==> links[i].name != links[j].name && links[i].id != links[j].id
  }

  predicate SameSatelliteKey(a: Satellite, b: Satellite) {
    a.name == b.name && a.contentType == b.contentType && a.objectId == b.objectId
  }

  predicate SatelliteKeysUnique(sats: seq<Satellite>) {
    forall i, j :: 0 <= i < j < |sats| ==> !SameSatelliteKey(sats[i], sats[j]) && sats[i].id != sats[j].id
  }

  /** The related Hubs of a Link are stored Hubs, each at most once. */
  predicate LinkHubsStored(l: Link, hubs: seq<Hub>) {
    (forall k :: 0 <= k < |l.hubs| ==> l.hubs[k] in hubs) &&
    (forall a, b :: 0 <= a < b < |l.hubs| ==> l.hubs[a].id != l.hubs[b].id)
  }

  /** Everything the field declarations and table constraints guarantee of the stored tables. */
  predicate WellFormed(g: Graph) {
    (forall h :: h in g.hubs ==> HubFieldsValid(h)) &&
    (forall l :: l in g.links ==> LinkFieldsValid(l) && LinkHubsStored(l, g.hubs)) &&
    (forall s :: s in g.satellites ==> SatelliteFieldsValid(s)) &&
    HubNamesUnique(g.hubs) && LinkNamesUnique(g.links) && SatelliteKeysUnique(g.satellites)
  }

  datatype SaveError = FieldTooLong | DuplicateKey

  /** `hub.save()` of a new Hub: the table's constraints decide whether the row is stored. */
  function InsertHub(g: Graph, h: Hub): (r: Result<Graph>)
    ensures r.Ok? <==> HubFieldsValid(h) && forall x :: x in g.hubs ==> x.name != h.name && x.id != h.id
    ensures r.Ok? ==> r.value == g.(hubs := g.hubs + [h])
    ensures r.Ok? && WellFormed(g) ==> WellFormed(r.value)
  {
    if !HubFieldsValid(h) then Err(FieldTooLong)
    else if exists x :: x in g.hubs && (x.name == h.name || x.id == h.id) then Err(DuplicateKey)
    else
      var g' := g.(hubs := g.hubs + [h]);
      assert forall l :: l in g.links && LinkHubsStored(l, g.hubs) ==> LinkHubsStored(l, g'.hubs);
      Ok(g')
  }

  /** `link.save()` of a new Link together with its Hub relation. */
  function InsertLink(g: Graph, l: Link): (r: Result<Graph>)
    requires LinkHubsStored(l, g.hubs)
    ensures r.Ok? <==> LinkFieldsValid(l) && forall x :: x in g.links ==> x.name != l.name && x.id != l.id
    ensures r.Ok? ==> r.value == g.(links := g.links + [l])
    ensures r.Ok? && WellFormed(g) ==> WellFormed(r.value)
  {
    if !LinkFieldsValid(l) then Err(FieldTooLong)
    else if exists x :: x in g.links && (x.name == l.name || x.id == l.id) then Err(DuplicateKey)
    else Ok(g.(links := g.links + [l]))
  }

  /** `satellite.save()` of a new Satellite: `unique_together` on (name, content_type, object_id). */
  function InsertSatellite(g: Graph, s: Satellite): (r: Result<Graph>)
    ensures r.Ok? <==>
              SatelliteFieldsValid(s) && forall x :: x in g.satellites ==> !SameSatelliteKey(x, s) && x.id != s.id
    ensures r.Ok? ==> r.value == g.(satellites := g.satellites + [s])
    ensures r.Ok? && WellFormed(g) ==> WellFormed(r.value)
  {
    if !SatelliteFieldsValid(s) then Err(FieldTooLong)
    else if exists x :: x in g.satellites && (SameSatelliteKey(x, s) || x.id == s.id) then Err(DuplicateKey)
    else Ok(g.(satellites := g.satellites + [s]))
  }

  /** The number of (Hub, Link) pairs of the many-to-many relation. */
  function HubRefCount(links: seq<Link>): nat {
    if links == [] then 0 else HubRefCount(links[..|links| - 1]) + |links[|links| - 1].hubs|
  }

  /** The (Hub, Link) pairs of one Link, in relation order. */
  function RelationOf(l: Link): (r: seq<(Hub, Link)>)
    ensures |r| == |l.hubs| && forall j :: 0 <= j < |l.hubs| ==> r[j] == (l.hubs[j], l)
  {
    seq(|l.hubs|, j requires 0 <= j < |l.hubs| => (l.hubs[j], l))
  }

  /** Every (Hub, Link) pair of the relation, Link by Link, as the nested loops of both renderers visit them. */
  function Relation(links: seq<Link>): (r: seq<(Hub, Link)>)
    ensures |r| == HubRefCount(links)
  {
    if links == [] then [] else Relation(links[..|links| - 1]) + RelationOf(links[|links| - 1])
  }

  /** The relation of the first `i + 1` Links extends that of the first `i` by the pairs of Link `i`. */
  lemma RelationStep(links: seq<Link>, i: nat)
    requires i < |links|
    ensures Relation(links[..i + 1]) == Relation(links[..i]) + RelationOf(links[i])
  {
    assert links[..i + 1][..i] == links[..i];
  }

  /** Each pair of `Relation(links)` is a Link of `links` with one of its own Hubs, and each such pair occurs. */
  lemma {:induction false} RelationPairs(links: seq<Link>, h: Hub, l: Link)
    ensures (h, l) in Relation(links) <==> l in links && h in l.hubs
  {
    if links != [] {
      var init, last := links[..|links| - 1], links[|links| - 1];
      RelationPairs(init, h, l);
      assert links == init + [last];
      if l == last && h in l.hubs {
        var j :| 0 <= j < |l.hubs| && l.hubs[j] == h;
        assert RelationOf(last)[j] == (h, l);
      }
    }
  }

  datatype Result<T> = Ok(value: T) | Err(error: SaveError)
}
