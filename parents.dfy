/**
 * A Satellite's parent is either a Hub or a Link. This module covers the
 * parent choice list of the Satellite form, the `"<content type id>-<object id>"`
 * key it encodes a parent as, the decoding of that key by the create and
 * update views, and the lookup of a stored parent through the id-to-name
 * maps that both diagram renderers build.
 */
module Parents {
  import opened Text
  import opened Models

  /** One `(value, label)` pair of the `parent` choice field. */
  datatype Choice = Choice(value: string, display: string)

  /** The choice key of a parent: `f"{ct.id}-{obj.id}"`. */
  function EncodeParent(contentTypeId: nat, objectId: nat): (r: string)
    ensures Count(r, '-') == 1
  {
    CountDigits(NatToString(contentTypeId));
    CountDigits(NatToString(objectId));
    CountAppend(NatToString(contentTypeId), "-");
    CountAppend(NatToString(contentTypeId) + "-", NatToString(objectId));
    NatToString(contentTypeId) + "-" + NatToString(objectId)
  }

  lemma {:induction false} CountDigits(s: string)
    requires AllDigits(s)
    ensures Count(s, '-') == 0
  {
    if s != [] {
      CountDigits(s[1..]);
    }
  }

  lemma {:induction false} CountAppend(a: string, b: string)
    ensures Count(a + b, '-') == Count(a, '-') + Count(b, '-')
  {
    if a != [] {
      assert (a + b)[0] == a[0];
      assert (a + b)[1..] == a[1..] + b;
      CountAppend(a[1..], b);
    } else {
      assert a + b == b;
    }
  }

  /**
   * `content_type_id, object_id = parent_str.split('-')` followed by the
   * integer conversions: `None` where Python would raise (not exactly two
   * pieces, or a piece that is not a decimal number).
   */
  function DecodeParent(key: string): (r: Option<(nat, nat)>)
    ensures r.Some? ==> Count(key, '-') == 1
  {
    var parts := Split(key, '-');
    if |parts| != 2 then None
    else
      match (ParseNat(parts[0]), ParseNat(parts[1]))
      case (Some(ct), Some(obj)) => Some((ct, obj))
      case _ => None
  }

  /** Decoding a key built by `EncodeParent` gives back the pair it was built from. */
  lemma DecodeEncodeParent(contentTypeId: nat, objectId: nat)
    ensures DecodeParent(EncodeParent(contentTypeId, objectId)) == Some((contentTypeId, objectId))
  {
    var a, b := NatToString(contentTypeId), NatToString(objectId);
    CountDigits(a);
    CountDigits(b);
    SplitAtFirstSeparator(a, '-', b);
    SplitWithoutSeparator(b, '-');
    assert a + "-" + b == a + ['-'] + b;
    ParseNatToString(contentTypeId);
    ParseNatToString(objectId);
  }

  /** The parent choices for Hubs, in query order. */
  function HubChoices(hubs: seq<Hub>, hubContentType: nat): (r: seq<Choice>)
    ensures |r| == |hubs|
    ensures forall i :: 0 <= i < |hubs| ==>
      r[i] == Choice(EncodeParent(hubContentType, hubs[i].id), "Hub: " + hubs[i].name)
  {
    if hubs == [] then []
    else HubChoices(hubs[..|hubs| - 1], hubContentType) +
         [Choice(EncodeParent(hubContentType, hubs[|hubs| - 1].id), "Hub: " + hubs[|hubs| - 1].name)]
  }

  /** The parent choices for Links, in query order. */
  function LinkChoices(links: seq<Link>, linkContentType: nat): (r: seq<Choice>)
    ensures |r| == |links|
    ensures forall i :: 0 <= i < |links| ==>
      r[i] == Choice(EncodeParent(linkContentType, links[i].id), "Link: " + links[i].name)
  {
    if links == [] then []
    else LinkChoices(links[..|links| - 1], linkContentType) +
         [Choice(EncodeParent(linkContentType, links[|links| - 1].id), "Link: " + links[|links| - 1].name)]
  }

  /** `SatelliteForm.__init__`: every Hub choice, then every Link choice. */
  function ParentChoices(hubs: seq<Hub>, links: seq<Link>, hubContentType: nat, linkContentType: nat): (r: seq<Choice>)
    ensures |r| == |hubs| + |links|
    ensures forall i :: 0 <= i < |hubs| ==>
      r[i] == Choice(EncodeParent(hubContentType, hubs[i].id), "Hub: " + hubs[i].name)
    ensures forall i :: 0 <= i < |links| ==>
      r[|hubs| + i] == Choice(EncodeParent(linkContentType, links[i].id), "Link: " + links[i].name)
  {
    HubChoices(hubs, hubContentType) + LinkChoices(links, linkContentType)
  }

  /** Every offered choice decodes to the content type and id of the Hub or Link it was built from. */
  lemma ChoicesDecode(hubs: seq<Hub>, links: seq<Link>, hubContentType: nat, linkContentType: nat, k: nat)
    requires k < |hubs| + |links|
    ensures var c := ParentChoices(hubs, links, hubContentType, linkContentType)[k];
      DecodeParent(c.value) ==
        if k < |hubs| then Some((hubContentType, hubs[k].id))
        else Some((linkContentType, links[k - |hubs|].id))
  {
    if k < |hubs| {
      DecodeEncodeParent(hubContentType, hubs[k].id);
    } else {
      DecodeEncodeParent(linkContentType, links[k - |hubs|].id);
    }
  }

  datatype CreatePage = NoParentsPage | SatelliteFormPage

  /** `create_satellite` shows the no-parents page when the choice list is empty. */
  function CreateSatellitePage(choices: seq<Choice>): CreatePage {
    if choices == [] then NoParentsPage else SatelliteFormPage
  }

  lemma NoParentsIffNoHubsAndLinks(hubs: seq<Hub>, links: seq<Link>, hubContentType: nat, linkContentType: nat)
    ensures CreateSatellitePage(ParentChoices(hubs, links, hubContentType, linkContentType)) == NoParentsPage
        <==> hubs == [] && links == []
  {
  }

  /**
   * `{x.id: x.name for x in xs}` over (id, name) pairs: a later pair with the
   * same id overwrites an earlier one.
   */
  function NameMap(entries: seq<(nat, string)>): (m: map<nat, string>)
    ensures forall id :: id in m <==> exists i :: 0 <= i < |entries| && entries[i].0 == id
  {
    if entries == [] then map[]
    else
      var last := entries[|entries| - 1];
      var m := NameMap(entries[..|entries| - 1])[last.0 := last.1];
      assert forall i :: 0 <= i < |entries| - 1 ==> entries[..|entries| - 1][i] == entries[i];
      m
  }

  /** With distinct ids the map sends each id to the name stored with it. */
  lemma {:induction false} NameMapLookup(entries: seq<(nat, string)>, i: nat)
    requires i < |entries|
    requires forall a, b :: 0 <= a < b < |entries| ==> entries[a].0 != entries[b].0
    ensures NameMap(entries)[entries[i].0] == entries[i].1
  {
    if i < |entries| - 1 {
      var init := entries[..|entries| - 1];
      assert init[i] == entries[i];
      NameMapLookup(init, i);
    }
  }

  function HubEntries(hubs: seq<Hub>): (r: seq<(nat, string)>)
    ensures |r| == |hubs| && forall i :: 0 <= i < |hubs| ==> r[i] == (hubs[i].id, hubs[i].name)
  {
    seq(|hubs|, i requires 0 <= i < |hubs| => (hubs[i].id, hubs[i].name))
  }

  function LinkEntries(links: seq<Link>): (r: seq<(nat, string)>)
    ensures |r| == |links| && forall i :: 0 <= i < |links| ==> r[i] == (links[i].id, links[i].name)
  {
    seq(|links|, i requires 0 <= i < |links| => (links[i].id, links[i].name))
  }

  /** `hub_name_map` and `link_name_map` of both renderers. */
  datatype NameMaps = NameMaps(hubNames: map<nat, string>, linkNames: map<nat, string>)

  function BuildNameMaps(g: Graph): NameMaps {
    NameMaps(NameMap(HubEntries(g.hubs)), NameMap(LinkEntries(g.links)))
  }

  /**
   * The parent name of a Satellite, if it has one to show: its content type
   * is `hub` or `link` and the matching map holds a non-empty name for its
   * object id. `None` makes both renderers leave out the parent field and
   * the parent edge.
   */
  function ResolveParent(s: Satellite, maps: NameMaps): (r: Option<string>)
    ensures r.Some? ==> r.value != ""
    ensures r.Some? <==>
      (s.contentType == HubModel && s.objectId in maps.hubNames && maps.hubNames[s.objectId] != "") ||
      (s.contentType == LinkModel && s.objectId in maps.linkNames && maps.linkNames[s.objectId] != "")
  {
    var name :=
      match s.contentType
      case HubModel => if s.objectId in maps.hubNames then maps.hubNames[s.objectId] else ""
      case LinkModel => if s.objectId in maps.linkNames then maps.linkNames[s.objectId] else ""
      case OtherModel => "";
    if name != "" then Some(name) else None
  }

  /**
   * Against the stored tables: a Satellite of a well-formed graph resolves to
   * `n` exactly when a stored Hub (for content type `hub`) or Link (for
   * `link`) has its object id and the non-empty name `n`.
   */
  lemma ResolveFindsStoredParent(g: Graph, s: Satellite, n: string)
    requires HubNamesUnique(g.hubs) && LinkNamesUnique(g.links)
    ensures ResolveParent(s, BuildNameMaps(g)) == Some(n) <==>
      n != "" &&
      ((s.contentType == HubModel && exists i :: 0 <= i < |g.hubs| && g.hubs[i].id == s.objectId && g.hubs[i].name == n) ||
       (s.contentType == LinkModel && exists i :: 0 <= i < |g.links| && g.links[i].id == s.objectId && g.links[i].name == n))
  {
    if s.contentType == HubModel {
      var he := HubEntries(g.hubs);
      EntryFound(he, s.objectId, n);
      assert (exists i :: 0 <= i < |he| && he[i] == (s.objectId, n)) <==>
        exists i :: 0 <= i < |g.hubs| && g.hubs[i].id == s.objectId && g.hubs[i].name == n;
    } else if s.contentType == LinkModel {
      var le := LinkEntries(g.links);
      EntryFound(le, s.objectId, n);
      assert (exists i :: 0 <= i < |le| && le[i] == (s.objectId, n)) <==>
        exists i :: 0 <= i < |g.links| && g.links[i].id == s.objectId && g.links[i].name == n;
    }
  }

  /** With distinct ids, the map sends `id` to `n` exactly when the pair `(id, n)` is an entry. */
  lemma EntryFound(entries: seq<(nat, string)>, id: nat, n: string)
    requires forall a, b :: 0 <= a < b < |entries| ==> entries[a].0 != entries[b].0
    ensures (id in NameMap(entries) && NameMap(entries)[id] == n) <==>
      exists i :: 0 <= i < |entries| && entries[i] == (id, n)
  {
    if id in NameMap(entries) {
      var i :| 0 <= i < |entries| && entries[i].0 == id;
      NameMapLookup(entries, i);
      if exists j :: 0 <= j < |entries| && entries[j] == (id, n) {
        var j :| 0 <= j < |entries| && entries[j] == (id, n);
        assert i == j;
      }
    }
  }

  /**
   * The (parent name, Satellite name) pairs of the Satellites that resolve
   * to a parent, in Satellite order: the `describes` relation both
   * renderers draw.
   */
  function Described(sats: seq<Satellite>, maps: NameMaps): (r: seq<(string, string)>)
    ensures |r| <= |sats|
  {
    if sats == [] then []
    else
      var s := sats[|sats| - 1];
      Described(sats[..|sats| - 1], maps) +
      (match ResolveParent(s, maps) case Some(p) => [(p, s.name)] case None => [])
  }

  /** Satellite `i` adds its pair to the described pairs of the Satellites before it exactly when it resolves. */
  lemma DescribedStep(sats: seq<Satellite>, maps: NameMaps, i: nat)
    requires i < |sats|
    ensures ResolveParent(sats[i], maps).None? ==> Described(sats[..i + 1], maps) == Described(sats[..i], maps)
    ensures ResolveParent(sats[i], maps).Some? ==>
      Described(sats[..i + 1], maps) == Described(sats[..i], maps) + [(ResolveParent(sats[i], maps).value, sats[i].name)]
  {
    assert sats[..i + 1][..i] == sats[..i];
  }

  /** A Satellite contributes a pair exactly when it resolves, and every pair names a non-empty parent. */
  lemma {:induction false} DescribedPairs(sats: seq<Satellite>, maps: NameMaps, p: string, name: string)
    ensures (p, name) in Described(sats, maps) <==>
      exists s :: s in sats && s.name == name && ResolveParent(s, maps) == Some(p)
    ensures (p, name) in Described(sats, maps) ==> p != ""
  {
    if sats != [] {
      var init, last := sats[..|sats| - 1], sats[|sats| - 1];
      DescribedPairs(init, maps, p, name);
      assert sats == init + [last];
      if (p, name) in Described(sats, maps) && (p, name) !in Described(init, maps) {
        assert ResolveParent(last, maps) == Some(p) && last.name == name;
        assert last in sats;
      }
      if exists s :: s in sats && s.name == name && ResolveParent(s, maps) == Some(p) {
        var s :| s in sats && s.name == name && ResolveParent(s, maps) == Some(p);
        if s != last {
          assert s in init;
        }
      }
    }
  }
}
