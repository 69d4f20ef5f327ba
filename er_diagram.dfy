/**
 * The Mermaid `erDiagram` text of the `visualize_model` view: one entity
 * block per Hub, Link and Satellite, then one `connects` edge per
 * (Hub, Link) pair of the relation and one `describes` edge per Satellite
 * whose parent resolves.
 */
module ErDiagram {
  import opened Text
  import opened Sanitize
  import opened Models
  import opened Parents
  import opened Attributes

  const ErrorPrefix: string := "Ocorreu um erro ao gerar o diagrama: "

  /** One line of `mermaid_lines`, by the f-string that produces it. */
  datatype ErLine =
    | Header
    | EntityOpen(name: string)
    | HashKey(safe: string)
    | BusinessKey(n: nat, key: string)
    | AttributeField(tipo: string, safeName: string, name: string)
    | LoadDate
    | RecordSource
    | EntityClose
    | Connects(hubName: string, linkName: string)
    | Describes(parentName: string, satName: string)

  /** The text of a line. */
  function LineText(l: ErLine): string {
    match l
    case Header => "erDiagram"
    case EntityOpen(name) => "    \"" + name + "\" {"
    case HashKey(safe) => HashKeyPrefix + safe
    case BusinessKey(n, key) => "        string key_" + NatToString(n) + " \"" + key + "\""
    case AttributeField(tipo, safeName, name) => "        " + tipo + " " + safeName + " \"" + name + "\""
    case LoadDate => "        datetime load_date"
    case RecordSource => "        string record_source"
    case EntityClose => "    }"
    case Connects(hubName, linkName) => "    \"" + hubName + "\" ||--|{ \"" + linkName + "\" : \"connects\""
    case Describes(parentName, satName) => "    \"" + parentName + "\" ||--o{ \"" + satName + "\" : \"describes\""
  }

  const HashKeyPrefix: string := "        string HK_"

  /** `HK_DIFF`, the field every Satellite block carries after its parent key. */
  const HkDiff: ErLine := HashKey("DIFF")

  /** `"\n".join(...)` of the lines' texts. */
  function Texts(lines: seq<ErLine>): (r: seq<string>)
    ensures |r| == |lines| && forall i :: 0 <= i < |lines| ==> r[i] == LineText(lines[i])
  {
    seq(|lines|, i requires 0 <= i < |lines| => LineText(lines[i]))
  }


  /** The business-key fields, numbered from 1 in key order. */
  function KeyFields(keys: seq<string>): (r: seq<ErLine>)
    ensures |r| == |keys|
    ensures forall i :: 0 <= i < |keys| ==> r[i] == BusinessKey(i + 1, keys[i])
  {
    if keys == [] then []
    else KeyFields(keys[..|keys| - 1]) + [BusinessKey(|keys|, keys[|keys| - 1])]
  }

  /** One more key adds its field, numbered after the others. */
  lemma KeyFieldsStep(keys: seq<string>, i: nat)
    requires i < |keys|
    ensures KeyFields(keys[..i + 1]) == KeyFields(keys[..i]) + [BusinessKey(i + 1, keys[i])]
  {
    assert keys[..i + 1][..i] == keys[..i];
  }

  const Trailer: seq<ErLine> := [LoadDate, RecordSource, EntityClose]

  /** The block of a Hub: its own hash key, its numbered business keys, the two audit fields. */
  function HubBlock(h: Hub): (r: seq<ErLine>)
    ensures |r| == 5 + |BusinessKeys(h)|
    ensures r[0] == EntityOpen(h.name) && r[1] == HashKey(ReplaceSpaces(h.name))
  {
    [EntityOpen(h.name), HashKey(ReplaceSpaces(h.name))] + KeyFields(BusinessKeys(h)) + Trailer
  }

  /** The business keys of a Hub follow its hash key, numbered from 1, and the audit fields close the block. */
  lemma HubBlockLayout(h: Hub)
    ensures var r := HubBlock(h); var keys := BusinessKeys(h);
      (forall i :: 0 <= i < |keys| ==> r[2 + i] == BusinessKey(i + 1, keys[i])) && r[|r| - 3..] == Trailer
  {
    var r := HubBlock(h);
    var keys := BusinessKeys(h);
    assert r[2..|r| - 3] == KeyFields(keys);
    forall i | 0 <= i < |keys| ensures r[2 + i] == BusinessKey(i + 1, keys[i]) {
      assert r[2 + i] == r[2..|r| - 3][i];
    }
  }

  /** The hash keys of the Hubs a Link relates, in relation order. */
  function HubKeyFields(hubs: seq<Hub>): (r: seq<ErLine>)
    ensures |r| == |hubs|
    ensures forall i :: 0 <= i < |hubs| ==> r[i] == HashKey(ReplaceSpaces(hubs[i].name))
  {
    if hubs == [] then []
    else HubKeyFields(hubs[..|hubs| - 1]) + [HashKey(ReplaceSpaces(hubs[|hubs| - 1].name))]
  }

  lemma HubKeyFieldsStep(hubs: seq<Hub>, i: nat)
    requires i < |hubs|
    ensures HubKeyFields(hubs[..i + 1]) == HubKeyFields(hubs[..i]) + [HashKey(ReplaceSpaces(hubs[i].name))]
  {
    assert hubs[..i + 1][..i] == hubs[..i];
  }

  /** The block of a Link: its own hash key followed by one hash key per related Hub. */
  function LinkBlock(l: Link): (r: seq<ErLine>)
    ensures |r| == 5 + |l.hubs|
    ensures r[0] == EntityOpen(l.name) && r[1] == HashKey(ReplaceSpaces(l.name))
  {
    [EntityOpen(l.name), HashKey(ReplaceSpaces(l.name))] + HubKeyFields(l.hubs) + Trailer
  }

  /** The hash keys of a Link's Hubs follow its own, in relation order, and the audit fields close the block. */
  lemma LinkBlockLayout(l: Link)
    ensures var r := LinkBlock(l);
      (forall i :: 0 <= i < |l.hubs| ==> r[2 + i] == HashKey(ReplaceSpaces(l.hubs[i].name))) && r[|r| - 3..] == Trailer
  {
    var r := LinkBlock(l);
    assert r[2..|r| - 3] == HubKeyFields(l.hubs);
    forall i | 0 <= i < |l.hubs| ensures r[2 + i] == HashKey(ReplaceSpaces(l.hubs[i].name)) {
      assert r[2 + i] == r[2..|r| - 3][i];
    }
  }

  /** The parent's hash-key field of a Satellite: present exactly when its parent resolves. */
  function ParentField(s: Satellite, maps: NameMaps): (r: seq<ErLine>)
    ensures |r| <= 1
    ensures |r| == 1 <==> ResolveParent(s, maps).Some?
    ensures |r| == 1 ==> r[0] == HashKey(SubNonWord(ResolveParent(s, maps).value))
  {
    match ResolveParent(s, maps)
    case Some(p) => [HashKey(SubNonWord(p))]
    case None => []
  }

  /** `f'        {tipo} {safe_name} "{name}"'` with `safe_name = name.replace(' ', '_')` */
  function AttributeLine(a: Attr): ErLine {
    AttributeField(a.tipo, ReplaceSpaces(a.name), a.name)
  }

  function AttributeFields(attrs: seq<Attr>): (r: seq<ErLine>)
    ensures |r| == |attrs|
    ensures forall i :: 0 <= i < |attrs| ==> r[i] == AttributeLine(attrs[i])
  {
    if attrs == [] then []
    else AttributeFields(attrs[..|attrs| - 1]) + [AttributeLine(attrs[|attrs| - 1])]
  }

  lemma AttributeFieldsStep(attrs: seq<Attr>, i: nat)
    requires i < |attrs|
    ensures AttributeFields(attrs[..i + 1]) == AttributeFields(attrs[..i]) + [AttributeLine(attrs[i])]
  {
    assert attrs[..i + 1][..i] == attrs[..i];
  }

  /** A Satellite block around its parent field and its attribute list. */
  function SatBlockWith(name: string, parent: seq<ErLine>, attrs: seq<Attr>): (r: seq<ErLine>)
    ensures |r| == 5 + |parent| + |attrs|
    ensures r[0] == EntityOpen(name) && r[1 + |parent|] == HkDiff
  {
    [EntityOpen(name)] + parent + [HkDiff] + AttributeFields(attrs) + Trailer
  }

  /** Where the parent field, the attribute fields and the audit fields sit in a Satellite block. */
  lemma SatBlockLayout(name: string, parent: seq<ErLine>, attrs: seq<Attr>)
    ensures var r := SatBlockWith(name, parent, attrs);
      r[1..1 + |parent|] == parent && r[2 + |parent|..|r| - 3] == AttributeFields(attrs) && r[|r| - 3..] == Trailer
  {
    var r := SatBlockWith(name, parent, attrs);
    assert r[1..1 + |parent|] == parent;
    assert r[2 + |parent|..|r| - 3] == AttributeFields(attrs);
  }

  /** The block of a Satellite: the optional parent key, `HK_DIFF`, one field per attribute. */
  function SatBlock(s: Satellite, maps: NameMaps): seq<ErLine> {
    SatBlockWith(s.name, ParentField(s, maps), ParseForRender(s.attributes))
  }

  function HubBlocks(hubs: seq<Hub>): seq<ErLine> {
    if hubs == [] then [] else HubBlocks(hubs[..|hubs| - 1]) + HubBlock(hubs[|hubs| - 1])
  }

  function LinkBlocks(links: seq<Link>): seq<ErLine> {
    if links == [] then [] else LinkBlocks(links[..|links| - 1]) + LinkBlock(links[|links| - 1])
  }

  function SatBlocks(sats: seq<Satellite>, maps: NameMaps): seq<ErLine> {
    if sats == [] then [] else SatBlocks(sats[..|sats| - 1], maps) + SatBlock(sats[|sats| - 1], maps)
  }

  /** Each loop over the stored rows extends the lines of the rows before by the block of the next row. */
  lemma HubBlocksStep(hubs: seq<Hub>, i: nat)
    requires i < |hubs|
    ensures HubBlocks(hubs[..i + 1]) == HubBlocks(hubs[..i]) + HubBlock(hubs[i])
  {
    assert hubs[..i + 1][..i] == hubs[..i];
  }

  lemma LinkBlocksStep(links: seq<Link>, i: nat)
    requires i < |links|
    ensures LinkBlocks(links[..i + 1]) == LinkBlocks(links[..i]) + LinkBlock(links[i])
  {
    assert links[..i + 1][..i] == links[..i];
  }

  lemma SatBlocksStep(sats: seq<Satellite>, maps: NameMaps, i: nat)
    requires i < |sats|
    ensures SatBlocks(sats[..i + 1], maps) == SatBlocks(sats[..i], maps) + SatBlock(sats[i], maps)
  {
    assert sats[..i + 1][..i] == sats[..i];
  }

  /** One `connects` edge per (Hub, Link) pair, in relation order. */
  function ConnectsEdges(pairs: seq<(Hub, Link)>): (r: seq<ErLine>)
    ensures |r| == |pairs|
  {
    if pairs == [] then []
    else
      var last := pairs[|pairs| - 1];
      ConnectsEdges(pairs[..|pairs| - 1]) + [Connects(last.0.name, last.1.name)]
  }

  /** One `describes` edge per (parent, Satellite) pair. */
  function DescribesEdges(pairs: seq<(string, string)>): (r: seq<ErLine>)
    ensures |r| == |pairs|
  {
    if pairs == [] then []
    else
      var last := pairs[|pairs| - 1];
      DescribesEdges(pairs[..|pairs| - 1]) + [Describes(last.0, last.1)]
  }

  lemma {:induction false} ConnectsEdgesAt(pairs: seq<(Hub, Link)>, k: nat)
    requires k < |pairs|
    ensures ConnectsEdges(pairs)[k] == Connects(pairs[k].0.name, pairs[k].1.name)
  {
    if k < |pairs| - 1 {
      ConnectsEdgesAt(pairs[..|pairs| - 1], k);
    }
  }

  lemma {:induction false} DescribesEdgesAt(pairs: seq<(string, string)>, k: nat)
    requires k < |pairs|
    ensures DescribesEdges(pairs)[k] == Describes(pairs[k].0, pairs[k].1)
  {
    if k < |pairs| - 1 {
      DescribesEdgesAt(pairs[..|pairs| - 1], k);
    }
  }

  lemma {:induction false} ConnectsEdgesAppend(a: seq<(Hub, Link)>, b: seq<(Hub, Link)>)
    ensures ConnectsEdges(a + b) == ConnectsEdges(a) + ConnectsEdges(b)
  {
    if b == [] {
      assert a + b == a;
    } else {
      var init := b[..|b| - 1];
      assert (a + b)[..|a + b| - 1] == a + init;
      ConnectsEdgesAppend(a, init);
    }
  }

  lemma {:induction false} DescribesEdgesAppend(a: seq<(string, string)>, b: seq<(string, string)>)
    ensures DescribesEdges(a + b) == DescribesEdges(a) + DescribesEdges(b)
  {
    if b == [] {
      assert a + b == a;
    } else {
      var init := b[..|b| - 1];
      assert (a + b)[..|a + b| - 1] == a + init;
      DescribesEdgesAppend(a, init);
    }
  }

  /** The edges of the first `i + 1` Satellites: those of the first `i`, then Satellite `i`'s edge if its parent resolves. */
  lemma DescribesStep(sats: seq<Satellite>, maps: NameMaps, i: nat)
    requires i < |sats|
    ensures ResolveParent(sats[i], maps).None? ==>
      DescribesEdges(Described(sats[..i + 1], maps)) == DescribesEdges(Described(sats[..i], maps))
    ensures ResolveParent(sats[i], maps).Some? ==>
      DescribesEdges(Described(sats[..i + 1], maps)) ==
        DescribesEdges(Described(sats[..i], maps)) + [Describes(ResolveParent(sats[i], maps).value, sats[i].name)]
  {
    DescribedStep(sats, maps, i);
    if ResolveParent(sats[i], maps).Some? {
      DescribesEdgesAppend(Described(sats[..i], maps), [(ResolveParent(sats[i], maps).value, sats[i].name)]);
    }
  }

  /** The header and the entity blocks. */
  function EntityLines(g: Graph): seq<ErLine> {
    var maps := BuildNameMaps(g);
    [Header] + HubBlocks(g.hubs) + LinkBlocks(g.links) + SatBlocks(g.satellites, maps)
  }

  /** The relation lines: every `connects` edge, then every `describes` edge. */
  function EdgeLines(g: Graph): (r: seq<ErLine>)
    ensures |r| == HubRefCount(g.links) + |Described(g.satellites, BuildNameMaps(g))|
  {
    ConnectsEdges(Relation(g.links)) + DescribesEdges(Described(g.satellites, BuildNameMaps(g)))
  }

  /** The lines of the ER diagram of the stored tables. */
  function ErDocument(g: Graph): seq<ErLine> {
    EntityLines(g) + EdgeLines(g)
  }

  // ---------------------------------------------------------------------
  // The view

  /** The loop over one Hub's business keys. */
  method EmitHub(h: Hub) returns (block: seq<ErLine>)
    ensures block == HubBlock(h)
  {
    var safeHubName := ReplaceSpaces(h.name);
    block := [EntityOpen(h.name), HashKey(safeHubName)];
    var fields := EmitKeyFields(BusinessKeys(h));
    block := block + fields + Trailer;
  }

  /** The loop over one Hub's business keys. */
  method EmitKeyFields(keys: seq<string>) returns (fields: seq<ErLine>)
    ensures fields == KeyFields(keys)
  {
    fields := [];
    var i := 0;
    while i < |keys|
      invariant 0 <= i <= |keys|
      invariant fields == KeyFields(keys[..i])
    {
      KeyFieldsStep(keys, i);
      fields := fields + [BusinessKey(i + 1, keys[i])];
      i := i + 1;
    }
    assert keys[..|keys|] == keys;
  }

  /** The loop over one Link's Hubs. */
  method EmitLink(l: Link) returns (block: seq<ErLine>)
    ensures block == LinkBlock(l)
  {
    block := [EntityOpen(l.name), HashKey(ReplaceSpaces(l.name))];
    var i := 0;
    while i < |l.hubs|
      invariant 0 <= i <= |l.hubs|
      invariant block == [EntityOpen(l.name), HashKey(ReplaceSpaces(l.name))] + HubKeyFields(l.hubs[..i])
    {
      HubKeyFieldsStep(l.hubs, i);
      block := block + [HashKey(ReplaceSpaces(l.hubs[i].name))];
      i := i + 1;
    }
    assert l.hubs[..|l.hubs|] == l.hubs;
    block := block + Trailer;
  }

  /** The parent lookup of a Satellite block: the parent's hash-key field, if its name is found and non-empty. */
  method ParentKey(s: Satellite, maps: NameMaps) returns (parentFk: Option<ErLine>)
    ensures parentFk.Some? <==> ResolveParent(s, maps).Some?
    ensures parentFk.Some? ==> parentFk.value == HashKey(SubNonWord(ResolveParent(s, maps).value))
  {
    parentFk := None;
    if s.contentType == HubModel {
      if s.objectId in maps.hubNames && maps.hubNames[s.objectId] != "" {
        parentFk := Some(HashKey(SubNonWord(maps.hubNames[s.objectId])));
      }
    } else if s.contentType == LinkModel {
      if s.objectId in maps.linkNames && maps.linkNames[s.objectId] != "" {
        parentFk := Some(HashKey(SubNonWord(maps.linkNames[s.objectId])));
      }
    }
  }

  /** The parent lookup and the loop over one Satellite's attributes. */
  method EmitSatellite(s: Satellite, maps: NameMaps) returns (block: seq<ErLine>)
    ensures block == SatBlock(s, maps)
  {
    block := [EntityOpen(s.name)];
    var parentFk := ParentKey(s, maps);
    if parentFk.Some? {
      block := block + [parentFk.value];
    }
    assert block == [EntityOpen(s.name)] + ParentField(s, maps);
    block := block + [HkDiff];
    var fields := EmitAttributes(ParseForRender(s.attributes));
    block := block + fields + Trailer;
  }

  /** The loop over a Satellite's attribute list. */
  method EmitAttributes(attrs: seq<Attr>) returns (fields: seq<ErLine>)
    ensures fields == AttributeFields(attrs)
  {
    fields := [];
    var i := 0;
    while i < |attrs|
      invariant 0 <= i <= |attrs|
      invariant fields == AttributeFields(attrs[..i])
    {
      AttributeFieldsStep(attrs, i);
      var name, tipo := attrs[i].name, attrs[i].tipo;
      fields := fields + [AttributeField(tipo, ReplaceSpaces(name), name)];
      i := i + 1;
    }
    assert attrs[..|attrs|] == attrs;
  }

  method EmitHubs(hubs: seq<Hub>) returns (lines: seq<ErLine>)
    ensures lines == HubBlocks(hubs)
  {
    lines := [];
    var i := 0;
    while i < |hubs|
      invariant 0 <= i <= |hubs|
      invariant lines == HubBlocks(hubs[..i])
    {
      HubBlocksStep(hubs, i);
      var block := EmitHub(hubs[i]);
      lines := lines + block;
      i := i + 1;
    }
    assert hubs[..|hubs|] == hubs;
  }

  method EmitLinks(links: seq<Link>) returns (lines: seq<ErLine>)
    ensures lines == LinkBlocks(links)
  {
    lines := [];
    var i := 0;
    while i < |links|
      invariant 0 <= i <= |links|
      invariant lines == LinkBlocks(links[..i])
    {
      LinkBlocksStep(links, i);
      var block := EmitLink(links[i]);
      lines := lines + block;
      i := i + 1;
    }
    assert links[..|links|] == links;
  }

  method EmitSatellites(sats: seq<Satellite>, maps: NameMaps) returns (lines: seq<ErLine>)
    ensures lines == SatBlocks(sats, maps)
  {
    lines := [];
    var i := 0;
    while i < |sats|
      invariant 0 <= i <= |sats|
      invariant lines == SatBlocks(sats[..i], maps)
    {
      SatBlocksStep(sats, maps, i);
      var block := EmitSatellite(sats[i], maps);
      lines := lines + block;
      i := i + 1;
    }
    assert sats[..|sats|] == sats;
  }

  /** The nested loops over each Link's Hubs. */
  method EmitConnects(links: seq<Link>) returns (lines: seq<ErLine>)
    ensures lines == ConnectsEdges(Relation(links))
  {
    lines := [];
    var i := 0;
    while i < |links|
      invariant 0 <= i <= |links|
      invariant lines == ConnectsEdges(Relation(links[..i]))
    {
      var edges := EmitLinkConnects(links[i]);
      RelationStep(links, i);
      ConnectsEdgesAppend(Relation(links[..i]), RelationOf(links[i]));
      lines := lines + edges;
      i := i + 1;
    }
    assert links[..|links|] == links;
  }

  /** The inner loop: one `connects` edge per Hub of one Link. */
  method EmitLinkConnects(link: Link) returns (edges: seq<ErLine>)
    ensures edges == ConnectsEdges(RelationOf(link))
  {
    ghost var pairs := RelationOf(link);
    edges := [];
    var j := 0;
    while j < |link.hubs|
      invariant 0 <= j <= |link.hubs|
      invariant edges == ConnectsEdges(pairs[..j])
    {
      assert pairs[..j + 1] == pairs[..j] + [(link.hubs[j], link)];
      ConnectsEdgesAppend(pairs[..j], [(link.hubs[j], link)]);
      edges := edges + [Connects(link.hubs[j].name, link.name)];
      j := j + 1;
    }
    assert pairs[..|link.hubs|] == pairs;
  }

  /** The second lookup of each Satellite's parent, for its edge. */
  method EmitDescribes(sats: seq<Satellite>, maps: NameMaps) returns (lines: seq<ErLine>)
    ensures lines == DescribesEdges(Described(sats, maps))
  {
    lines := [];
    var i := 0;
    while i < |sats|
      invariant 0 <= i <= |sats|
      invariant lines == DescribesEdges(Described(sats[..i], maps))
    {
      var s := sats[i];
      var parentName := ResolveParent(s, maps);
      DescribesStep(sats, maps, i);
      if parentName.Some? {
        lines := lines + [Describes(parentName.value, s.name)];
      }
      i := i + 1;
    }
    assert sats[..|sats|] == sats;
  }

  /** The body of the `try` block: the name maps, every entity block, then every edge. */
  method RenderEr(g: Graph) returns (lines: seq<ErLine>)
    ensures lines == ErDocument(g)
  {
    var maps := NameMaps(NameMap(HubEntries(g.hubs)), NameMap(LinkEntries(g.links)));
    var hubBlocks := EmitHubs(g.hubs);
    var linkBlocks := EmitLinks(g.links);
    var satBlocks := EmitSatellites(g.satellites, maps);
    var connects := EmitConnects(g.links);
    var describes := EmitDescribes(g.satellites, maps);
    lines := [Header] + hubBlocks + linkBlocks + satBlocks + (connects + describes);
  }

  /** What the stored tables look like to the view: read, or a query that raised with a message. */
  datatype Fetch = Fetched(g: Graph) | FetchFailed(reason: string)

  /**
   * `visualize_model`: the joined diagram and no error, or, when the
   * queries raise, an empty diagram and the error message.
   */
  method VisualizeModel(fetch: Fetch) returns (mermaidData: string, errorMessage: Option<string>)
    ensures fetch.Fetched? ==> mermaidData == Join(Texts(ErDocument(fetch.g)), "\n") && errorMessage == None
    ensures fetch.Fetched? ==> |mermaidData| >= 9 && mermaidData[..9] == "erDiagram"
    ensures fetch.FetchFailed? ==> mermaidData == "" && errorMessage == Some(ErrorPrefix + fetch.reason)
  {
    match fetch
    case Fetched(g) =>
      var lines := RenderEr(g);
      var texts := Texts(lines);
      JoinStartsWithFirst(texts, "\n");
      mermaidData := Join(texts, "\n");
      errorMessage := None;
    case FetchFailed(reason) =>
      mermaidData := "";
      errorMessage := Some(ErrorPrefix + reason);
  }

  // ---------------------------------------------------------------------
  // Properties of the diagram

  /** Appending to a common prefix: equal results exactly when the suffixes are equal. */
  lemma PrefixCancel(a: string, x: string, y: string)
    ensures a + x == a + y <==> x == y
  {
    if a + x == a + y {
      assert x == (a + x)[|a|..];
      assert y == (a + y)[|a|..];
    }
  }

  /** Two hash-key lines read the same exactly when their sanitised names are the same. */
  lemma HashKeyTextInjective(a: string, b: string)
    ensures LineText(HashKey(a)) == LineText(HashKey(b)) <==> a == b
  {
    PrefixCancel(HashKeyPrefix, a, b);
  }

  /**
   * A Satellite's own `HK_DIFF` field directly follows the optional parent
   * key, and no other line of its block is `HK_DIFF` except the parent key
   * of a parent whose sanitised name is `DIFF`.
   */
  lemma HkDiffPlacement(s: Satellite, maps: NameMaps, j: nat)
    requires j < |SatBlock(s, maps)| && j != 1 + |ParentField(s, maps)|
    ensures SatBlock(s, maps)[j] == HkDiff <==>
      j == 1 && ResolveParent(s, maps).Some? && SubNonWord(ResolveParent(s, maps).value) == "DIFF"
  {
    var parent := ParentField(s, maps);
    HkDiffInBlock(s.name, parent, ParseForRender(s.attributes), j);
  }

  lemma HkDiffInBlock(name: string, parent: seq<ErLine>, attrs: seq<Attr>, j: nat)
    requires j < 5 + |parent| + |attrs| && j != 1 + |parent|
    ensures SatBlockWith(name, parent, attrs)[j] == HkDiff <==> 1 <= j <= |parent| && parent[j - 1] == HkDiff
  {
    var r := SatBlockWith(name, parent, attrs);
    var p := |parent|;
    SatBlockLayout(name, parent, attrs);
    if 2 + p <= j < 2 + p + |attrs| {
      assert r[j] == r[2 + p..|r| - 3][j - 2 - p] == AttributeLine(attrs[j - 2 - p]);
    } else if j >= 2 + p + |attrs| {
      assert r[j] == r[|r| - 3..][j - (|r| - 3)];
    } else if 1 <= j <= p {
      assert r[j] == r[1..1 + p][j - 1];
    }
  }

  /**
   * The parent key in a Satellite block names the parent with `re.sub`, the
   * parent's own block with `replace`: the two hash-key lines read the same
   * exactly when the parent's name has no non-word character but single spaces.
   */
  lemma ParentKeyMatchesOwnKey(parentName: string)
    ensures LineText(HashKey(SubNonWord(parentName))) == LineText(HashKey(ReplaceSpaces(parentName))) <==>
      SingleSpaces(parentName)
  {
    HashKeyTextInjective(SubNonWord(parentName), ReplaceSpaces(parentName));
    SanitisersAgreeIff(parentName);
  }

  /** Each `connects` edge names a Link and one of its own Hubs. */
  lemma ConnectsEdgeFrom(links: seq<Link>, k: nat)
    requires k < |ConnectsEdges(Relation(links))|
    ensures exists h, l :: l in links && h in l.hubs && ConnectsEdges(Relation(links))[k] == Connects(h.name, l.name)
  {
    var pair := Relation(links)[k];
    RelationPairs(links, pair.0, pair.1);
    ConnectsEdgesAt(Relation(links), k);
  }

  /** Each `describes` edge names a Satellite and the parent it resolves to. */
  lemma DescribesEdgeFrom(sats: seq<Satellite>, maps: NameMaps, k: nat)
    requires k < |DescribesEdges(Described(sats, maps))|
    ensures exists p, s ::
      s in sats && ResolveParent(s, maps) == Some(p) && DescribesEdges(Described(sats, maps))[k] == Describes(p, s.name)
  {
    var pair := Described(sats, maps)[k];
    DescribedPairs(sats, maps, pair.0, pair.1);
    DescribesEdgesAt(Described(sats, maps), k);
    var s :| s in sats && s.name == pair.1 && ResolveParent(s, maps) == Some(pair.0);
  }

  /** The first edges are the `connects` edges, each naming a Hub of its Link. */
  lemma EdgeConnects(g: Graph, k: nat)
    requires k < HubRefCount(g.links)
    ensures exists h, l :: l in g.links && h in l.hubs && EdgeLines(g)[k] == Connects(h.name, l.name)
  {
    var connects := ConnectsEdges(Relation(g.links));
    assert EdgeLines(g)[k] == connects[k];
    ConnectsEdgeFrom(g.links, k);
  }

  /** The remaining edges are the `describes` edges, each naming a Satellite and its resolved parent. */
  lemma EdgeDescribes(g: Graph, k: nat)
    requires HubRefCount(g.links) <= k < |EdgeLines(g)|
    ensures var maps := BuildNameMaps(g);
      exists p, s :: s in g.satellites && ResolveParent(s, maps) == Some(p) && EdgeLines(g)[k] == Describes(p, s.name)
  {
    var maps := BuildNameMaps(g);
    var connects := ConnectsEdges(Relation(g.links));
    var describes := DescribesEdges(Described(g.satellites, maps));
    var d := k - |connects|;
    assert EdgeLines(g) == connects + describes;
    assert EdgeLines(g)[k] == describes[d];
    DescribesEdgeFrom(g.satellites, maps, d);
    var p, s :| s in g.satellites && ResolveParent(s, maps) == Some(p) && describes[d] == Describes(p, s.name);
  }

  /**
   * The edges close the diagram: one `connects` edge per (Hub, Link) pair of
   * the relation, then one `describes` edge per Satellite whose parent
   * resolves, each naming a Hub of the Link, respectively the resolved parent.
   */
  lemma ErEdges(g: Graph, k: nat)
    requires k < |EdgeLines(g)|
    ensures var maps := BuildNameMaps(g); var e := EdgeLines(g)[k];
      (k < HubRefCount(g.links) ==>
        exists h, l :: l in g.links && h in l.hubs && e == Connects(h.name, l.name)) &&
      (k >= HubRefCount(g.links) ==>
        exists p, s :: s in g.satellites && ResolveParent(s, maps) == Some(p) && e == Describes(p, s.name))
  {
    if k < HubRefCount(g.links) {
      EdgeConnects(g, k);
    } else {
      EdgeDescribes(g, k);
    }
  }

  /** The edges follow every entity block. */
  lemma EdgesFollowEntities(g: Graph, k: nat)
    requires k < |EdgeLines(g)|
    ensures |ErDocument(g)| == |EntityLines(g)| + |EdgeLines(g)|
    ensures ErDocument(g)[|EntityLines(g)| + k] == EdgeLines(g)[k]
  {
  }

  lemma {:induction false} HubBlockDeclared(hubs: seq<Hub>, h: Hub)
    requires h in hubs
    ensures EntityOpen(h.name) in HubBlocks(hubs)
  {
    var init, last := hubs[..|hubs| - 1], hubs[|hubs| - 1];
    assert hubs == init + [last];
    if h != last {
      HubBlockDeclared(init, h);
    } else {
      assert HubBlock(last)[0] in HubBlock(last);
    }
  }

  lemma {:induction false} LinkBlockDeclared(links: seq<Link>, l: Link)
    requires l in links
    ensures EntityOpen(l.name) in LinkBlocks(links)
  {
    var init, last := links[..|links| - 1], links[|links| - 1];
    assert links == init + [last];
    if l != last {
      LinkBlockDeclared(init, l);
    } else {
      assert LinkBlock(last)[0] in LinkBlock(last);
    }
  }

  lemma {:induction false} SatBlockDeclared(sats: seq<Satellite>, maps: NameMaps, s: Satellite)
    requires s in sats
    ensures EntityOpen(s.name) in SatBlocks(sats, maps)
  {
    var init, last := sats[..|sats| - 1], sats[|sats| - 1];
    assert sats == init + [last];
    if s != last {
      SatBlockDeclared(init, maps, s);
    } else {
      assert SatBlock(last, maps)[0] in SatBlock(last, maps);
    }
  }

  /** Each `connects` edge joins the block of a stored Hub to the block of its Link. */
  lemma ConnectsEdgeJoins(hubs: seq<Hub>, links: seq<Link>, k: nat)
    requires forall l :: l in links ==> LinkHubsStored(l, hubs)
    requires k < |ConnectsEdges(Relation(links))|
    ensures var e := ConnectsEdges(Relation(links))[k];
      e.Connects? && EntityOpen(e.hubName) in HubBlocks(hubs) && EntityOpen(e.linkName) in LinkBlocks(links)
  {
    var pair := Relation(links)[k];
    ConnectsEdgesAt(Relation(links), k);
    RelationPairs(links, pair.0, pair.1);
    assert LinkHubsStored(pair.1, hubs);
    var j :| 0 <= j < |pair.1.hubs| && pair.1.hubs[j] == pair.0;
    HubBlockDeclared(hubs, pair.0);
    LinkBlockDeclared(links, pair.1);
  }

  /** Each `describes` edge joins the block of the resolved parent to the block of the Satellite. */
  lemma DescribesEdgeJoins(g: Graph, k: nat)
    requires WellFormed(g) && k < |DescribesEdges(Described(g.satellites, BuildNameMaps(g)))|
    ensures var e := DescribesEdges(Described(g.satellites, BuildNameMaps(g)))[k];
      e.Describes? && EntityOpen(e.parentName) in HubBlocks(g.hubs) + LinkBlocks(g.links) &&
      EntityOpen(e.satName) in SatBlocks(g.satellites, BuildNameMaps(g))
  {
    var maps := BuildNameMaps(g);
    var des := Described(g.satellites, maps);
    var pair := des[k];
    DescribesEdgesAt(des, k);
    DescribedPairs(g.satellites, maps, pair.0, pair.1);
    var s :| s in g.satellites && s.name == pair.1 && ResolveParent(s, maps) == Some(pair.0);
    ResolveFindsStoredParent(g, s, pair.0);
    if s.contentType == HubModel {
      var i :| 0 <= i < |g.hubs| && g.hubs[i].id == s.objectId && g.hubs[i].name == pair.0;
      HubBlockDeclared(g.hubs, g.hubs[i]);
    } else {
      var i :| 0 <= i < |g.links| && g.links[i].id == s.objectId && g.links[i].name == pair.0;
      LinkBlockDeclared(g.links, g.links[i]);
    }
    SatBlockDeclared(g.satellites, maps, s);
  }

  /**
   * In a well-formed graph every edge joins two entity blocks of the
   * diagram: a `connects` edge a stored Hub's block to its Link's block, a
   * `describes` edge the resolved parent's Hub or Link block to the
   * Satellite's block.
   */
  lemma EdgesJoinDeclaredEntities(g: Graph, k: nat)
    requires WellFormed(g) && k < |EdgeLines(g)|
    ensures var e := EdgeLines(g)[k];
      (k < HubRefCount(g.links) ==>
        e.Connects? && EntityOpen(e.hubName) in HubBlocks(g.hubs) && EntityOpen(e.linkName) in LinkBlocks(g.links)) &&
      (k >= HubRefCount(g.links) ==>
        e.Describes? && EntityOpen(e.parentName) in HubBlocks(g.hubs) + LinkBlocks(g.links) &&
        EntityOpen(e.satName) in SatBlocks(g.satellites, BuildNameMaps(g)))
  {
    var c := ConnectsEdges(Relation(g.links));
    var d := DescribesEdges(Described(g.satellites, BuildNameMaps(g)));
    assert EdgeLines(g) == c + d;
    if k < |c| {
      assert EdgeLines(g)[k] == c[k];
      ConnectsEdgeJoins(g.hubs, g.links, k);
    } else {
      assert EdgeLines(g)[k] == d[k - |c|];
      DescribesEdgeJoins(g, k - |c|);
      var e := d[k - |c|];
      assert e.Describes? && EntityOpen(e.parentName) in HubBlocks(g.hubs) + LinkBlocks(g.links);
    }
  }
}
