/**
 * The Mermaid `classDiagram` text of the `visualize_classdiagram` view: one
 * class per Hub, Link and Satellite with every identifier passed through
 * `re.sub(r'\W+', '_', ...)`, the three style definitions, then one arrow
 * per (Hub, Link) pair of the relation and one per Satellite whose parent
 * resolves.
 */
module ClassDiagram {
  import opened Text
  import opened Sanitize
  import opened Models
  import opened Parents
  import opened Attributes

  /** The three `classDef` styles and the `class <id> <style>;` assignments. */
  datatype Style = HubStyle | LinkStyle | SatStyle

  /** One line of `mermaid_lines`, by the f-string that produces it. */
  datatype ClassLine =
    | Header
    | ClassOpen(id: string)
    | HkMember(id: string)
    | KeyMember(n: nat, safeKey: string)
    | LoadDateMember
    | RecordSourceMember
    | AttributeMember(safeName: string)
    | ClassClose
    | StyleAssign(id: string, style: Style)
    | StyleDef(style: Style)
    | Arrow(source: string, target: string)

  function StyleName(s: Style): string {
    match s
    case HubStyle => "hub"
    case LinkStyle => "link"
    case SatStyle => "sat"
  }

  function Fill(s: Style): string {
    match s
    case HubStyle => "#cfe2ff"
    case LinkStyle => "#fff3cd"
    case SatStyle => "#fff9db"
  }

  function Stroke(s: Style): string {
    match s
    case HubStyle => "#084298"
    case LinkStyle => "#b45309"
    case SatStyle => "#b6a100"
  }

  /** The text of a line. */
  function LineText(l: ClassLine): string {
    match l
    case Header => "classDiagram"
    case ClassOpen(id) => "class " + id + " {"
    case HkMember(id) => "    +HK_" + id
    case KeyMember(n, safeKey) => "    +key_" + NatToString(n) + "_" + safeKey
    case LoadDateMember => "    +load_date"
    case RecordSourceMember => "    +record_source"
    case AttributeMember(safeName) => "    +" + safeName
    case ClassClose => "}"
    case StyleAssign(id, style) => "class " + id + " " + StyleName(style) + ";"
    case StyleDef(style) =>
      "classDef " + StyleName(style) + " fill:" + Fill(style) + ",stroke:" + Stroke(style) + ",stroke-width:2px;"
    case Arrow(source, target) => source + " --> " + target
  }

  function Texts(lines: seq<ClassLine>): (r: seq<string>)
    ensures |r| == |lines| && forall i :: 0 <= i < |lines| ==> r[i] == LineText(lines[i])
  {
    seq(|lines|, i requires 0 <= i < |lines| => LineText(lines[i]))
  }

  const StyleDefs: seq<ClassLine> := [StyleDef(HubStyle), StyleDef(LinkStyle), StyleDef(SatStyle)]

  const Audit: seq<ClassLine> := [LoadDateMember, RecordSourceMember, ClassClose]


  /** The business-key members, numbered from 1, each key sanitised. */
  function KeyMembers(keys: seq<string>): (r: seq<ClassLine>)
    ensures |r| == |keys|
    ensures forall i :: 0 <= i < |keys| ==> r[i] == KeyMember(i + 1, SubNonWord(keys[i]))
  {
    if keys == [] then []
    else KeyMembers(keys[..|keys| - 1]) + [KeyMember(|keys|, SubNonWord(keys[|keys| - 1]))]
  }

  /** One more key adds its member, numbered after the others. */
  lemma KeyMembersStep(keys: seq<string>, i: nat)
    requires i < |keys|
    ensures KeyMembers(keys[..i + 1]) == KeyMembers(keys[..i]) + [KeyMember(i + 1, SubNonWord(keys[i]))]
  {
    assert keys[..i + 1][..i] == keys[..i];
  }

  function HubClass(h: Hub): (r: seq<ClassLine>)
    ensures |r| == 6 + |BusinessKeys(h)|
    ensures r[0] == ClassOpen(SubNonWord(h.name)) && r[1] == HkMember(SubNonWord(h.name))
    ensures r[|r| - 1] == StyleAssign(SubNonWord(h.name), HubStyle)
  {
    [ClassOpen(SubNonWord(h.name)), HkMember(SubNonWord(h.name))] + KeyMembers(BusinessKeys(h)) + Audit +
    [StyleAssign(SubNonWord(h.name), HubStyle)]
  }

  /** The hash-key members of the Hubs a Link relates; the Link has no hash key of its own. */
  function HubMembers(hubs: seq<Hub>): (r: seq<ClassLine>)
    ensures |r| == |hubs|
    ensures forall i :: 0 <= i < |hubs| ==> r[i] == HkMember(SubNonWord(hubs[i].name))
  {
    if hubs == [] then []
    else HubMembers(hubs[..|hubs| - 1]) + [HkMember(SubNonWord(hubs[|hubs| - 1].name))]
  }

  lemma HubMembersStep(hubs: seq<Hub>, i: nat)
    requires i < |hubs|
    ensures HubMembers(hubs[..i + 1]) == HubMembers(hubs[..i]) + [HkMember(SubNonWord(hubs[i].name))]
  {
    assert hubs[..i + 1][..i] == hubs[..i];
  }

  function LinkClass(l: Link): (r: seq<ClassLine>)
    ensures |r| == 5 + |l.hubs|
    ensures r[0] == ClassOpen(SubNonWord(l.name)) && r[|r| - 1] == StyleAssign(SubNonWord(l.name), LinkStyle)
  {
    [ClassOpen(SubNonWord(l.name))] + HubMembers(l.hubs) + Audit + [StyleAssign(SubNonWord(l.name), LinkStyle)]
  }

  /** The parent's hash-key member of a Satellite: present exactly when its parent resolves. */
  function ParentMember(s: Satellite, maps: NameMaps): (r: seq<ClassLine>)
    ensures |r| <= 1
    ensures |r| == 1 <==> ResolveParent(s, maps).Some?
    ensures |r| == 1 ==> r[0] == HkMember(SubNonWord(ResolveParent(s, maps).value))
  {
    match ResolveParent(s, maps)
    case Some(p) => [HkMember(SubNonWord(p))]
    case None => []
  }

  function AttributeMembers(attrs: seq<Attr>): (r: seq<ClassLine>)
    ensures |r| == |attrs|
    ensures forall i :: 0 <= i < |attrs| ==> r[i] == AttributeMember(SubNonWord(attrs[i].name))
  {
    if attrs == [] then []
    else AttributeMembers(attrs[..|attrs| - 1]) + [AttributeMember(SubNonWord(attrs[|attrs| - 1].name))]
  }

  lemma AttributeMembersStep(attrs: seq<Attr>, i: nat)
    requires i < |attrs|
    ensures AttributeMembers(attrs[..i + 1]) == AttributeMembers(attrs[..i]) + [AttributeMember(SubNonWord(attrs[i].name))]
  {
    assert attrs[..i + 1][..i] == attrs[..i];
  }

  /** A Satellite class around its parent member and its attribute list. */
  function SatClassWith(id: string, parent: seq<ClassLine>, attrs: seq<Attr>): (r: seq<ClassLine>)
    ensures |r| == 6 + |parent| + |attrs|
    ensures r[0] == ClassOpen(id) && r[1 + |parent|] == HkMember("DIFF")
    ensures r[|r| - 1] == StyleAssign(id, SatStyle)
  {
    [ClassOpen(id)] + parent + [HkMember("DIFF")] + AttributeMembers(attrs) + Audit + [StyleAssign(id, SatStyle)]
  }

  function SatClass(s: Satellite, maps: NameMaps): seq<ClassLine> {
    SatClassWith(SubNonWord(s.name), ParentMember(s, maps), ParseForRender(s.attributes))
  }

  function HubClasses(hubs: seq<Hub>): seq<ClassLine> {
    if hubs == [] then [] else HubClasses(hubs[..|hubs| - 1]) + HubClass(hubs[|hubs| - 1])
  }

  function LinkClasses(links: seq<Link>): seq<ClassLine> {
    if links == [] then [] else LinkClasses(links[..|links| - 1]) + LinkClass(links[|links| - 1])
  }

  function SatClasses(sats: seq<Satellite>, maps: NameMaps): seq<ClassLine> {
    if sats == [] then [] else SatClasses(sats[..|sats| - 1], maps) + SatClass(sats[|sats| - 1], maps)
  }

  /** Each loop over the stored rows extends the lines of the rows before by the class of the next row. */
  lemma HubClassesStep(hubs: seq<Hub>, i: nat)
    requires i < |hubs|
    ensures HubClasses(hubs[..i + 1]) == HubClasses(hubs[..i]) + HubClass(hubs[i])
  {
    assert hubs[..i + 1][..i] == hubs[..i];
  }

  lemma LinkClassesStep(links: seq<Link>, i: nat)
    requires i < |links|
    ensures LinkClasses(links[..i + 1]) == LinkClasses(links[..i]) + LinkClass(links[i])
  {
    assert links[..i + 1][..i] == links[..i];
  }

  lemma SatClassesStep(sats: seq<Satellite>, maps: NameMaps, i: nat)
    requires i < |sats|
    ensures SatClasses(sats[..i + 1], maps) == SatClasses(sats[..i], maps) + SatClass(sats[i], maps)
  {
    assert sats[..i + 1][..i] == sats[..i];
  }

  /** One arrow per (Hub, Link) pair, from the Hub's class to the Link's. */
  function RelationArrows(pairs: seq<(Hub, Link)>): (r: seq<ClassLine>)
    ensures |r| == |pairs|
  {
    if pairs == [] then []
    else
      var last := pairs[|pairs| - 1];
      RelationArrows(pairs[..|pairs| - 1]) + [Arrow(SubNonWord(last.0.name), SubNonWord(last.1.name))]
  }

  /** One arrow per (parent, Satellite) pair, from the parent's class to the Satellite's. */
  function ParentArrows(pairs: seq<(string, string)>): (r: seq<ClassLine>)
    ensures |r| == |pairs|
  {
    if pairs == [] then []
    else
      var last := pairs[|pairs| - 1];
      ParentArrows(pairs[..|pairs| - 1]) + [Arrow(SubNonWord(last.0), SubNonWord(last.1))]
  }

  lemma {:induction false} RelationArrowsAppend(a: seq<(Hub, Link)>, b: seq<(Hub, Link)>)
    ensures RelationArrows(a + b) == RelationArrows(a) + RelationArrows(b)
  {
    if b == [] {
      assert a + b == a;
    } else {
      var init := b[..|b| - 1];
      assert (a + b)[..|a + b| - 1] == a + init;
      RelationArrowsAppend(a, init);
    }
  }

  lemma {:induction false} ParentArrowsAppend(a: seq<(string, string)>, b: seq<(string, string)>)
    ensures ParentArrows(a + b) == ParentArrows(a) + ParentArrows(b)
  {
    if b == [] {
      assert a + b == a;
    } else {
      var init := b[..|b| - 1];
      assert (a + b)[..|a + b| - 1] == a + init;
      ParentArrowsAppend(a, init);
    }
  }

  /** The arrows of the first `i + 1` Satellites: those of the first `i`, then Satellite `i`'s arrow if its parent resolves. */
  lemma ParentArrowsStep(sats: seq<Satellite>, maps: NameMaps, i: nat)
    requires i < |sats|
    ensures ResolveParent(sats[i], maps).None? ==>
      ParentArrows(Described(sats[..i + 1], maps)) == ParentArrows(Described(sats[..i], maps))
    ensures ResolveParent(sats[i], maps).Some? ==>
      ParentArrows(Described(sats[..i + 1], maps)) ==
        ParentArrows(Described(sats[..i], maps)) + [Arrow(SubNonWord(ResolveParent(sats[i], maps).value), SubNonWord(sats[i].name))]
  {
    DescribedStep(sats, maps, i);
    if ResolveParent(sats[i], maps).Some? {
      ParentArrowsAppend(Described(sats[..i], maps), [(ResolveParent(sats[i], maps).value, sats[i].name)]);
    }
  }

  /** The header and the class blocks. */
  function ClassLines(g: Graph): seq<ClassLine> {
    var maps := BuildNameMaps(g);
    [Header] + HubClasses(g.hubs) + LinkClasses(g.links) + SatClasses(g.satellites, maps)
  }

  /** The arrows of the class diagram: every relation arrow, then every parent arrow. */
  function ArrowLines(g: Graph): (r: seq<ClassLine>)
    ensures |r| == HubRefCount(g.links) + |Described(g.satellites, BuildNameMaps(g))|
  {
    RelationArrows(Relation(g.links)) + ParentArrows(Described(g.satellites, BuildNameMaps(g)))
  }

  /** The lines of the class diagram of the stored tables: classes, styles, arrows. */
  function ClassDocument(g: Graph): seq<ClassLine> {
    ClassLines(g) + StyleDefs + ArrowLines(g)
  }

  // ---------------------------------------------------------------------
  // The view

  method EmitHub(h: Hub) returns (block: seq<ClassLine>)
    ensures block == HubClass(h)
  {
    var safeName := SubNonWord(h.name);
    block := [ClassOpen(safeName), HkMember(safeName)];
    var members := EmitKeyMembers(BusinessKeys(h));
    block := block + members + Audit + [StyleAssign(safeName, HubStyle)];
  }

  /** The loop over one Hub's business keys. */
  method EmitKeyMembers(keys: seq<string>) returns (members: seq<ClassLine>)
    ensures members == KeyMembers(keys)
  {
    members := [];
    var i := 0;
    while i < |keys|
      invariant 0 <= i <= |keys|
      invariant members == KeyMembers(keys[..i])
    {
      KeyMembersStep(keys, i);
      var safeKey := SubNonWord(keys[i]);
      members := members + [KeyMember(i + 1, safeKey)];
      i := i + 1;
    }
    assert keys[..|keys|] == keys;
  }

  method EmitLink(l: Link) returns (block: seq<ClassLine>)
    ensures block == LinkClass(l)
  {
    var safeName := SubNonWord(l.name);
    block := [ClassOpen(safeName)];
    var i := 0;
    while i < |l.hubs|
      invariant 0 <= i <= |l.hubs|
      invariant block == [ClassOpen(safeName)] + HubMembers(l.hubs[..i])
    {
      HubMembersStep(l.hubs, i);
      var safeHub := SubNonWord(l.hubs[i].name);
      block := block + [HkMember(safeHub)];
      i := i + 1;
    }
    assert l.hubs[..|l.hubs|] == l.hubs;
    block := block + Audit + [StyleAssign(safeName, LinkStyle)];
  }

  method EmitAttributes(attrs: seq<Attr>) returns (members: seq<ClassLine>)
    ensures members == AttributeMembers(attrs)
  {
    members := [];
    var i := 0;
    while i < |attrs|
      invariant 0 <= i <= |attrs|
      invariant members == AttributeMembers(attrs[..i])
    {
      AttributeMembersStep(attrs, i);
      var safeAttr := SubNonWord(attrs[i].name);
      members := members + [AttributeMember(safeAttr)];
      i := i + 1;
    }
    assert attrs[..|attrs|] == attrs;
  }

  /**
   * The parent lookup of a Satellite class: the sanitised parent name when
   * it is found and non-empty, else `""`.
   */
  method ParentFk(s: Satellite, maps: NameMaps) returns (parentFk: string)
    ensures parentFk != "" <==> ResolveParent(s, maps).Some?
    ensures parentFk != "" ==> parentFk == SubNonWord(ResolveParent(s, maps).value)
  {
    parentFk := "";
    if s.contentType == HubModel {
      if s.objectId in maps.hubNames && maps.hubNames[s.objectId] != "" {
        parentFk := SubNonWord(maps.hubNames[s.objectId]);
      }
    } else if s.contentType == LinkModel {
      if s.objectId in maps.linkNames && maps.linkNames[s.objectId] != "" {
        parentFk := SubNonWord(maps.linkNames[s.objectId]);
      }
    }
  }

  method EmitSatellite(s: Satellite, maps: NameMaps) returns (block: seq<ClassLine>)
    ensures block == SatClass(s, maps)
  {
    var safeName := SubNonWord(s.name);
    block := [ClassOpen(safeName)];
    var parentFk := ParentFk(s, maps);
    // `parent_fk` is `HK_<safe>`, never empty once set, so its truth test is whether it was set.
    if parentFk != "" {
      block := block + [HkMember(parentFk)];
    }
    assert block == [ClassOpen(safeName)] + ParentMember(s, maps);
    block := block + [HkMember("DIFF")];
    var members := EmitAttributes(ParseForRender(s.attributes));
    block := block + members + Audit + [StyleAssign(safeName, SatStyle)];
  }

  method EmitHubs(hubs: seq<Hub>) returns (lines: seq<ClassLine>)
    ensures lines == HubClasses(hubs)
  {
    lines := [];
    var i := 0;
    while i < |hubs|
      invariant 0 <= i <= |hubs|
      invariant lines == HubClasses(hubs[..i])
    {
      HubClassesStep(hubs, i);
      var block := EmitHub(hubs[i]);
      lines := lines + block;
      i := i + 1;
    }
    assert hubs[..|hubs|] == hubs;
  }

  method EmitLinks(links: seq<Link>) returns (lines: seq<ClassLine>)
    ensures lines == LinkClasses(links)
  {
    lines := [];
    var i := 0;
    while i < |links|
      invariant 0 <= i <= |links|
      invariant lines == LinkClasses(links[..i])
    {
      LinkClassesStep(links, i);
      var block := EmitLink(links[i]);
      lines := lines + block;
      i := i + 1;
    }
    assert links[..|links|] == links;
  }

  method EmitSatellites(sats: seq<Satellite>, maps: NameMaps) returns (lines: seq<ClassLine>)
    ensures lines == SatClasses(sats, maps)
  {
    lines := [];
    var i := 0;
    while i < |sats|
      invariant 0 <= i <= |sats|
      invariant lines == SatClasses(sats[..i], maps)
    {
      SatClassesStep(sats, maps, i);
      var block := EmitSatellite(sats[i], maps);
      lines := lines + block;
      i := i + 1;
    }
    assert sats[..|sats|] == sats;
  }

  /** The nested loops over each Link's Hubs. */
  method EmitRelationArrows(links: seq<Link>) returns (lines: seq<ClassLine>)
    ensures lines == RelationArrows(Relation(links))
  {
    lines := [];
    var i := 0;
    while i < |links|
      invariant 0 <= i <= |links|
      invariant lines == RelationArrows(Relation(links[..i]))
    {
      var arrows := EmitLinkArrows(links[i]);
      RelationStep(links, i);
      RelationArrowsAppend(Relation(links[..i]), RelationOf(links[i]));
      lines := lines + arrows;
      i := i + 1;
    }
    assert links[..|links|] == links;
  }

  /** The inner loop: one arrow per Hub of one Link. */
  method EmitLinkArrows(link: Link) returns (arrows: seq<ClassLine>)
    ensures arrows == RelationArrows(RelationOf(link))
  {
    ghost var pairs := RelationOf(link);
    var safeLink := SubNonWord(link.name);
    arrows := [];
    var j := 0;
    while j < |link.hubs|
      invariant 0 <= j <= |link.hubs|
      invariant arrows == RelationArrows(pairs[..j])
    {
      assert pairs[..j + 1] == pairs[..j] + [(link.hubs[j], link)];
      RelationArrowsAppend(pairs[..j], [(link.hubs[j], link)]);
      var safeHub := SubNonWord(link.hubs[j].name);
      arrows := arrows + [Arrow(safeHub, safeLink)];
      j := j + 1;
    }
    assert pairs[..|link.hubs|] == pairs;
  }

  /** The second lookup of each Satellite's parent, for its arrow. */
  method EmitParentArrows(sats: seq<Satellite>, maps: NameMaps) returns (lines: seq<ClassLine>)
    ensures lines == ParentArrows(Described(sats, maps))
  {
    lines := [];
    var i := 0;
    while i < |sats|
      invariant 0 <= i <= |sats|
      invariant lines == ParentArrows(Described(sats[..i], maps))
    {
      var s := sats[i];
      var safeSat := SubNonWord(s.name);
      var parent := ResolveParent(s, maps);
      ParentArrowsStep(sats, maps, i);
      if parent.Some? {
        var safeParent := SubNonWord(parent.value);
        lines := lines + [Arrow(safeParent, safeSat)];
      }
      i := i + 1;
    }
    assert sats[..|sats|] == sats;
  }

  /** The lines the view collects: the name maps, every class, the styles, then every arrow. */
  method RenderClasses(g: Graph) returns (lines: seq<ClassLine>)
    ensures lines == ClassDocument(g)
  {
    var maps := NameMaps(NameMap(HubEntries(g.hubs)), NameMap(LinkEntries(g.links)));
    var hubClasses := EmitHubs(g.hubs);
    var linkClasses := EmitLinks(g.links);
    var satClasses := EmitSatellites(g.satellites, maps);
    var relationArrows := EmitRelationArrows(g.links);
    var parentArrows := EmitParentArrows(g.satellites, maps);
    lines := [Header] + hubClasses + linkClasses + satClasses + StyleDefs + (relationArrows + parentArrows);
  }

  /** `visualize_classdiagram`: classes, then the style definitions, then the arrows, joined. */
  method VisualizeClassDiagram(g: Graph) returns (mermaidData: string)
    ensures mermaidData == Join(Texts(ClassDocument(g)), "\n")
    ensures |mermaidData| >= 12 && mermaidData[..12] == "classDiagram"
  {
    var lines := RenderClasses(g);
    var texts := Texts(lines);
    JoinStartsWithFirst(texts, "\n");
    mermaidData := Join(texts, "\n");
  }

  // ---------------------------------------------------------------------
  // Properties of the diagram

  lemma HubMembersHold(hubs: seq<Hub>, id: string)
    ensures HkMember(id) in HubMembers(hubs) <==> exists h :: h in hubs && SubNonWord(h.name) == id
  {
    var r := HubMembers(hubs);
    if HkMember(id) in r {
      var i :| 0 <= i < |r| && r[i] == HkMember(id);
      assert hubs[i] in hubs;
    }
    if exists h :: h in hubs && SubNonWord(h.name) == id {
      var h :| h in hubs && SubNonWord(h.name) == id;
      var i :| 0 <= i < |hubs| && hubs[i] == h;
      assert r[i] == HkMember(id);
    }
  }

  /**
   * A Link class lists the hash keys of its Hubs but not one of its own: its
   * own `HK_` member appears only when one of its Hubs sanitises to the
   * Link's identifier.
   */
  lemma LinkHasNoOwnKey(l: Link)
    ensures HkMember(SubNonWord(l.name)) in LinkClass(l) <==>
      exists h :: h in l.hubs && SubNonWord(h.name) == SubNonWord(l.name)
  {
    HubMembersHold(l.hubs, SubNonWord(l.name));
    assert LinkClass(l) == [ClassOpen(SubNonWord(l.name))] + HubMembers(l.hubs) + (Audit + [StyleAssign(SubNonWord(l.name), LinkStyle)]);
  }

  /** A line whose text has no `>`: not an arrow, and every identifier in it made of word characters. */
  predicate Plain(l: ClassLine) {
    match l
    case Header => true
    case ClassOpen(id) => AllWord(id)
    case HkMember(id) => AllWord(id)
    case KeyMember(_, safeKey) => AllWord(safeKey)
    case LoadDateMember => true
    case RecordSourceMember => true
    case AttributeMember(safeName) => AllWord(safeName)
    case ClassClose => true
    case StyleAssign(id, _) => AllWord(id)
    case StyleDef(_) => true
    case Arrow(_, _) => false
  }

  lemma WordHasNoArrowHead(s: string)
    requires AllWord(s) || AllDigits(s)
    ensures '>' !in s
  {
  }

  lemma StyleDefHasNoArrowHead(style: Style)
    ensures '>' !in LineText(StyleDef(style))
  {
    var name, fill, stroke := StyleName(style), Fill(style), Stroke(style);
    assert '>' !in name && '>' !in fill && '>' !in stroke;
    assert '>' !in "classDef " && '>' !in " fill:" && '>' !in ",stroke:" && '>' !in ",stroke-width:2px;";
    var a := "classDef " + name;
    var b := a + " fill:";
    var c := b + fill;
    var d := c + ",stroke:";
    var e := d + stroke;
    assert '>' !in a && '>' !in b && '>' !in c && '>' !in d && '>' !in e;
  }

  /** The text of a line holds `>` exactly when the line is an arrow, given word-character identifiers. */
  lemma ArrowHeadOnlyInArrows(l: ClassLine)
    requires l.Arrow? || Plain(l)
    ensures '>' in LineText(l) <==> l.Arrow?
  {
    match l
    case Header =>
    case ClassOpen(id) => WordHasNoArrowHead(id);
    case HkMember(id) => WordHasNoArrowHead(id);
    case KeyMember(n, safeKey) => KeyMemberHasNoArrowHead(n, safeKey);
    case LoadDateMember =>
    case RecordSourceMember =>
    case AttributeMember(safeName) => WordHasNoArrowHead(safeName);
    case ClassClose =>
    case StyleAssign(id, style) => WordHasNoArrowHead(id);
    case StyleDef(style) => StyleDefHasNoArrowHead(style);
    case Arrow(source, target) => ArrowHasArrowHead(source, target);
  }

  lemma KeyMemberHasNoArrowHead(n: nat, safeKey: string)
    requires AllWord(safeKey)
    ensures '>' !in LineText(KeyMember(n, safeKey))
  {
    WordHasNoArrowHead(safeKey);
    WordHasNoArrowHead(NatToString(n));
    var a := "    +key_" + NatToString(n);
    assert '>' !in a;
  }

  lemma ArrowHasArrowHead(source: string, target: string)
    ensures '>' in LineText(Arrow(source, target))
  {
    assert LineText(Arrow(source, target))[|source| + 3] == '>';
  }

  lemma {:induction false} KeyMembersPlain(keys: seq<string>)
    ensures forall m :: m in KeyMembers(keys) ==> Plain(m)
  {
    if keys != [] {
      KeyMembersPlain(keys[..|keys| - 1]);
    }
  }

  lemma {:induction false} HubMembersPlain(hubs: seq<Hub>)
    ensures forall m :: m in HubMembers(hubs) ==> Plain(m)
  {
    if hubs != [] {
      HubMembersPlain(hubs[..|hubs| - 1]);
    }
  }

  lemma {:induction false} AttributeMembersPlain(attrs: seq<Attr>)
    ensures forall m :: m in AttributeMembers(attrs) ==> Plain(m)
  {
    if attrs != [] {
      AttributeMembersPlain(attrs[..|attrs| - 1]);
    }
  }

  lemma {:induction false} HubClassesPlain(hubs: seq<Hub>)
    ensures forall m :: m in HubClasses(hubs) ==> Plain(m)
  {
    if hubs != [] {
      HubClassesPlain(hubs[..|hubs| - 1]);
      KeyMembersPlain(BusinessKeys(hubs[|hubs| - 1]));
    }
  }

  lemma {:induction false} LinkClassesPlain(links: seq<Link>)
    ensures forall m :: m in LinkClasses(links) ==> Plain(m)
  {
    if links != [] {
      LinkClassesPlain(links[..|links| - 1]);
      HubMembersPlain(links[|links| - 1].hubs);
    }
  }

  lemma SatClassPlain(id: string, parent: seq<ClassLine>, attrs: seq<Attr>)
    requires AllWord(id) && forall m :: m in parent ==> Plain(m)
    ensures forall m :: m in SatClassWith(id, parent, attrs) ==> Plain(m)
  {
    AttributeMembersPlain(attrs);
    assert AllWord("DIFF");
  }

  lemma {:induction false} SatClassesPlain(sats: seq<Satellite>, maps: NameMaps)
    ensures forall m :: m in SatClasses(sats, maps) ==> Plain(m)
  {
    if sats != [] {
      SatClassesPlain(sats[..|sats| - 1], maps);
      var s := sats[|sats| - 1];
      SatClassPlain(SubNonWord(s.name), ParentMember(s, maps), ParseForRender(s.attributes));
    }
  }

  lemma {:induction false} RelationArrowsAreArrows(pairs: seq<(Hub, Link)>)
    ensures forall m :: m in RelationArrows(pairs) ==> m.Arrow?
  {
    if pairs != [] {
      RelationArrowsAreArrows(pairs[..|pairs| - 1]);
    }
  }

  lemma {:induction false} ParentArrowsAreArrows(pairs: seq<(string, string)>)
    ensures forall m :: m in ParentArrows(pairs) ==> m.Arrow?
  {
    if pairs != [] {
      ParentArrowsAreArrows(pairs[..|pairs| - 1]);
    }
  }

  lemma ArrowHeadsAfterStyles(classes: seq<ClassLine>, arrows: seq<ClassLine>, k: nat)
    requires forall m :: m in classes ==> Plain(m)
    requires forall m :: m in arrows ==> m.Arrow?
    requires k < |classes + StyleDefs + arrows|
    ensures '>' in LineText((classes + StyleDefs + arrows)[k]) <==> k >= |classes| + |StyleDefs|
  {
    var doc := classes + StyleDefs + arrows;
    if k < |classes| {
      assert doc[k] == classes[k] && classes[k] in classes;
    } else if k < |classes| + |StyleDefs| {
      assert doc[k] == StyleDefs[k - |classes|];
    } else {
      assert doc[k] == arrows[k - |classes| - |StyleDefs|];
    }
    ArrowHeadOnlyInArrows(doc[k]);
  }

  /**
   * The arrows come last: the text of a line holds `>` exactly when the line
   * follows every class block and all three style definitions.
   */
  lemma ArrowsComeLast(g: Graph, k: nat)
    requires k < |ClassDocument(g)|
    ensures '>' in LineText(ClassDocument(g)[k]) <==> k >= |ClassLines(g)| + |StyleDefs|
  {
    var maps := BuildNameMaps(g);
    HubClassesPlain(g.hubs);
    LinkClassesPlain(g.links);
    SatClassesPlain(g.satellites, maps);
    RelationArrowsAreArrows(Relation(g.links));
    ParentArrowsAreArrows(Described(g.satellites, maps));
    ArrowHeadsAfterStyles(ClassLines(g), ArrowLines(g), k);
  }

  lemma {:induction false} RelationArrowsAt(pairs: seq<(Hub, Link)>, k: nat)
    requires k < |pairs|
    ensures RelationArrows(pairs)[k] == Arrow(SubNonWord(pairs[k].0.name), SubNonWord(pairs[k].1.name))
  {
    if k < |pairs| - 1 {
      RelationArrowsAt(pairs[..|pairs| - 1], k);
    }
  }

  lemma {:induction false} ParentArrowsAt(pairs: seq<(string, string)>, k: nat)
    requires k < |pairs|
    ensures ParentArrows(pairs)[k] == Arrow(SubNonWord(pairs[k].0), SubNonWord(pairs[k].1))
  {
    if k < |pairs| - 1 {
      ParentArrowsAt(pairs[..|pairs| - 1], k);
    }
  }

  lemma {:induction false} HubClassDeclared(hubs: seq<Hub>, h: Hub)
    requires h in hubs
    ensures ClassOpen(SubNonWord(h.name)) in HubClasses(hubs)
  {
    var init, last := hubs[..|hubs| - 1], hubs[|hubs| - 1];
    assert hubs == init + [last];
    if h != last {
      HubClassDeclared(init, h);
    } else {
      assert HubClass(last)[0] in HubClass(last);
    }
  }

  lemma {:induction false} LinkClassDeclared(links: seq<Link>, l: Link)
    requires l in links
    ensures ClassOpen(SubNonWord(l.name)) in LinkClasses(links)
  {
    var init, last := links[..|links| - 1], links[|links| - 1];
    assert links == init + [last];
    if l != last {
      LinkClassDeclared(init, l);
    } else {
      assert LinkClass(last)[0] in LinkClass(last);
    }
  }

  lemma {:induction false} SatClassDeclared(sats: seq<Satellite>, maps: NameMaps, s: Satellite)
    requires s in sats
    ensures ClassOpen(SubNonWord(s.name)) in SatClasses(sats, maps)
  {
    var init, last := sats[..|sats| - 1], sats[|sats| - 1];
    assert sats == init + [last];
    if s != last {
      SatClassDeclared(init, maps, s);
    } else {
      assert SatClass(last, maps)[0] in SatClass(last, maps);
    }
  }

  /** A parent a Satellite resolves to, among Hubs and Links with distinct ids, has a class of its own. */
  lemma ParentDeclared(g: Graph, s: Satellite, p: string)
    requires HubNamesUnique(g.hubs) && LinkNamesUnique(g.links) && ResolveParent(s, BuildNameMaps(g)) == Some(p)
    ensures ClassOpen(SubNonWord(p)) in HubClasses(g.hubs) + LinkClasses(g.links)
  {
    ResolveFindsStoredParent(g, s, p);
    if s.contentType == HubModel {
      var i :| 0 <= i < |g.hubs| && g.hubs[i].id == s.objectId && g.hubs[i].name == p;
      HubClassDeclared(g.hubs, g.hubs[i]);
    } else {
      var i :| 0 <= i < |g.links| && g.links[i].id == s.objectId && g.links[i].name == p;
      LinkClassDeclared(g.links, g.links[i]);
    }
  }

  /** `a` is an arrow whose source class is declared among `sources` and whose target class among `targets`. */
  predicate Joins(a: ClassLine, sources: seq<ClassLine>, targets: seq<ClassLine>) {
    a.Arrow? && ClassOpen(a.source) in sources && ClassOpen(a.target) in targets
  }

  /** Each relation arrow runs from the class of a stored Hub to the class of its Link. */
  lemma RelationArrowJoins(hubs: seq<Hub>, links: seq<Link>, k: nat)
    requires forall l :: l in links ==> LinkHubsStored(l, hubs)
    requires k < |RelationArrows(Relation(links))|
    ensures Joins(RelationArrows(Relation(links))[k], HubClasses(hubs), LinkClasses(links))
  {
    var pair := Relation(links)[k];
    RelationArrowsAt(Relation(links), k);
    RelationPairs(links, pair.0, pair.1);
    assert LinkHubsStored(pair.1, hubs);
    var j :| 0 <= j < |pair.1.hubs| && pair.1.hubs[j] == pair.0;
    HubClassDeclared(hubs, pair.0);
    LinkClassDeclared(links, pair.1);
  }

  /** Each parent arrow runs from the class of the resolved parent to the class of the Satellite. */
  lemma ParentArrowJoins(g: Graph, k: nat)
    requires HubNamesUnique(g.hubs) && LinkNamesUnique(g.links)
    requires k < |ParentArrows(Described(g.satellites, BuildNameMaps(g)))|
    ensures Joins(ParentArrows(Described(g.satellites, BuildNameMaps(g)))[k],
      HubClasses(g.hubs) + LinkClasses(g.links), SatClasses(g.satellites, BuildNameMaps(g)))
  {
    var maps := BuildNameMaps(g);
    var des := Described(g.satellites, maps);
    var pair := des[k];
    ParentArrowsAt(des, k);
    DescribedPairs(g.satellites, maps, pair.0, pair.1);
    var s :| s in g.satellites && s.name == pair.1 && ResolveParent(s, maps) == Some(pair.0);
    ParentDeclared(g, s, pair.0);
    SatClassDeclared(g.satellites, maps, s);
  }
}
