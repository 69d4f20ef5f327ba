# datavault_modeler in Dafny

datavault_modeler is a small Django application for sketching Data Vault
models. A **Hub** holds a business entity and its comma-separated business
keys. A **Link** relates two or more Hubs. A **Satellite** carries the
descriptive attributes of one parent, which is a Hub or a Link reached
through a generic relation `(content_type, object_id)`.

This project models the core of the application:

- **The stored entities** (`Models`): the three tables as datatypes. It
  states the constraints their field declarations impose (unique names,
  maximum lengths, the Satellite's `unique_together`) and what inserting a
  row does.
- **The identifier sanitisers** (`Sanitize`): `re.sub(r'\W+', '_', s)` and
  `s.replace(' ', '_')`, and exactly when the two agree.
- **The parent of a Satellite** (`Parents`):
  - the parent choice list of the Satellite form;
  - the `"<content type id>-<object id>"` key it encodes a parent as, and
    the views' decoding of that key;
  - the id-to-name maps both renderers build, and the parent lookup through
    them.
- **Satellite attributes** (`Attributes`):
  - the attribute form's validation;
  - the serialiser the create and update views share, which stores
    `name:tipo` entries joined with `", "`;
  - the two parsers that read the stored string back: the update view keeps
    blank segments, the renderers drop them.
- **The two diagram views** (`ErDiagram`, `ClassDiagram`):
  - `visualize_model` builds a Mermaid `erDiagram` inside a `try`;
  - `visualize_classdiagram` builds a Mermaid `classDiagram` without one.

  Each view is a method whose loops mirror the source's. Each is proved to
  produce the lines of a specification function (`ErDocument`,
  `ClassDocument`). Lemmas about those functions state what the diagram
  shows:
  - where each block's fields sit;
  - that every edge joins two declared entities;
  - that in the class diagram, arrows come only after the style
    definitions.
- **Migration 0003** (`Migration0003`): its data step attaches every
  parentless Satellite to the first Hub of its project, or deletes it. It is
  modelled as an in-place update of a table held in a class.

A line of Mermaid text is modelled as a datatype value (`ErLine`,
`ClassLine`) naming the f-string that produces it. `LineText` gives that
f-string's exact text, and the view's output is the `"\n"` join of the
texts.

## Model

| member | source | states |
|---|---|---|
| Text.TrimLeft | modeler/views.py:78 | `lstrip()` never lengthens and leaves no whitespace in front |
| Text.TrimRight | modeler/views.py:78 | `rstrip()` never lengthens and leaves no whitespace at the end |
| Text.TrimLeftFacts | modeler/views.py:78 | `lstrip` removes exactly a prefix made of whitespace |
| Text.TrimRightFacts | modeler/views.py:78 | `rstrip` removes exactly a suffix made of whitespace |
| Text.StripResult | modeler/views.py:78-79 | `strip()` yields a string with no whitespace at either end; it is empty iff the input is all whitespace |
| Text.StripOfStripped | modeler/views.py:132 | a string without whitespace at either end is its own `strip()` |
| Text.StripIdempotent | modeler/views.py:132 | stripping a stripped segment again changes nothing |
| Text.StripLeadingSpace | modeler/views.py:134 | a leading space does not change the result of `strip()` |
| Text.StripKeepsAbsent | modeler/views.py:132 | stripping never introduces a character |
| Text.IndexOf | modeler/views.py:134 | the cut of `split(':', 1)` is at the first `:` and none comes before it |
| Text.Split | modeler/views.py:131 | `split(',')` yields one more piece than there are commas, none containing a comma |
| Text.SplitWithoutSeparator | modeler/views.py:131 | a string without the separator splits into itself alone |
| Text.SplitAtFirstSeparator | modeler/views.py:71 | splitting `a + sep + b` with no `sep` in `a` yields `a` followed by the pieces of `b` |
| Text.SplitTrailingSeparator | modeler/views.py:222 | a trailing separator adds exactly one empty piece |
| Text.NonBlank | modeler/views.py:186 | the comprehension keeps only non-empty stripped pieces, never more than it was given; which pieces, and in what order, is stated by `Text.NonBlankAppend` and `Text.NonBlankOne` |
| Text.NonBlankDropsOnlyBlanks | modeler/views.py:222 | nothing is dropped iff no piece is blank |
| Text.NonBlankStrips | modeler/views.py:222 | without blank pieces the comprehension is a pointwise strip |
| Text.NonBlankIgnoresTrailingBlank | modeler/views.py:222 | a trailing empty piece leaves the kept list unchanged |
| Text.NonBlankAppend | modeler/views.py:222 | the comprehension filters piece by piece in order: the kept pieces of a concatenation are those of the first part followed by those of the second |
| Text.NonBlankOne | modeler/views.py:222 | a single piece is kept, stripped, iff it is not blank |
| Text.JoinStartsWithFirst | modeler/views.py:249 | a join starts with its first part, so the diagram text starts with its header |
| Text.NatToString | modeler/forms.py:39 | `str(n)` is non-empty decimal digits without a leading zero |
| Text.ParseNat | modeler/views.py:71-73 | the integer conversion succeeds iff the text is a non-empty string of digits |
| Text.ParseNatToString | modeler/forms.py:39 | converting `str(n)` back gives `n` |
| Sanitize.DropNonWord | modeler/views.py:211 | dropping a leading non-word run never lengthens and leaves a word character first |
| Sanitize.SubNonWord | modeler/views.py:211 | `re.sub(r'\W+', '_', s)` holds only word characters, is no longer than `s`, and is empty iff `s` is |
| Sanitize.SubNonWordFixesWordNames | modeler/views.py:276 | a name of word characters is its own identifier |
| Sanitize.SubNonWordIdempotent | modeler/views.py:276 | sanitising twice equals sanitising once |
| Sanitize.SubNonWordFixedPoints | modeler/views.py:276 | sanitising leaves a name unchanged iff it has no non-word character |
| Sanitize.ReplaceSpaces | modeler/views.py:184 | `replace(' ', '_')` changes each space and only spaces, one for one |
| Sanitize.AdjacentNonWordShrinks | modeler/views.py:211 | two adjacent non-word characters make the identifier shorter than the name |
| Sanitize.SingleSpacesAgree | modeler/views.py:184-211 | where the only non-word characters are single spaces, both sanitisers agree |
| Sanitize.SanitisersAgreeIff | modeler/views.py:184-211 | the two sanitisers agree on a name iff its only non-word characters are single, non-adjacent spaces |
| Models.NewHub | modeler/models.py:8-13 | a new Hub has record source `DefaultSource`; its fields are valid iff name and keys fit 255 and 500 characters |
| Models.NewLink | modeler/models.py:18-23 | a new Link has record source `DefaultSource`; its fields are valid iff the name fits 255 characters |
| Models.NewSatellite | modeler/models.py:28-36 | a new Satellite has record source `DefaultSource`; it is valid iff the name fits and the object id is a positive-integer-field value |
| Models.InsertHub | modeler/models.py:9 | a Hub is stored iff its fields are valid and its name and id are unused; storing it keeps the tables well formed |
| Models.InsertLink | modeler/models.py:19-20 | a Link is stored iff its fields are valid and its name and id are unused; storing it keeps the tables well formed |
| Models.InsertSatellite | modeler/models.py:38-40 | a Satellite is stored iff its fields are valid and no stored Satellite shares (name, content type, object id); storing it keeps the tables well formed |
| Models.Relation | modeler/views.py:235-236 | the relation has one pair per (Link, related Hub) |
| Models.RelationStep | modeler/views.py:235-236 | the relation of one more Link extends the relation of the Links before it by that Link's pairs |
| Models.RelationPairs | modeler/views.py:235-236 | `(h, l)` is in the relation iff `l` is a Link and `h` one of its Hubs |
| Parents.EncodeParent | modeler/forms.py:39-41 | a parent key holds exactly one `-` |
| Parents.DecodeParent | modeler/views.py:71 | decoding succeeds only on a key with exactly one `-`; otherwise the unpacking fails |
| Parents.DecodeEncodeParent | modeler/views.py:71 | decoding an encoded key gives back its content type id and object id |
| Parents.HubChoices | modeler/forms.py:38-39 | one choice per Hub, in order, valued by its key and labelled `Hub: name` |
| Parents.LinkChoices | modeler/forms.py:40-41 | one choice per Link, in order, valued by its key and labelled `Link: name` |
| Parents.ParentChoices | modeler/forms.py:38-42 | every Hub choice, then every Link choice |
| Parents.ChoicesDecode | modeler/forms.py:38-42 | every offered choice decodes to the content type and id of the Hub or Link it stands for |
| Parents.NoParentsIffNoHubsAndLinks | modeler/views.py:89-90 | the no-parents page appears iff there is no Hub and no Link |
| Parents.NameMap | modeler/views.py:176-177 | the map's keys are exactly the ids of the rows |
| Parents.NameMapLookup | modeler/views.py:176-177 | with distinct ids, the map sends each id to its row's name |
| Parents.EntryFound | modeler/views.py:176-177 | with distinct ids, the map sends an id to a name iff that (id, name) pair is one of the rows |
| Parents.ResolveParent | modeler/views.py:207-217 | a parent name is found iff the content type is hub or link and the matching map holds a non-empty name for the object id |
| Parents.ResolveFindsStoredParent | modeler/views.py:207-217 | when Hub ids and Link ids are distinct, a Satellite resolves to `n` iff a stored Hub or Link of its content type has its object id and the non-empty name `n` |
| Parents.Described | modeler/views.py:239-247 | at most one described pair per Satellite |
| Parents.DescribedStep | modeler/views.py:239-247 | one more Satellite adds its (parent, name) pair exactly when its parent resolves |
| Parents.DescribedPairs | modeler/views.py:239-247 | `(p, name)` is described iff a Satellite called `name` resolves to `p`; every described parent is non-empty |
| Attributes.ParseTag | modeler/forms.py:62-65 | a type is accepted iff it is one of the five choice values |
| Attributes.CleanAttributeForm | modeler/forms.py:54-66 | a row is accepted iff its stripped name is non-empty, at most 100 characters and free of NUL, and its type is one of the five choices; an accepted row carries the stripped name and that choice; otherwise a blank name or an empty type is reported as required (the name's other checks are then skipped) and every other failing check is reported |
| Attributes.CleanedTagIsKnown | modeler/forms.py:64 | an accepted type is one of string, int, float, date, bool |
| Attributes.KeptAttrs | modeler/views.py:76-80 | an attribute is kept iff some formset row is filled, not marked for deletion, and strips to it; never more attributes than rows |
| Attributes.KeptAttrsAppend | modeler/views.py:76-80 | the rows are filtered one by one in order: the kept attributes of two runs of rows are those of the first followed by those of the second |
| Attributes.KeptAttrsOne | modeler/views.py:76-80 | a single row gives its stripped attribute iff it is filled and not deleted, and nothing otherwise |
| Attributes.BuildAttributeString | modeler/views.py:75-81 | the loop stores the joined entries of the kept rows; safe rows read back unchanged by both parsers |
| Attributes.ParseEntry | modeler/views.py:133-136 | the parsed name has no `:`; a segment without `:` is a `string` attribute named by the whole segment |
| Attributes.ParseEntrySplitsAtFirstColon | modeler/views.py:134 | the cut is at the first `:`, both halves stripped; later colons stay in the type |
| Attributes.ParseStored | modeler/views.py:129-137 | an empty string gives no rows; otherwise one row per comma plus one |
| Attributes.ParseRow | modeler/views.py:133-136 | the body of the update view's loop yields the parsed row of its segment |
| Attributes.InitialAttributes | modeler/views.py:129-137 | the loop yields the parsed rows, none with a `:` in its name |
| Attributes.BlankSegmentKept | modeler/views.py:130-137 | the update view keeps a blank segment as `("", "string")`, while the renderers' list is shorter |
| Attributes.ParsersAgreeWithoutBlanks | modeler/views.py:222-227 | without blank segments, the renderers' parser and the update view's parser agree |
| Attributes.TrailingComma | modeler/views.py:222 | a trailing comma adds a blank row for the update view and nothing for the renderers |
| Attributes.CleanedRowIsSafe | modeler/forms.py:55-65 | a row the form accepts, whose name holds no `,` or `:`, survives being stored |
| Attributes.EntryIsStripped | modeler/views.py:80 | the entry of a safe attribute is non-empty, stripped and comma-free |
| Attributes.ParseEntryOfEntry | modeler/views.py:224-227 | parsing the entry of a safe attribute gives it back |
| Attributes.SplitJoined | modeler/views.py:81 | splitting the `", "` join at commas gives the entries back, each after the first with its leading space |
| Attributes.SerializedSegments | modeler/views.py:75-81 | a stored non-empty list of safe rows is non-empty and splits into one segment per row, each stripping to that row's entry |
| Attributes.SerializeRoundTrip | modeler/views.py:75-81 | storing safe attributes and reading them back, by either parser, gives the same rows |
| ErDiagram.KeyFields | modeler/views.py:187-188 | the business-key fields are numbered from 1 in key order |
| ErDiagram.HubBlock | modeler/views.py:182-191 | a Hub block opens with the Hub's name and its own hash key under `replace(' ', '_')`, and has five lines plus one per key |
| ErDiagram.HubBlockLayout | modeler/views.py:186-191 | the numbered keys follow the hash key; load date, record source and the closing brace end the block |
| ErDiagram.HubKeyFields | modeler/views.py:197-199 | one hash key per related Hub, in relation order |
| ErDiagram.LinkBlock | modeler/views.py:193-202 | a Link block opens with its name and own hash key, and has five lines plus one per related Hub |
| ErDiagram.LinkBlockLayout | modeler/views.py:196-202 | the related Hubs' hash keys follow the Link's own; the audit fields end the block |
| ErDiagram.AttributeFields | modeler/views.py:223-229 | one field per parsed attribute, in order |
| ErDiagram.SatBlockWith | modeler/views.py:204-232 | a Satellite block opens with its name, has `HK_DIFF` right after the optional parent key, and has five lines plus parent and attributes |
| ErDiagram.SatBlockLayout | modeler/views.py:218-232 | the parent key, `HK_DIFF`, the attribute fields and the audit fields, in that order |
| ErDiagram.ConnectsEdges | modeler/views.py:235-237 | one `connects` edge per relation pair |
| ErDiagram.ConnectsEdgesAt | modeler/views.py:237 | edge `k` names the Hub and Link of pair `k` |
| ErDiagram.DescribesEdges | modeler/views.py:239-247 | one `describes` edge per described pair |
| ErDiagram.DescribesEdgesAt | modeler/views.py:247 | edge `k` names the parent and Satellite of pair `k` |
| ErDiagram.EdgeLines | modeler/views.py:234-247 | one edge per relation pair plus one per Satellite whose parent resolves |
| ErDiagram.EmitHub | modeler/views.py:182-191 | the loop over a Hub's keys produces its block |
| ErDiagram.EmitKeyFields | modeler/views.py:186-188 | the loop over a Hub's keys produces its numbered key fields |
| ErDiagram.EmitLink | modeler/views.py:193-202 | the loop over a Link's Hubs produces its block |
| ErDiagram.EmitSatellite | modeler/views.py:204-232 | the parent lookup and the attribute loop produce the Satellite's block |
| ErDiagram.ParentKey | modeler/views.py:207-217 | the parent field is produced iff the parent resolves, and it is the hash key of the `re.sub`-sanitised parent name |
| ErDiagram.EmitAttributes | modeler/views.py:223-229 | the attribute loop produces one field per attribute |
| ErDiagram.EmitHubs | modeler/views.py:182-191 | the Hub loop produces every Hub block in order |
| ErDiagram.EmitLinks | modeler/views.py:193-202 | the Link loop produces every Link block in order |
| ErDiagram.EmitSatellites | modeler/views.py:204-232 | the Satellite loop produces every Satellite block in order |
| ErDiagram.EmitConnects | modeler/views.py:235-237 | the nested loops produce one `connects` edge per relation pair |
| ErDiagram.EmitLinkConnects | modeler/views.py:236-237 | the inner loop produces one `connects` edge per Hub of the Link |
| ErDiagram.EmitDescribes | modeler/views.py:239-247 | the second Satellite loop produces one `describes` edge per resolved parent |
| ErDiagram.RenderEr | modeler/views.py:172-248 | the body of the `try` produces the whole ER document |
| ErDiagram.VisualizeModel | modeler/views.py:170-258 | on success the data is the joined document starting with `erDiagram`, with no error; on failure the data is empty and the error carries the message |
| ErDiagram.HashKeyTextInjective | modeler/views.py:185 | two hash-key lines read the same iff their sanitised names are equal |
| ErDiagram.HkDiffPlacement | modeler/views.py:218-221 | `HK_DIFF` sits right after the parent key, and nowhere else in the block unless the parent sanitises to `DIFF` |
| ErDiagram.HkDiffInBlock | modeler/views.py:218-232 | away from its own place, a Satellite block line is `HK_DIFF` iff it is a parent key reading `HK_DIFF` |
| ErDiagram.ParentKeyMatchesOwnKey | modeler/views.py:184-212 | a Satellite's parent key reads like the parent's own hash key iff the parent's name has no non-word character but single spaces |
| ErDiagram.ConnectsEdgeFrom | modeler/views.py:235-237 | each `connects` edge names a Link and one of its Hubs |
| ErDiagram.DescribesEdgeFrom | modeler/views.py:239-247 | each `describes` edge names a Satellite and the parent it resolves to |
| ErDiagram.EdgeConnects | modeler/views.py:234-237 | each of the first edges, one per (Hub, Link) pair, connects a Link with one of its own Hubs |
| ErDiagram.EdgeDescribes | modeler/views.py:238-247 | each edge after the `connects` edges links a Satellite with the parent it resolves to |
| ErDiagram.ErEdges | modeler/views.py:234-247 | the `connects` edges come first, then the `describes` edges, each naming what it relates |
| ErDiagram.EdgesFollowEntities | modeler/views.py:179-247 | the document is the entity blocks followed by the edges, so edge `k` sits after every block |
| ErDiagram.HubBlockDeclared | modeler/views.py:182-183 | every Hub opens a block |
| ErDiagram.LinkBlockDeclared | modeler/views.py:193-194 | every Link opens a block |
| ErDiagram.SatBlockDeclared | modeler/views.py:204-205 | every Satellite opens a block |
| ErDiagram.ConnectsEdgeJoins | modeler/views.py:235-237 | each `connects` edge joins a declared Hub block to a declared Link block |
| ErDiagram.DescribesEdgeJoins | modeler/views.py:239-247 | each `describes` edge joins a declared Hub or Link block to a declared Satellite block |
| ErDiagram.EdgesJoinDeclaredEntities | modeler/views.py:182-247 | in a well-formed graph, each `connects` edge joins a Hub block to a Link block and each `describes` edge a Hub or Link block to a Satellite block of the same diagram |
| ClassDiagram.KeyMembers | modeler/views.py:280-282 | the i-th member is `+key_<i+1>_<k>` where `k` is the i-th business key with its non-word runs replaced by `_`; one member per key |
| ClassDiagram.HubClass | modeler/views.py:275-286 | a Hub class opens with its sanitised name and its own hash key, and ends with the `hub` style assignment |
| ClassDiagram.HubMembers | modeler/views.py:291-293 | the i-th member is `+HK_<h>` where `h` is the i-th related Hub's name with its non-word runs replaced by `_`; one member per Hub |
| ClassDiagram.LinkClass | modeler/views.py:288-297 | a Link class opens with its sanitised name and ends with the `link` style assignment; five lines plus one per Hub |
| ClassDiagram.AttributeMembers | modeler/views.py:318-324 | the i-th member is `+<a>` where `a` is the i-th parsed attribute's name with its non-word runs replaced by `_`; one member per attribute |
| ClassDiagram.SatClassWith | modeler/views.py:299-328 | a Satellite class has `HK_DIFF` right after the optional parent member and ends with the `sat` style assignment |
| ClassDiagram.RelationArrows | modeler/views.py:332-336 | one arrow per relation pair |
| ClassDiagram.ParentArrows | modeler/views.py:337-346 | one arrow per described pair |
| ClassDiagram.ArrowLines | modeler/views.py:331-346 | the relation arrows, then the parent arrows: one per relation pair plus one per Satellite whose parent resolves |
| ClassDiagram.EmitHub | modeler/views.py:275-286 | the key loop produces the Hub's class |
| ClassDiagram.EmitKeyMembers | modeler/views.py:279-282 | the loop over a Hub's keys produces its numbered, sanitised key members |
| ClassDiagram.EmitLink | modeler/views.py:288-297 | the Hub loop produces the Link's class |
| ClassDiagram.EmitAttributes | modeler/views.py:318-324 | the attribute loop produces one member per attribute |
| ClassDiagram.EmitSatellite | modeler/views.py:299-328 | the parent lookup and the attribute loop produce the Satellite's class |
| ClassDiagram.ParentFk | modeler/views.py:303-315 | a parent member is produced iff the parent resolves; the method returns `safe_parent`, the parent name with its non-word runs replaced by `_`, and the Satellite's block renders it with the `HK_` prefix as `+HK_<safe_parent>` |
| ClassDiagram.EmitHubs | modeler/views.py:274-286 | the Hub loop produces every Hub class in order |
| ClassDiagram.EmitLinks | modeler/views.py:287-297 | the Link loop produces every Link class in order |
| ClassDiagram.EmitSatellites | modeler/views.py:298-328 | the Satellite loop produces every Satellite class in order |
| ClassDiagram.EmitRelationArrows | modeler/views.py:332-336 | the nested loops produce one arrow per relation pair |
| ClassDiagram.EmitLinkArrows | modeler/views.py:333-336 | the inner loop produces one arrow per Hub of the Link |
| ClassDiagram.EmitParentArrows | modeler/views.py:337-346 | the second Satellite loop produces one arrow per resolved parent |
| ClassDiagram.RenderClasses | modeler/views.py:265-346 | the lines the view collects are every class, then the three styles, then every arrow |
| ClassDiagram.VisualizeClassDiagram | modeler/views.py:260-348 | the data is the joined document of classes, styles and arrows, starting with `classDiagram` |
| ClassDiagram.HubMembersHold | modeler/views.py:291-293 | a hash-key member is in a Link's list iff one of its Hubs sanitises to that id |
| ClassDiagram.LinkHasNoOwnKey | modeler/views.py:288-297 | a Link class shows a hash key for its own id only when one of its Hubs sanitises to that id |
| ClassDiagram.WordHasNoArrowHead | modeler/views.py:276 | a sanitised identifier or a number holds no `>` |
| ClassDiagram.KeyMemberHasNoArrowHead | modeler/views.py:282 | a key member with a word-character key holds no `>` |
| ClassDiagram.ArrowHasArrowHead | modeler/views.py:336 | every arrow line holds `>` |
| ClassDiagram.StyleDefHasNoArrowHead | modeler/views.py:269-273 | no style definition holds `>` |
| ClassDiagram.ArrowHeadOnlyInArrows | modeler/views.py:336 | a line's text holds `>` iff the line is an arrow, given word-character identifiers |
| ClassDiagram.KeyMembersPlain | modeler/views.py:281-282 | key members use word-character identifiers only |
| ClassDiagram.HubMembersPlain | modeler/views.py:292-293 | Hub members use word-character identifiers only |
| ClassDiagram.AttributeMembersPlain | modeler/views.py:323-324 | attribute members use word-character identifiers only |
| ClassDiagram.HubClassesPlain | modeler/views.py:274-286 | no line of a Hub class holds `>` |
| ClassDiagram.LinkClassesPlain | modeler/views.py:287-297 | no line of a Link class holds `>` |
| ClassDiagram.SatClassPlain | modeler/views.py:299-328 | a Satellite class with a word-character id is free of arrows |
| ClassDiagram.SatClassesPlain | modeler/views.py:298-328 | no line of a Satellite class holds `>` |
| ClassDiagram.RelationArrowsAreArrows | modeler/views.py:332-336 | the relation lines are all arrows |
| ClassDiagram.ParentArrowsAreArrows | modeler/views.py:337-346 | the parent lines are all arrows |
| ClassDiagram.ArrowHeadsAfterStyles | modeler/views.py:329-330 | in classes, styles, arrows: a line holds `>` iff it comes after the styles |
| ClassDiagram.ArrowsComeLast | modeler/views.py:329-346 | a line of the class diagram holds `>` iff it follows every class and all three style definitions |
| ClassDiagram.RelationArrowsAt | modeler/views.py:336 | arrow `k` runs from the sanitised Hub to the sanitised Link of pair `k` |
| ClassDiagram.ParentArrowsAt | modeler/views.py:346 | arrow `k` runs from the sanitised parent to the sanitised Satellite of pair `k` |
| ClassDiagram.HubClassDeclared | modeler/views.py:276-277 | every Hub declares a class |
| ClassDiagram.LinkClassDeclared | modeler/views.py:289-290 | every Link declares a class |
| ClassDiagram.SatClassDeclared | modeler/views.py:300-301 | every Satellite declares a class |
| ClassDiagram.ParentDeclared | modeler/views.py:340-345 | when Hub ids and Link ids are distinct, a parent a Satellite resolves to has its own Hub or Link class |
| ClassDiagram.RelationArrowJoins | modeler/views.py:332-336 | when every Link's Hubs are stored, each relation arrow (the first `HubRefCount` arrows) runs from a declared Hub class to a declared Link class |
| ClassDiagram.ParentArrowJoins | modeler/views.py:337-346 | when Hub ids and Link ids are distinct, each parent arrow (the arrows after the relation arrows) runs from a declared Hub or Link class to a declared Satellite class |
| Migration0003.FirstHubId | modeler/migrations/0003_alter_satellite_content_type_alter_satellite_object_id.py:14 | the first Hub of a project exists iff the project has a Hub, and it has the smallest id among them |
| Migration0003.Database.ForwardFunc | modeler/migrations/0003_alter_satellite_content_type_alter_satellite_object_id.py:3-19 | when the `hub` content type is missing the lookup aborts and both tables stay as they were; otherwise the loop leaves the Hubs as they were and the Satellite table repaired |
| Migration0003.NoParentlessRemain | modeler/migrations/0003_alter_satellite_content_type_alter_satellite_object_id.py:12-19 | afterwards no Satellite has a null content type |
| Migration0003.ParentlessAttachedToFirstHub | modeler/migrations/0003_alter_satellite_content_type_alter_satellite_object_id.py:13-17 | a parentless Satellite whose project has a Hub is kept, with the hub content type and the first Hub's id, and is otherwise unchanged |
| Migration0003.DeletedIffNoHub | modeler/migrations/0003_alter_satellite_content_type_alter_satellite_object_id.py:18-19 | a Satellite is deleted iff it is parentless and its project has no Hub |
| Migration0003.ParentedUntouched | modeler/migrations/0003_alter_satellite_content_type_alter_satellite_object_id.py:12-13 | rows that had a content type are untouched, and no row is added |
| Migration0003.RepairedIsFixedPoint | modeler/migrations/0003_alter_satellite_content_type_alter_satellite_object_id.py:12-19 | running the repair a second time changes nothing |

## Left out

- Request handling is not modelled: forms bound to POST data, redirects,
  flash messages, debug `print`s, template rendering and URL routing. The
  views' outputs are modelled as the values they hand to the template.
- The plain create, update and delete views for Hubs and Links are not
  modelled beyond the table constraints (`Models.InsertHub`,
  `Models.InsertLink`). The same goes for `index` and for the
  fewer-than-two-Hubs page of `create_link`; they hold no logic beyond a
  ModelForm save or a query.
- `ContentType.objects.get_for_id` and `get_for_model` are not modelled. A
  content type is a `ContentKind`, or a number passed in as a parameter.
  Assigning the decoded key to the Satellite is left out, because it depends
  on that lookup.
- Database queries are not modelled. Each table is a sequence in the order
  its query returns it. A Link carries its related Hubs in the order
  `link.hubs.all()` yields them. Timestamps (`load_date`) are not modelled.
- Text.IsSpace: Python's `str.isspace` and the regex class `\w` are
  Unicode-aware. The model uses their ASCII parts, and `Sanitize.IsWordChar`
  covers ASCII letters, digits and `_` only.
- Text.ParseNat: Python's `int()` also accepts a sign, surrounding
  whitespace and `_` separators. The model accepts non-empty digit strings
  only, so a key such as `" 3-4"` decodes to `None` here but not in Python.
- ErDiagram.VisualizeModel: an exception is modelled only as a failed fetch
  carrying its message. Which operations may raise, and the text of `{e}`,
  are outside the model.
- ClassDiagram.VisualizeClassDiagram: the view has no guard, so a raised
  exception escapes to Django's error handling. The model has only the
  successful path.
- Mermaid lines are datatype values. `LineText` renders each one to the
  f-string's text. The contracts speak about the values; the join of the
  texts is the view's output.
- Migration0003.Database.ForwardFunc: `satellite.save()` can fail on the
  historical `unique_together` constraint. That failure, and the two
  `AlterField` schema operations that follow the data step, are not
  modelled.
- Migration 0002 and the project model are not part of this model, and the
  current `models.py` has no project field. The migration nevertheless
  filters on `project`, so its historical rows carry a project foreign key.
  Whether that column is nullable is not visible here; it is modelled as
  `Option<nat>` so that both cases are covered, and `filter(project=None)`
  then matches the Hubs without a project.
- The content-type table is not modelled. The outcome of
  `ContentType.objects.get(app_label='modeler', model='hub')` is the
  parameter of `Migration0003.Database.ForwardFunc`: the id, or `None` for
  `DoesNotExist`.
