/**
 * Satellite attributes. The attribute formset delivers (name, type) rows;
 * the views store them in `Satellite.attributes` as `name:tipo` entries
 * joined with `", "`, and read them back in two ways: the update view keeps
 * every comma-separated segment, the two renderers drop blank ones.
 */
module Attributes {
  import opened Text

  /** One attribute: its name and its type tag as stored text. */
  datatype Attr = Attr(name: string, tipo: string)

  /** The closed choice set of `AttributeForm.tipo`. */
  datatype TypeTag = StringTag | IntTag | FloatTag | DateTag | BoolTag

  const AttributeNameMaxLength: nat := 100

  function TagText(t: TypeTag): string {
    match t
    case StringTag => "string"
    case IntTag => "int"
    case FloatTag => "float"
    case DateTag => "date"
    case BoolTag => "bool"
  }

  /** The `ChoiceField` check: the submitted value must be one of the five tags. */
  function ParseTag(s: string): (r: Option<TypeTag>)
    ensures r.Some? ==> TagText(r.value) == s
    ensures r.None? ==> forall t: TypeTag :: TagText(t) != s
  {
    if s == "string" then Some(StringTag)
    else if s == "int" then Some(IntTag)
    else if s == "float" then Some(FloatTag)
    else if s == "date" then Some(DateTag)
    else if s == "bool" then Some(BoolTag)
    else None
  }

  /**
   * The errors the two fields can report. `NameHasNull` is the validator
   * every `forms.CharField` carries against the NUL character;
   * `TipoRequired` is the `ChoiceField`'s own required check, which runs
   * before, and instead of, the choice check.
   */
  datatype FieldError = NameRequired | NameTooLong | NameHasNull | TipoRequired | InvalidChoice

  datatype CleanedAttribute = Cleaned(name: string, tag: TypeTag) | Rejected(errors: set<FieldError>)

  /**
   * `AttributeForm` validation, field by field as Django runs it: the name
   * is stripped, then a blank name fails as required and nothing else is
   * checked on it; otherwise its validators (at most 100 characters, no NUL)
   * each report. An empty type fails as required; any other type must be
   * one of the five tags. The errors of both fields are reported together.
   */
  function CleanAttributeForm(rawName: string, rawTipo: string): (r: CleanedAttribute)
    ensures r.Cleaned? ==>
      r.name == Strip(rawName) && 1 <= |r.name| <= AttributeNameMaxLength && '\0' !in r.name &&
      TagText(r.tag) == rawTipo
    ensures r.Rejected? ==>
      r.errors != {} &&
      (NameRequired in r.errors <==> Strip(rawName) == "") &&
      (NameTooLong in r.errors <==> |Strip(rawName)| > AttributeNameMaxLength) &&
      (NameHasNull in r.errors <==> '\0' in Strip(rawName)) &&
      (TipoRequired in r.errors <==> rawTipo == "") &&
      (InvalidChoice in r.errors <==> rawTipo != "" && forall t: TypeTag :: TagText(t) != rawTipo)
    ensures r.Cleaned? <==>
      Strip(rawName) != "" && |Strip(rawName)| <= AttributeNameMaxLength && '\0' !in Strip(rawName) &&
      exists t: TypeTag :: TagText(t) == rawTipo
  {
    var name := Strip(rawName);
    var nameErrors :=
      if name == "" then {NameRequired}
      else
        (if |name| > AttributeNameMaxLength then {NameTooLong} else {}) +
        (if '\0' in name then {NameHasNull} else {});
    var tipoErrors :=
      if rawTipo == "" then {TipoRequired}
      else if ParseTag(rawTipo).None? then {InvalidChoice}
      else {};
    var errors := nameErrors + tipoErrors;
    if errors == {} then Cleaned(name, ParseTag(rawTipo).value)
    else
      assert ParseTag(rawTipo).Some? ==> TagText(ParseTag(rawTipo).value) == rawTipo;
      assert rawTipo == "" ==> forall t: TypeTag :: TagText(t) != rawTipo;
      Rejected(errors)
  }

  /** Every type tag the form accepts is one of the five texts. */
  lemma CleanedTagIsKnown(rawName: string, rawTipo: string)
    requires CleanAttributeForm(rawName, rawTipo).Cleaned?
    ensures rawTipo in {"string", "int", "float", "date", "bool"}
  {
    var t := CleanAttributeForm(rawName, rawTipo).tag;
    assert TagText(t) == rawTipo;
  }

  // ---------------------------------------------------------------------
  // Serialising the formset rows (create_satellite and update_satellite)

  /** One entry of the cleaned formset: an untouched extra form is empty. */
  datatype FormRow = EmptyForm | Filled(name: string, tipo: string, delete: bool)

  /** A formset row the views store: filled in and not marked for deletion. */
  predicate Kept(row: FormRow) {
    row.Filled? && !row.delete
  }

  /** The stored attribute of a kept row: both fields stripped. */
  function KeptAttr(row: FormRow): Attr
    requires row.Filled?
  {
    Attr(Strip(row.name), Strip(row.tipo))
  }

  /** The rows the views keep, stripped, in formset order. */
  function KeptAttrs(rows: seq<FormRow>): (r: seq<Attr>)
    ensures |r| <= |rows|
    ensures forall a :: a in r <==> exists i :: 0 <= i < |rows| && Kept(rows[i]) && a == KeptAttr(rows[i])
  {
    if rows == [] then []
    else
      var init, last := rows[..|rows| - 1], rows[|rows| - 1];
      assert forall i :: 0 <= i < |init| ==> init[i] == rows[i];
      KeptAttrs(init) + (if Kept(last) then [KeptAttr(last)] else [])
  }

  /** The kept rows of two parts of a formset are those of the first part, then those of the second. */
  lemma {:induction false} KeptAttrsAppend(a: seq<FormRow>, b: seq<FormRow>)
    ensures KeptAttrs(a + b) == KeptAttrs(a) + KeptAttrs(b)
  {
    if b != [] {
      var init := b[..|b| - 1];
      assert (a + b)[..|a + b| - 1] == a + init;
      KeptAttrsAppend(a, init);
    } else {
      assert a + b == a;
    }
  }

  /** A single row is kept, stripped, exactly when it is filled in and not deleted. */
  lemma KeptAttrsOne(row: FormRow)
    ensures KeptAttrs([row]) == if Kept(row) then [KeptAttr(row)] else []
  {
    assert [row][..0] == [];
  }

  /** `f'{name}:{tipo}'` */
  function Entry(a: Attr): string {
    a.name + ":" + a.tipo
  }

  function Entries(attrs: seq<Attr>): (r: seq<string>)
    ensures |r| == |attrs| && forall i :: 0 <= i < |attrs| ==> r[i] == Entry(attrs[i])
  {
    seq(|attrs|, i requires 0 <= i < |attrs| => Entry(attrs[i]))
  }

  /** `', '.join(attributes_list)` */
  function Serialize(attrs: seq<Attr>): string {
    Join(Entries(attrs), ", ")
  }

  /**
   * The serialiser loop: builds `attributes_list` from the non-deleted rows
   * and joins it. Rows that are safe to store come back unchanged from
   * either parser.
   */
  method BuildAttributeString(rows: seq<FormRow>) returns (s: string)
    ensures s == Serialize(KeptAttrs(rows))
    ensures (forall a :: a in KeptAttrs(rows) ==> SafeAttr(a)) ==>
      ParseStored(s) == KeptAttrs(rows) && ParseForRender(s) == KeptAttrs(rows)
  {
    var list: seq<string> := [];
    var i := 0;
    while i < |rows|
      invariant 0 <= i <= |rows|
      invariant list == Entries(KeptAttrs(rows[..i]))
    {
      var f := rows[i];
      assert rows[..i + 1][..i] == rows[..i];
      if f.Filled? && !f.delete {
        var name := Strip(f.name);
        var tipo := Strip(f.tipo);
        list := list + [name + ":" + tipo];
      }
      i := i + 1;
    }
    assert rows[..|rows|] == rows;
    s := Join(list, ", ");
    if forall a :: a in KeptAttrs(rows) ==> SafeAttr(a) {
      SerializeRoundTrip(KeptAttrs(rows));
    }
  }

  // ---------------------------------------------------------------------
  // Parsing the stored string

  /**
   * One stripped segment: split at the first `:` and strip both halves, or
   * the whole segment with type `string` when it has no `:`.
   */
  function ParseEntry(attr: string): (a: Attr)
    ensures ':' !in a.name
    ensures ':' !in attr ==> a == Attr(attr, "string")
  {
    if ':' in attr then
      var i := IndexOf(attr, ':');
      StripKeepsAbsent(attr[..i], ':');
      Attr(Strip(attr[..i]), Strip(attr[i + 1..]))
    else Attr(attr, "string")
  }

  /** The cut is at the first `:`; later ones stay in the type. */
  lemma ParseEntrySplitsAtFirstColon(name: string, tipo: string)
    requires ':' !in name
    ensures ParseEntry(name + ":" + tipo) == Attr(Strip(name), Strip(tipo))
  {
    var e := name + ":" + tipo;
    assert e[|name|] == ':';
    assert e[..|name|] == name;
    assert e[|name| + 1..] == tipo;
  }

  /** Every segment parsed, blank ones included (update_satellite). */
  function ParseSegments(segs: seq<string>): (r: seq<Attr>)
    ensures |r| == |segs| && forall i :: 0 <= i < |segs| ==> r[i] == ParseEntry(Strip(segs[i]))
  {
    seq(|segs|, i requires 0 <= i < |segs| => ParseEntry(Strip(segs[i])))
  }

  /** The attribute rows `update_satellite` pre-fills its formset with. */
  function ParseStored(s: string): (r: seq<Attr>)
    ensures s == "" ==> r == []
    ensures s != "" ==> |r| == Count(s, ',') + 1
  {
    if s == "" then [] else ParseSegments(Split(s, ','))
  }

  /** The attribute list both renderers iterate over. */
  function ParseForRender(s: string): (r: seq<Attr>) {
    ParseSegments(NonBlank(Split(s, ',')))
  }

  /** `update_satellite`'s loop over the stored segments. */
  method InitialAttributes(stored: string) returns (rows: seq<Attr>)
    ensures rows == ParseStored(stored)
    ensures forall k :: 0 <= k < |rows| ==> ':' !in rows[k].name
  {
    rows := [];
    if stored != "" {
      var segs := Split(stored, ',');
      var i := 0;
      while i < |segs|
        invariant 0 <= i <= |segs|
        invariant |rows| == i
        invariant forall k :: 0 <= k < i ==> rows[k] == ParseEntry(Strip(segs[k]))
      {
        var name, tipo := ParseRow(Strip(segs[i]));
        rows := rows + [Attr(name, tipo)];
        i := i + 1;
      }
      assert rows == ParseSegments(segs);
    }
  }

  /** The body of that loop for one stripped segment. */
  method ParseRow(attr: string) returns (name: string, tipo: string)
    ensures Attr(name, tipo) == ParseEntry(attr)
  {
    if ':' in attr {
      var cut := IndexOf(attr, ':');
      name, tipo := Strip(attr[..cut]), Strip(attr[cut + 1..]);
    } else {
      name, tipo := attr, "string";
    }
  }

  /** Unlike the renderers' parser, the update view keeps a blank segment as a row `("", "string")`. */
  lemma BlankSegmentKept(s: string, i: nat)
    requires s != "" && i < |Split(s, ',')| && Strip(Split(s, ',')[i]) == ""
    ensures ParseStored(s)[i] == Attr("", "string")
    ensures |ParseForRender(s)| < |ParseStored(s)|
  {
    NonBlankDropsOnlyBlanks(Split(s, ','));
  }

  /** Without blank segments the two parsers agree. */
  lemma ParsersAgreeWithoutBlanks(s: string)
    requires s != ""
    requires forall i :: 0 <= i < |Split(s, ',')| ==> Strip(Split(s, ',')[i]) != ""
    ensures ParseForRender(s) == ParseStored(s)
  {
    var segs := Split(s, ',');
    NonBlankStrips(segs);
    forall i | 0 <= i < |segs| ensures Strip(NonBlank(segs)[i]) == Strip(segs[i]) {
      StripIdempotent(segs[i]);
    }
  }

  /**
   * A trailing comma: the update view reads it as one more row `("", "string")`,
   * the renderers read the string as if the comma were not there.
   */
  lemma TrailingComma(s: string)
    ensures var withComma := ParseStored(s + ",");
      |withComma| >= 1 && withComma[|withComma| - 1] == Attr("", "string") &&
      (s != "" ==> withComma[..|withComma| - 1] == ParseStored(s))
    ensures ParseForRender(s + ",") == ParseForRender(s)
  {
    SplitTrailingSeparator(s, ',');
    NonBlankIgnoresTrailingBlank(Split(s, ','));
    assert Strip("") == "";
  }

  // ---------------------------------------------------------------------
  // Round trip

  /** An attribute that survives being stored: a non-empty stripped name without separators. */
  predicate SafeAttr(a: Attr) {
    a.name != "" && Stripped(a.name) && ',' !in a.name && ':' !in a.name &&
    Stripped(a.tipo) && ',' !in a.tipo
  }

  /** A row accepted by `AttributeForm` is safe to store unless its name holds a separator. */
  lemma CleanedRowIsSafe(rawName: string, rawTipo: string)
    requires CleanAttributeForm(rawName, rawTipo).Cleaned?
    requires ',' !in rawName && ':' !in rawName
    ensures var r := CleanAttributeForm(rawName, rawTipo); SafeAttr(Attr(r.name, TagText(r.tag)))
  {
    StripResult(rawName);
    StripKeepsAbsent(rawName, ',');
    StripKeepsAbsent(rawName, ':');
  }

  lemma EntryIsStripped(a: Attr)
    requires SafeAttr(a)
    ensures Stripped(Entry(a)) && Entry(a) != "" && ',' !in Entry(a)
  {
    var e := Entry(a);
    assert e[0] == a.name[0];
    if a.tipo == "" {
      assert e[|e| - 1] == ':';
    } else {
      assert e[|e| - 1] == a.tipo[|a.tipo| - 1];
    }
  }

  lemma ParseEntryOfEntry(a: Attr)
    requires SafeAttr(a)
    ensures ParseEntry(Entry(a)) == a
  {
    ParseEntrySplitsAtFirstColon(a.name, a.tipo);
    StripOfStripped(a.name);
    StripOfStripped(a.tipo);
  }

  /** `Split(", ".join(es), ',')` is the first entry followed by the others each with its leading space. */
  lemma {:induction false} SplitJoined(es: seq<string>)
    requires |es| >= 1 && forall k :: 0 <= k < |es| ==> ',' !in es[k]
    ensures var parts := Split(Join(es, ", "), ',');
      |parts| == |es| && parts[0] == es[0] &&
      forall k :: 1 <= k < |es| ==> parts[k] == " " + es[k]
  {
    if |es| == 1 {
      SplitWithoutSeparator(es[0], ',');
    } else {
      var t := Join(es[1..], ", ");
      assert Join(es, ", ") == es[0] + [','] + (" " + t);
      SplitAtFirstSeparator(es[0], ',', " " + t);
      SplitJoined(es[1..]);
      assert (" " + t)[1..] == t;
      var tail := Split(t, ',');
      assert Split(" " + t, ',') == [" " + tail[0]] + tail[1..];
    }
  }

  /**
   * The segments of a stored non-empty list: one per attribute, each of
   * which strips to that attribute's entry.
   */
  lemma SerializedSegments(attrs: seq<Attr>)
    requires |attrs| >= 1 && forall a :: a in attrs ==> SafeAttr(a)
    ensures Serialize(attrs) != ""
    ensures var segs := Split(Serialize(attrs), ',');
      |segs| == |attrs| &&
      forall k :: 0 <= k < |segs| ==> Strip(segs[k]) == Entry(attrs[k]) && Strip(Entry(attrs[k])) == Entry(attrs[k])
  {
    var es := Entries(attrs);
    forall k | 0 <= k < |es| ensures ',' !in es[k] && Stripped(es[k]) && es[k] != "" {
      EntryIsStripped(attrs[k]);
    }
    SplitJoined(es);
    var segs := Split(Serialize(attrs), ',');
    assert Serialize(attrs) != "" by {
      assert segs[0] == es[0] != "";
    }
    forall k | 0 <= k < |segs| ensures Strip(segs[k]) == es[k] && Strip(es[k]) == es[k] {
      StripOfStripped(es[k]);
      if k > 0 {
        StripLeadingSpace(' ', es[k]);
      }
    }
  }

  /** Storing safe attributes and reading them back, by either parser, gives the same rows. */
  lemma SerializeRoundTrip(attrs: seq<Attr>)
    requires forall a :: a in attrs ==> SafeAttr(a)
    ensures ParseStored(Serialize(attrs)) == attrs
    ensures ParseForRender(Serialize(attrs)) == attrs
  {
    if attrs == [] {
      assert Serialize(attrs) == "";
      assert NonBlank([""]) == [];
    } else {
      SerializedSegments(attrs);
      var segs := Split(Serialize(attrs), ',');
      forall k | 0 <= k < |attrs| ensures ParseEntry(Strip(segs[k])) == attrs[k] {
        ParseEntryOfEntry(attrs[k]);
      }
      assert ParseStored(Serialize(attrs)) == attrs;
      forall k | 0 <= k < |segs| ensures Strip(segs[k]) != "" {
        EntryIsStripped(attrs[k]);
      }
      NonBlankStrips(segs);
      forall k | 0 <= k < |attrs| ensures ParseEntry(Strip(NonBlank(segs)[k])) == attrs[k] {
        ParseEntryOfEntry(attrs[k]);
      }
    }
  }
}
