/**
 * The assembled schema document as the type generator reads it back from JSON, and the
 * guarantee that generation resolves every reference of a document the assembler built.
 */
module RoundTrip {
  import opened Wrappers
  import opened SchemaTypes
  import OrderedMap
  import GenSchema
  import TypeGen

  /** A select descriptor serialises its item values and `multipleSelect`; other kinds carry neither. */
  function SelectValues(b: Body): Option<seq<string>> {
    match b
    case Select(items, _, _) => Some(seq(|items|, i requires 0 <= i < |items| => items[i].value))
    case _ => None
  }

  function MultipleSelect(b: Body): Option<bool> {
    match b
    case Select(_, _, multiple) => multiple
    case _ => None
  }

  /**
   * A descriptor read back as plain data. A block inside it is not a createdAt reference, so a
   * custom or repeater descriptor read this way has neither `customFieldCreatedAt` nor a list.
   */
  function FieldJsonOf(fieldId: string, f: Field): TypeGen.FieldJson {
    TypeGen.FieldJson(fieldId, f.name, Kind(f.body), f.required, SelectValues(f.body), MultipleSelect(f.body), None, None)
  }

  function ApiFieldJson(a: ApiField): TypeGen.FieldJson {
    match a
    case Plain(fieldId, f) => FieldJsonOf(fieldId, f)
    case CustomRef(fieldId, at, name, _, required) =>
      TypeGen.FieldJson(fieldId, name, "custom", required, None, None, Some(at), None)
    case RepeaterRef(fieldId, ats, name, _, required, _) =>
      TypeGen.FieldJson(fieldId, name, "repeater", required, None, None, None, Some(ats))
  }

  function BlockJsonOf(b: Block): (r: TypeGen.BlockJson)
    ensures r.createdAt == b.createdAt && r.fieldId == b.fieldId && |r.fields| == |b.fields|
    ensures forall i :: 0 <= i < |b.fields| ==> r.fields[i] == FieldJsonOf(b.fields[i].fieldId, b.fields[i].field)
  {
    TypeGen.BlockJson(b.createdAt, b.fieldId,
      seq(|b.fields|, i requires 0 <= i < |b.fields| => FieldJsonOf(b.fields[i].fieldId, b.fields[i].field)))
  }

  /** The document as JSON data. */
  function Serialize(s: Schema): (r: TypeGen.SchemaJson)
    ensures |r.apiFields| == |s.apiFields| && |r.customFields| == |s.customFields|
    ensures forall i :: 0 <= i < |s.apiFields| ==> r.apiFields[i] == ApiFieldJson(s.apiFields[i])
    ensures forall i :: 0 <= i < |s.customFields| ==> r.customFields[i] == BlockJsonOf(s.customFields[i])
  {
    TypeGen.SchemaJson(
      seq(|s.apiFields|, i requires 0 <= i < |s.apiFields| => ApiFieldJson(s.apiFields[i])),
      seq(|s.customFields|, i requires 0 <= i < |s.customFields| => BlockJsonOf(s.customFields[i])))
  }

  /** A block whose fields hold no block of their own. */
  predicate FlatBlock(b: Block) {
    forall i :: 0 <= i < |b.fields| ==> !b.fields[i].field.body.Custom? && !b.fields[i].field.body.Repeater?
  }

  /** Every block some entry references is flat. */
  predicate FlatReferences(entries: seq<(string, Field)>) {
    forall i, e :: 0 <= i < |entries| && e in GenSchema.Referenced(entries[i].1) ==> FlatBlock(e.1)
  }

  /** A descriptor that holds no block renders whatever the lookup holds. */
  lemma PlainFieldRenders(name: string, customs: seq<(string, string)>, fieldId: string, f: Field)
    requires !f.body.Custom? && !f.body.Repeater?
    ensures TypeGen.RenderField(name, customs, FieldJsonOf(fieldId, f)).Ok?
  {
    TypeGen.RenderFieldFails(name, customs, FieldJsonOf(fieldId, f));
  }

  /** A createdAt of a block of the document resolves in the generator's lookup. */
  lemma ResolvesInLookup(s: Schema, at: string)
    requires exists i :: 0 <= i < |s.customFields| && s.customFields[i].createdAt == at
    ensures OrderedMap.Get(TypeGen.Customs(Serialize(s).customFields), at).Some?
  {
    var i :| 0 <= i < |s.customFields| && s.customFields[i].createdAt == at;
    var f := TypeGen.FieldJson("", "", "custom", None, None, None, Some(at), None);
    TypeGen.CustomReferenceResolves("", Serialize(s).customFields, f, i);
  }

  /** Each top-level entry of an assembled document renders. */
  lemma ApiFieldRenders(name: string, entries: seq<(string, Field)>, k: nat)
    requires k < |entries|
    ensures var s := Serialize(GenSchema.Assemble(entries));
      TypeGen.RenderField(name, TypeGen.Customs(s.customFields), s.apiFields[k]).Ok?
  {
    var doc := GenSchema.Assemble(entries);
    var s := Serialize(doc);
    var customs := TypeGen.Customs(s.customFields);
    var a := doc.apiFields[k];
    assert a == GenSchema.Rewrite(entries[k].0, entries[k].1);
    var fj := s.apiFields[k];
    TypeGen.RenderFieldFails(name, customs, fj);
    match a {
      case Plain(fieldId, f) =>
        PlainFieldRenders(name, customs, fieldId, f);
      case CustomRef(_, at, _, _, _) =>
        GenSchema.ReferencesResolve(entries, k, at);
        ResolvesInLookup(doc, at);
      case RepeaterRef(_, ats, _, _, _, _) =>
        forall j | 0 <= j < |ats| ensures OrderedMap.Get(customs, ats[j]).Some? {
          GenSchema.ReferencesResolve(entries, k, ats[j]);
          ResolvesInLookup(doc, ats[j]);
        }
    }
  }

  /** Each block of an assembled document with flat references renders. */
  lemma BlockRenders(name: string, entries: seq<(string, Field)>, k: nat)
    requires FlatReferences(entries)
    requires k < |GenSchema.Assemble(entries).customFields|
    ensures var s := Serialize(GenSchema.Assemble(entries));
      TypeGen.RenderFields(name, TypeGen.Customs(s.customFields), s.customFields[k].fields).Ok?
  {
    var doc := GenSchema.Assemble(entries);
    var s := Serialize(doc);
    var customs := TypeGen.Customs(s.customFields);
    var b := doc.customFields[k];
    GenSchema.CustomFieldKey(entries, k);
    var es := GenSchema.Pushed(entries);
    var ks := OrderedMap.Keys(es);
    var p := OrderedMap.LastIndex(ks, b.createdAt);
    assert es[p] in es;
    GenSchema.PushedReferenced(entries, es[p]);
    forall j | 0 <= j < |b.fields|
      ensures TypeGen.RenderField(name, customs, s.customFields[k].fields[j]).Ok?
    {
      PlainFieldRenders(name, customs, b.fields[j].fieldId, b.fields[j].field);
    }
  }

  /**
   * Generating types for a document the assembler built resolves every custom and repeater
   * reference, provided the referenced blocks hold no block themselves.
   */
  lemma AssembledSchemaConverts(name: string, entries: seq<(string, Field)>)
    requires FlatReferences(entries)
    ensures TypeGen.ConvertSchema(name, Serialize(GenSchema.Assemble(entries))).Ok?
  {
    var s := Serialize(GenSchema.Assemble(entries));
    forall k | 0 <= k < |s.apiFields|
      ensures TypeGen.RenderField(name, TypeGen.Customs(s.customFields), s.apiFields[k]).Ok?
    {
      ApiFieldRenders(name, entries, k);
    }
    forall k | 0 <= k < |s.customFields|
      ensures TypeGen.RenderFields(name, TypeGen.Customs(s.customFields), s.customFields[k].fields).Ok?
    {
      BlockRenders(name, entries, k);
    }
  }

  /** A repeater field without its list inside any block of a document makes generation fail. */
  lemma ListlessBlockFieldFails(name: string, s: TypeGen.SchemaJson, k: nat, j: nat)
    requires k < |s.customFields| && j < |s.customFields[k].fields|
    requires s.customFields[k].fields[j].kind == "repeater" && s.customFields[k].fields[j].customFieldCreatedAtList.None?
    ensures TypeGen.ConvertSchema(name, s).Err?
  {
    var customs := TypeGen.Customs(s.customFields);
    assert TypeGen.RenderField(name, customs, s.customFields[k].fields[j]).Err?;
    assert TypeGen.RenderFields(name, customs, s.customFields[k].fields).Err?;
  }

  /**
   * A repeater inside a block has no createdAt list once serialised, so generation fails: the
   * flatness condition above cannot be dropped.
   */
  lemma NestedRepeaterFails(name: string, entries: seq<(string, Field)>, k: nat, j: nat)
    requires k < |GenSchema.Assemble(entries).customFields|
    requires j < |GenSchema.Assemble(entries).customFields[k].fields|
    requires GenSchema.Assemble(entries).customFields[k].fields[j].field.body.Repeater?
    ensures TypeGen.ConvertSchema(name, Serialize(GenSchema.Assemble(entries))).Err?
  {
    var b := GenSchema.Assemble(entries).customFields[k];
    var s := Serialize(GenSchema.Assemble(entries));
    assert s.customFields[k] == BlockJsonOf(b);
    assert s.customFields[k].fields[j] == FieldJsonOf(b.fields[j].fieldId, b.fields[j].field);
    ListlessBlockFieldFails(name, s, k, j);
  }
}
