/**
 * `convertSchema` of the type generator: render each top-level field, and each field of each
 * reusable block, as a doc comment and a TypeScript property line, resolving block references
 * through the `createdAt -> fieldId` lookup.
 */
module TypeGen {
  import opened Wrappers
  import OrderedMap
  import Casing

  /** A field as the generator reads it from the schema JSON; absent properties are `None`. */
  datatype FieldJson = FieldJson(
    fieldId: string,
    name: string,
    kind: string,
    required: Option<bool>,
    /** the `value` of each of `selectItems` */
    selectItems: Option<seq<string>>,
    multipleSelect: Option<bool>,
    customFieldCreatedAt: Option<string>,
    customFieldCreatedAtList: Option<seq<string>>)

  datatype BlockJson = BlockJson(createdAt: string, fieldId: string, fields: seq<FieldJson>)

  datatype SchemaJson = SchemaJson(apiFields: seq<FieldJson>, customFields: seq<BlockJson>)

  /**
   * Where the source throws a TypeError: a reference without a block (`pascalCase(undefined)`),
   * or a select or repeater field without its list (`list!.reduce`).
   */
  datatype GenError =
    | UnresolvedReference(key: string)
    | MissingSelectItems(fieldId: string)
    | MissingCreatedAtList(fieldId: string)

  /** `{mainSchema, customSchemas}`: property lines per field, and per block fieldId. */
  datatype Converted = Converted(mainSchema: seq<string>, customSchemas: seq<(string, seq<string>)>)

  /** `customFields.map(({fieldId, createdAt}) => [createdAt, fieldId])` */
  function LookupEntries(blocks: seq<BlockJson>): (es: seq<(string, string)>)
    ensures |es| == |blocks| && forall i :: 0 <= i < |blocks| ==> es[i] == (blocks[i].createdAt, blocks[i].fieldId)
  {
    seq(|blocks|, i requires 0 <= i < |blocks| => (blocks[i].createdAt, blocks[i].fieldId))
  }

  /** The blocks' `createdAt` values, in document order. */
  function CreatedAts(blocks: seq<BlockJson>): (ats: seq<string>)
    ensures |ats| == |blocks| && forall i :: 0 <= i < |blocks| ==> ats[i] == blocks[i].createdAt
  {
    seq(|blocks|, i requires 0 <= i < |blocks| => blocks[i].createdAt)
  }

  /** The blocks' `fieldId` values, in document order. */
  function BlockFieldIds(blocks: seq<BlockJson>): (ids: seq<string>)
    ensures |ids| == |blocks| && forall i :: 0 <= i < |blocks| ==> ids[i] == blocks[i].fieldId
  {
    seq(|blocks|, i requires 0 <= i < |blocks| => blocks[i].fieldId)
  }

  /** `Object.fromEntries(customFields.map(({fieldId, createdAt}) => [createdAt, fieldId]))` */
  function Customs(blocks: seq<BlockJson>): (m: seq<(string, string)>)
    ensures OrderedMap.DistinctKeys(m)
  {
    OrderedMap.FromEntries(LookupEntries(blocks))
  }

  /** The key a custom field looks up: an absent `customFieldCreatedAt` reads as the key "undefined". */
  function ReferenceKey(f: FieldJson): string {
    match f.customFieldCreatedAt
    case Some(k) => k
    case None => "undefined"
  }

  //////////////////////////
  // joining with ' | '
  //////////////////////////

  /** `list.reduce((a, rep, index) => `${a}${index ? ' | ' : ''}${rep}`, acc)` from position `index` on. */
  function Reduce(xs: seq<string>, acc: string, index: nat): (r: string)
    ensures |r| >= |acc| && r[..|acc|] == acc
    decreases |xs|
  {
    if xs == [] then acc
    else Reduce(xs[1..], acc + (if index != 0 then " | " else "") + xs[0], index + 1)
  }

  /** The reference definition: the items separated by " | ". */
  function JoinUnion(xs: seq<string>): string {
    if |xs| == 0 then ""
    else if |xs| == 1 then xs[0]
    else JoinUnion(xs[..|xs| - 1]) + " | " + xs[|xs| - 1]
  }

  lemma {:induction false} ReduceFrom(xs: seq<string>, acc: string, index: nat, done: seq<string>)
    requires index > 0 && |done| > 0 && acc == JoinUnion(done)
    ensures Reduce(xs, acc, index) == JoinUnion(done + xs)
    decreases |xs|
  {
    if xs == [] {
      assert done + xs == done;
    } else {
      var done' := done + [xs[0]];
      assert done'[..|done'| - 1] == done;
      assert JoinUnion(done') == acc + " | " + xs[0];
      assert done' + xs[1..] == done + xs;
      assert acc + (if index != 0 then " | " else "") + xs[0] == acc + " | " + xs[0];
      ReduceFrom(xs[1..], acc + " | " + xs[0], index + 1, done');
    }
  }

  /** The faithful fold and the reference join agree. */
  lemma ReduceIsJoin(xs: seq<string>)
    ensures Reduce(xs, "", 0) == JoinUnion(xs)
  {
    if xs != [] {
      assert [xs[0]] + xs[1..] == xs;
      assert "" + (if 0 != 0 then " | " else "") + xs[0] == xs[0];
      ReduceFrom(xs[1..], xs[0], 1, [xs[0]]);
    }
  }

  /** `'${value}'` */
  function Quote(v: string): string {
    "'" + v + "'"
  }

  function Quoted(vs: seq<string>): (r: seq<string>)
    ensures |r| == |vs| && forall i :: 0 <= i < |vs| ==> r[i] == Quote(vs[i])
  {
    seq(|vs|, i requires 0 <= i < |vs| => Quote(vs[i]))
  }

  /** An array type of a union: parenthesised when the union has more than one member. */
  function ArrayOf(count: nat, union: string): string {
    if count > 1 then "(" + union + ")[]" else union + "[]"
  }

  //////////////////////////
  // type expressions
  //////////////////////////

  /** `${name}CustomField${pascalCase(fieldId)}`: the type name of the block with that fieldId. */
  function BlockTypeName(name: string, fieldId: string): (r: string)
    ensures |r| >= |name| + 11 && r[..|name| + 11] == name + "CustomField"
    ensures |r| == |name| + 11 <==> fieldId == ""
  {
    name + "CustomField" + Casing.PascalCase(fieldId)
  }

  /** `${name}CustomField${pascalCase(customs[key])}`, failing when the key names no block. */
  function CustomTypeName(name: string, customs: seq<(string, string)>, key: string): (r: Result<string, GenError>)
    ensures r.Err? <==> OrderedMap.Get(customs, key).None?
    ensures r.Err? ==> r.error == UnresolvedReference(key)
    ensures r.Ok? ==> r.value == name + "CustomField" + Casing.PascalCase(OrderedMap.Get(customs, key).value)
  {
    match OrderedMap.Get(customs, key)
    case Some(fieldId) => Ok(BlockTypeName(name, fieldId))
    case None => Err(UnresolvedReference(key))
  }

  /** `keys[i]` is the first key that names no block. */
  predicate FirstUnresolved(customs: seq<(string, string)>, keys: seq<string>, i: int) {
    && 0 <= i < |keys|
    && OrderedMap.Get(customs, keys[i]).None?
    && forall j :: 0 <= j < i ==> OrderedMap.Get(customs, keys[j]).Some?
  }

  /** The type names of a repeater's blocks, in list order; the first unresolved key fails. */
  function CustomTypeNames(name: string, customs: seq<(string, string)>, keys: seq<string>): (r: Result<seq<string>, GenError>)
    ensures r.Ok? <==> forall i :: 0 <= i < |keys| ==> OrderedMap.Get(customs, keys[i]).Some?
    ensures r.Ok? ==> |r.value| == |keys|
    ensures r.Ok? ==> forall i :: 0 <= i < |keys| ==> r.value[i] == CustomTypeName(name, customs, keys[i]).value
    ensures r.Err? ==> exists i :: FirstUnresolved(customs, keys, i) && r.error == UnresolvedReference(keys[i])
  {
    if keys == [] then Ok([])
    else
      var first :- CustomTypeName(name, customs, keys[0]);
      var rest := CustomTypeNames(name, customs, keys[1..]);
      if rest.Err? then
        var i :| FirstUnresolved(customs, keys[1..], i) && rest.error == UnresolvedReference(keys[1..][i]);
        assert FirstUnresolved(customs, keys, i + 1);
        Err(rest.error)
      else
        Ok([first] + rest.value)
  }

  predicate IsStringKind(kind: string) {
    kind == "text" || kind == "textArea" || kind == "richEditor" || kind == "richEditorV2" || kind == "date"
  }

  /** The kinds the generator has a type for; every other kind renders as `any`. */
  predicate IsKnownKind(kind: string) {
    IsStringKind(kind) || kind == "number" || kind == "boolean" || kind == "select" || kind == "relation" ||
    kind == "relationList" || kind == "media" || kind == "file" || kind == "custom" || kind == "repeater"
  }

  /** `getKindType`: the TypeScript type of a field's value. */
  function KindType(name: string, customs: seq<(string, string)>, f: FieldJson): (r: Result<string, GenError>)
    ensures IsStringKind(f.kind) ==> r == Ok("string")
    ensures !IsKnownKind(f.kind) ==> r == Ok("any")
    ensures f.kind == "number" ==> r == Ok("number")
    ensures f.kind == "boolean" ==> r == Ok("boolean")
    ensures f.kind == "relation" ==> r == Ok("MicroCMSRelation<unknown | null>")
    ensures f.kind == "relationList" ==> r == Ok("MicroCMSRelation<unknown | null>[]")
    ensures f.kind == "media" ==> r == Ok("MicroCMSImage")
    ensures f.kind == "file" ==> r == Ok("{ url: string }")
    ensures r.Err? ==> f.kind == "select" || f.kind == "custom" || f.kind == "repeater"
    ensures f.kind == "select" ==> (r.Err? <==> f.selectItems.None?)
    ensures f.kind == "select" && f.selectItems.Some? && f.multipleSelect == Some(true) ==>
      r.value == ArrayOf(|f.selectItems.value|, JoinUnion(Quoted(f.selectItems.value)))
    ensures f.kind == "select" && f.selectItems.Some? && f.multipleSelect != Some(true) ==>
      r.value == "[" + JoinUnion(Quoted(f.selectItems.value)) + "]"
    ensures f.kind == "custom" ==> r == CustomTypeName(name, customs, ReferenceKey(f))
    ensures f.kind == "repeater" ==> (r.Err? <==>
      f.customFieldCreatedAtList.None? || CustomTypeNames(name, customs, f.customFieldCreatedAtList.value).Err?)
    ensures f.kind == "repeater" && r.Ok? ==>
      var names := CustomTypeNames(name, customs, f.customFieldCreatedAtList.value).value;
      r.value == ArrayOf(|names|, JoinUnion(names))
  {
    var kind := f.kind;
    if IsStringKind(kind) then Ok("string")
    else if kind == "number" then Ok("number")
    else if kind == "boolean" then Ok("boolean")
    else if kind == "select" then
      match f.selectItems
      case None => Err(MissingSelectItems(f.fieldId))
      case Some(list) =>
        var str := Reduce(Quoted(list), "", 0);
        ReduceIsJoin(Quoted(list));
        if f.multipleSelect == Some(true) then Ok(ArrayOf(|list|, str)) else Ok("[" + str + "]")
    else if kind == "relation" then Ok("MicroCMSRelation<unknown | null>")
    else if kind == "relationList" then Ok("MicroCMSRelation<unknown | null>[]")
    else if kind == "media" then Ok("MicroCMSImage")
    else if kind == "file" then Ok("{ url: string }")
    else if kind == "custom" then CustomTypeName(name, customs, ReferenceKey(f))
    else if kind == "repeater" then
      match f.customFieldCreatedAtList
      case None => Err(MissingCreatedAtList(f.fieldId))
      case Some(list) =>
        var names :- CustomTypeNames(name, customs, list);
        assert |names| == |list|;
        ReduceIsJoin(names);
        Ok(ArrayOf(|list|, Reduce(names, "", 0)))
    else Ok("any")
  }

  //////////////////////////
  // property lines
  //////////////////////////

  /** `getDoc`: a three-line doc comment holding the name. */
  function Doc(name: string): (r: string)
    ensures |r| == |name| + 11
    ensures r[..7] == "/**\n * " && r[7..|r| - 4] == name && r[|r| - 4..] == "\n */"
  {
    "/**\n * " + name + "\n */"
  }

  /** The property key: quoted when the field id contains a hyphen. */
  function PropertyName(fieldId: string): (r: string)
    ensures Casing.IsKebabCase(fieldId) ==> r == "\"" + fieldId + "\""
    ensures !Casing.IsKebabCase(fieldId) ==> r == fieldId
  {
    if Casing.IsKebabCase(fieldId) then "\"" + fieldId + "\"" else fieldId
  }

  /** `?` unless `required` is true. */
  function OptionalMarker(required: Option<bool>): (r: string)
    ensures r == "" <==> required == Some(true)
    ensures required != Some(true) ==> r == "?"
  {
    if required == Some(true) then "" else "?"
  }

  /** One entry of `getFields`: the doc comment, then `key?: type`. */
  function RenderField(name: string, customs: seq<(string, string)>, f: FieldJson): (r: Result<string, GenError>)
    ensures r.Err? <==> KindType(name, customs, f).Err?
    ensures r.Err? ==> r.error == KindType(name, customs, f).error
    ensures r.Ok? ==>
      r.value == Doc(f.name) + "\n" + PropertyName(f.fieldId) + OptionalMarker(f.required) + ": " + KindType(name, customs, f).value
  {
    var t :- KindType(name, customs, f);
    Ok(Doc(f.name) + "\n" + PropertyName(f.fieldId) + OptionalMarker(f.required) + ": " + t)
  }

  /** `fs[i]` is the first field that fails to render. */
  predicate FirstFailing(name: string, customs: seq<(string, string)>, fs: seq<FieldJson>, i: int) {
    && 0 <= i < |fs|
    && RenderField(name, customs, fs[i]).Err?
    && forall j :: 0 <= j < i ==> RenderField(name, customs, fs[j]).Ok?
  }

  /** `getFields`: one entry per field, in order; the first field that fails fails the whole list. */
  function RenderFields(name: string, customs: seq<(string, string)>, fs: seq<FieldJson>): (r: Result<seq<string>, GenError>)
    ensures r.Ok? <==> forall i :: 0 <= i < |fs| ==> RenderField(name, customs, fs[i]).Ok?
    ensures r.Ok? ==> |r.value| == |fs|
    ensures r.Ok? ==> forall i :: 0 <= i < |fs| ==> r.value[i] == RenderField(name, customs, fs[i]).value
    ensures r.Err? ==> exists i :: FirstFailing(name, customs, fs, i) && r.error == RenderField(name, customs, fs[i]).error
  {
    if fs == [] then Ok([])
    else
      var first :- RenderField(name, customs, fs[0]);
      var rest := RenderFields(name, customs, fs[1..]);
      if rest.Err? then
        var i :| FirstFailing(name, customs, fs[1..], i) && rest.error == RenderField(name, customs, fs[1..][i]).error;
        assert FirstFailing(name, customs, fs, i + 1);
        Err(rest.error)
      else
        Ok([first] + rest.value)
  }

  /** `getCustomFields`: the synthetic `fieldId` literal property, then the block's own fields. */
  function CustomFieldLines(name: string, customs: seq<(string, string)>, b: BlockJson): (r: Result<seq<string>, GenError>)
    ensures r.Err? <==> RenderFields(name, customs, b.fields).Err?
    ensures r.Ok? ==> r.value == [Doc("fieldId") + "\nfieldId: '" + b.fieldId + "'"] + RenderFields(name, customs, b.fields).value
  {
    var lines :- RenderFields(name, customs, b.fields);
    Ok([Doc("fieldId") + "\nfieldId: '" + b.fieldId + "'"] + lines)
  }

  /** The `[fieldId, lines]` pairs of the blocks, in order; the first block that fails fails all. */
  function RenderBlocks(name: string, customs: seq<(string, string)>, bs: seq<BlockJson>): (r: Result<seq<(string, seq<string>)>, GenError>)
    ensures r.Ok? <==> forall i :: 0 <= i < |bs| ==> CustomFieldLines(name, customs, bs[i]).Ok?
    ensures r.Ok? ==> |r.value| == |bs|
    ensures r.Ok? ==> forall i :: 0 <= i < |bs| ==> r.value[i] == (bs[i].fieldId, CustomFieldLines(name, customs, bs[i]).value)
  {
    if bs == [] then Ok([])
    else
      var first :- CustomFieldLines(name, customs, bs[0]);
      var rest :- RenderBlocks(name, customs, bs[1..]);
      Ok([(bs[0].fieldId, first)] + rest)
  }

  /** `convertSchema`. */
  function ConvertSchema(name: string, s: SchemaJson): (r: Result<Converted, GenError>)
    ensures r.Ok? <==>
      RenderFields(name, Customs(s.customFields), s.apiFields).Ok? &&
      forall i :: 0 <= i < |s.customFields| ==> RenderFields(name, Customs(s.customFields), s.customFields[i].fields).Ok?
    ensures r.Ok? ==> r.value.mainSchema == RenderFields(name, Customs(s.customFields), s.apiFields).value
    ensures r.Ok? ==> OrderedMap.DistinctKeys(r.value.customSchemas)
    ensures r.Ok? ==> RenderBlocks(name, Customs(s.customFields), s.customFields).Ok?
    ensures r.Ok? ==>
      r.value.customSchemas == OrderedMap.FromEntries(RenderBlocks(name, Customs(s.customFields), s.customFields).value)
  {
    var customs := Customs(s.customFields);
    var mainSchema :- RenderFields(name, customs, s.apiFields);
    var blocks :- RenderBlocks(name, customs, s.customFields);
    Ok(Converted(mainSchema, OrderedMap.FromEntries(blocks)))
  }

  //////////////////////////
  // properties
  //////////////////////////

  /** A field fails exactly when it is a select without items, a repeater without its list, or a reference without a block. */
  lemma RenderFieldFails(name: string, customs: seq<(string, string)>, f: FieldJson)
    ensures RenderField(name, customs, f).Err? <==>
      || (f.kind == "select" && f.selectItems.None?)
      || (f.kind == "custom" && OrderedMap.Get(customs, ReferenceKey(f)).None?)
      || (f.kind == "repeater" && (f.customFieldCreatedAtList.None? ||
            exists i :: 0 <= i < |f.customFieldCreatedAtList.value| &&
              OrderedMap.Get(customs, f.customFieldCreatedAtList.value[i]).None?))
  {
  }

  /**
   * A createdAt that names a block resolves to the fieldId of the last block carrying it: a later
   * block overwrites an earlier one in the lookup.
   */
  lemma LookupResolves(blocks: seq<BlockJson>, k: nat)
    requires k < |blocks|
    ensures blocks[k].createdAt in CreatedAts(blocks)
    ensures OrderedMap.Get(Customs(blocks), blocks[k].createdAt) ==
      Some(blocks[OrderedMap.LastIndex(CreatedAts(blocks), blocks[k].createdAt)].fieldId)
  {
    var es := LookupEntries(blocks);
    assert OrderedMap.Keys(es) == CreatedAts(blocks);
    assert OrderedMap.Keys(es)[k] == blocks[k].createdAt;
    OrderedMap.GetFromEntries(es, blocks[k].createdAt);
  }

  /**
   * A custom field whose createdAt names a block renders with the type name of the last block
   * carrying that createdAt: `${name}CustomField${pascalCase(fieldId)}`.
   */
  lemma CustomReferenceResolves(name: string, blocks: seq<BlockJson>, f: FieldJson, k: nat)
    requires k < |blocks| && f.kind == "custom" && f.customFieldCreatedAt == Some(blocks[k].createdAt)
    ensures blocks[k].createdAt in CreatedAts(blocks)
    ensures KindType(name, Customs(blocks), f) == Ok(name + "CustomField" +
      Casing.PascalCase(blocks[OrderedMap.LastIndex(CreatedAts(blocks), blocks[k].createdAt)].fieldId))
  {
    LookupResolves(blocks, k);
  }

  /** The rendered `[fieldId, lines]` pairs are keyed by the blocks' fieldIds, in document order. */
  lemma RenderedKeys(name: string, customs: seq<(string, string)>, bs: seq<BlockJson>)
    requires RenderBlocks(name, customs, bs).Ok?
    ensures OrderedMap.Keys(RenderBlocks(name, customs, bs).value) == BlockFieldIds(bs)
  {
    var rendered := RenderBlocks(name, customs, bs).value;
    assert forall i :: 0 <= i < |bs| ==> OrderedMap.Keys(rendered)[i] == BlockFieldIds(bs)[i];
  }

  /**
   * `Object.fromEntries` of the rendered pairs: keyed by exactly the blocks' fieldIds, in the order
   * of their first occurrence, each holding the lines of the last block with that fieldId.
   */
  lemma SchemasOfRendered(name: string, customs: seq<(string, string)>, bs: seq<BlockJson>)
    requires RenderBlocks(name, customs, bs).Ok?
    ensures var cs := OrderedMap.FromEntries(RenderBlocks(name, customs, bs).value);
      forall k :: k in OrderedMap.Keys(cs) <==> k in BlockFieldIds(bs)
    ensures var cs := OrderedMap.FromEntries(RenderBlocks(name, customs, bs).value); var ids := BlockFieldIds(bs);
      forall i, j :: 0 <= i < j < |cs| ==> OrderedMap.FirstIndex(ids, cs[i].0) < OrderedMap.FirstIndex(ids, cs[j].0)
    ensures var cs := OrderedMap.FromEntries(RenderBlocks(name, customs, bs).value); var ids := BlockFieldIds(bs);
      forall i :: 0 <= i < |cs| ==> cs[i].1 == CustomFieldLines(name, customs, bs[OrderedMap.LastIndex(ids, cs[i].0)]).value
  {
    var rendered := RenderBlocks(name, customs, bs).value;
    var cs := OrderedMap.FromEntries(rendered);
    RenderedKeys(name, customs, bs);
    OrderedMap.FromEntriesKeys(rendered);
    OrderedMap.FromEntriesOrder(rendered);
    forall i | 0 <= i < |cs|
      ensures cs[i].1 == CustomFieldLines(name, customs, bs[OrderedMap.LastIndex(BlockFieldIds(bs), cs[i].0)]).value
    {
      OrderedMap.FromEntriesEntry(rendered, i);
    }
  }

  /**
   * `customSchemas` of a successful conversion: its keys are exactly the blocks' fieldIds, in the
   * order of their first occurrence, and each holds the lines of the last block with that fieldId.
   */
  lemma CustomSchemasByFieldId(name: string, s: SchemaJson)
    requires ConvertSchema(name, s).Ok?
    ensures var cs := ConvertSchema(name, s).value.customSchemas;
      forall k :: k in OrderedMap.Keys(cs) <==> k in BlockFieldIds(s.customFields)
    ensures var cs := ConvertSchema(name, s).value.customSchemas; var ids := BlockFieldIds(s.customFields);
      forall i, j :: 0 <= i < j < |cs| ==> OrderedMap.FirstIndex(ids, cs[i].0) < OrderedMap.FirstIndex(ids, cs[j].0)
    ensures var cs := ConvertSchema(name, s).value.customSchemas; var ids := BlockFieldIds(s.customFields);
      forall i :: 0 <= i < |cs| ==>
        cs[i].1 == CustomFieldLines(name, Customs(s.customFields), s.customFields[OrderedMap.LastIndex(ids, cs[i].0)]).value
  {
    SchemasOfRendered(name, Customs(s.customFields), s.customFields);
  }

  /** A custom field whose createdAt names no block fails with that key: no placeholder type is emitted. */
  lemma UnresolvedReferenceFails(name: string, blocks: seq<BlockJson>, f: FieldJson)
    requires f.kind == "custom" && f.customFieldCreatedAt.Some?
    requires forall i :: 0 <= i < |blocks| ==> blocks[i].createdAt != f.customFieldCreatedAt.value
    ensures RenderField(name, Customs(blocks), f) == Err(UnresolvedReference(f.customFieldCreatedAt.value))
  {
    var es := LookupEntries(blocks);
    OrderedMap.GetFromEntries(es, f.customFieldCreatedAt.value);
  }

  /** Items `A`, `B`: `('A' | 'B')[]` when multiple, `['A' | 'B']` otherwise. */
  lemma SelectTypeExample(name: string, customs: seq<(string, string)>, f: FieldJson)
    requires f.kind == "select" && f.selectItems == Some(["A", "B"])
    ensures f.multipleSelect == Some(true) ==> KindType(name, customs, f) == Ok("('A' | 'B')[]")
    ensures f.multipleSelect != Some(true) ==> KindType(name, customs, f) == Ok("['A' | 'B']")
  {
    var q := Quoted(["A", "B"]);
    assert q[0] == "'A'" && q[1] == "'B'";
    assert q == ["'A'", "'B'"];
    assert q[..1] == ["'A'"];
    assert JoinUnion(q) == "'A' | 'B'";
    assert ArrayOf(2, "'A' | 'B'") == "('A' | 'B')[]";
    assert "[" + "'A' | 'B'" + "]" == "['A' | 'B']";
  }
}
