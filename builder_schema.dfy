/**
 * `custom` and `api` of `microcms-api-schema-builder`. `createApiSchema` is the `gen` package's
 * text; `createCustomField` spreads its parameter record into the block instead of copying
 * `fieldId` and `name` one by one, which builds the same block.
 */
module BuilderSchema {
  import opened SchemaTypes
  import GenSchema

  /** The parameter record: the block's own `fieldId` and `name`, and its named descriptors. */
  datatype CustomFieldParams = CustomFieldParams(fieldId: string, name: string, fields: seq<(string, Field)>)

  /** `{...params, createdAt: at, updatedAt: at, viewerGroup, fields, position}` */
  function CreateCustomField(params: CustomFieldParams, ids: seq<string>, at: string, viewerGroup: string): (b: Block)
    requires |ids| == |params.fields| && GenSchema.NestableFields(params.fields)
    ensures b.fieldId == params.fieldId && b.name == params.name && b.viewerGroup == viewerGroup
    ensures b.createdAt == at && b.updatedAt == at
    ensures GenSchema.EntriesOf(b) == params.fields
    ensures forall i :: 0 <= i < |params.fields| ==>
      b.fields[i].idValue == if params.fields[i].1.body.Text? then params.fields[i].1.body.idValue else ids[i]
    ensures b.position == [GenSchema.IdValues(b.fields)]
  {
    var spread := Block(params.fieldId, params.name, "", "", "", [], []);
    var inner := seq(|params.fields|, i requires 0 <= i < |params.fields| =>
      GenSchema.PlaceInBlock(params.fields[i].0, params.fields[i].1, ids[i]));
    GenSchema.CustomFieldRoundTrip(params.fieldId, params.name, params.fields, ids, at, viewerGroup);
    spread.(createdAt := at, updatedAt := at, viewerGroup := viewerGroup, fields := inner,
            position := [GenSchema.IdValues(inner)])
  }

  /** The builder's blocks are the `gen` package's blocks. */
  lemma SameAsGen(params: CustomFieldParams, ids: seq<string>, at: string, viewerGroup: string)
    requires |ids| == |params.fields| && GenSchema.NestableFields(params.fields)
    ensures CreateCustomField(params, ids, at, viewerGroup) ==
      GenSchema.CreateCustomField(params.fieldId, params.name, params.fields, ids, at, viewerGroup)
  {
    var b := CreateCustomField(params, ids, at, viewerGroup);
    var g := GenSchema.CreateCustomField(params.fieldId, params.name, params.fields, ids, at, viewerGroup);
    assert |GenSchema.EntriesOf(b)| == |b.fields|;
    forall i | 0 <= i < |b.fields|
      ensures b.fields[i] == g.fields[i]
    {
      assert GenSchema.EntriesOf(b)[i] == params.fields[i];
    }
    assert b.fields == g.fields;
    assert b.position[0] == g.position[0];
  }

  /** The builder's `createApiSchema`, the same single pass as the `gen` package's. */
  method CreateApiSchema(entries: seq<(string, Field)>) returns (s: Schema)
    ensures s == GenSchema.Assemble(entries)
    ensures |s.apiFields| == |entries|
    ensures forall i :: 0 <= i < |entries| ==> s.apiFields[i].fieldId == entries[i].0
    ensures forall i, j :: 0 <= i < j < |s.customFields| ==> s.customFields[i].createdAt != s.customFields[j].createdAt
  {
    s := GenSchema.CreateApiSchema(entries);
    GenSchema.ApiFieldsInOrder(entries);
    GenSchema.CustomFieldsDistinct(entries);
  }
}
