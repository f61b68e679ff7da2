/**
 * The field factories of `microcms-api-schema-builder`. They are those of the `gen` package
 * with the display name passed as `name`, except that `select` takes no `multiple` and never
 * emits `multipleSelect`.
 */
module BuilderFields {
  import opened Wrappers
  import opened SchemaTypes
  import GenFields

  /** The parameter records the builder accepts: a select record carries no `multiple`. */
  predicate IsBuilderParams(p: GenFields.Params) {
    p.SelectParams? ==> p.multiple.None?
  }

  /** The builder's `select`: items with fresh ids, the initial value as the ids of requested items. */
  function CreateSelectField(c: GenFields.Common, selectItems: seq<string>,
                             selectInitialValue: Option<seq<string>>, ids: seq<string>): (f: Field)
    requires |ids| == |selectItems|
    ensures GenFields.HasCommon(f, c) && Kind(f.body) == "select"
    ensures |f.body.selectItems| == |selectItems|
    ensures forall i :: 0 <= i < |selectItems| ==>
      f.body.selectItems[i].value == selectItems[i] && f.body.selectItems[i].id == ids[i]
    ensures var idx := GenFields.MatchingIndices(f.body.selectItems, selectInitialValue);
      |f.body.selectInitialValue| == |idx| &&
      forall k :: 0 <= k < |idx| ==> f.body.selectInitialValue[k] == ids[idx[k]]
    ensures f.body.multipleSelect.None?
  {
    var items := GenFields.WithIds(selectItems, ids);
    GenFields.Make(c, Select(items, GenFields.InitialIds(items, selectInitialValue), None))
  }

  /** The builder's factory table. */
  function Create(p: GenFields.Params, ids: seq<string>): (f: Field)
    requires IsBuilderParams(p) && |ids| == GenFields.IdsNeeded(p)
    ensures GenFields.HasCommon(f, p.common)
    ensures f.body.Select? ==> f.body.multipleSelect.None?
  {
    match p
    case SelectParams(c, items, initial, _) => CreateSelectField(c, items, initial, ids)
    case _ => GenFields.Create(p, ids)
  }

  /** On every record the builder accepts, its table and the `gen` table build the same descriptor. */
  lemma SameAsGen(p: GenFields.Params, ids: seq<string>)
    requires IsBuilderParams(p) && |ids| == GenFields.IdsNeeded(p)
    ensures Create(p, ids) == GenFields.Create(p, ids)
  {
  }

  /** The builder's `select` is `gen`'s `select` called without `multiple`. */
  lemma SelectIsGenWithoutMultiple(c: GenFields.Common, selectItems: seq<string>,
                                   selectInitialValue: Option<seq<string>>, ids: seq<string>)
    requires |ids| == |selectItems|
    ensures CreateSelectField(c, selectItems, selectInitialValue, ids) ==
      GenFields.CreateSelectField(GenFields.SelectParams(c, selectItems, selectInitialValue, None), ids)
  {
  }
}
