/**
 * `custom` (build a reusable block from named descriptors) and `api` (assemble the schema
 * document) of the `gen` package. An object's entries are a sequence of (key, value) pairs in
 * the object's iteration order.
 */
module GenSchema {
  import opened Wrappers
  import opened SchemaTypes
  import OrderedMap

  //////////////////////////
  // reusable blocks
  //////////////////////////

  /** `{idValue: generateId(), fieldId, ...field}`: the spread lets a text field keep its own idValue. */
  function PlaceInBlock(fieldId: string, f: Field, freshId: string): InnerField {
    InnerField(if f.body.Text? then f.body.idValue else freshId, fieldId, f)
  }

  /** The inner field idValues in block order: the one row of `position`. */
  function IdValues(fields: seq<InnerField>): (r: seq<string>)
    ensures |r| == |fields| && forall i :: 0 <= i < |fields| ==> r[i] == fields[i].idValue
  {
    seq(|fields|, i requires 0 <= i < |fields| => fields[i].idValue)
  }

  /** The block's inner fields may be of any kind except `custom` (a static constraint of the source's types). */
  predicate NestableFields(fields: seq<(string, Field)>) {
    forall i :: 0 <= i < |fields| ==> !fields[i].1.body.Custom?
  }

  /**
   * Build a reusable block. `ids` are the ids drawn for the inner fields, in entry order;
   * `at` is the shared creation instant; `viewerGroup` the 3-character id.
   */
  function CreateCustomField(fieldId: string, name: string, fields: seq<(string, Field)>,
                             ids: seq<string>, at: string, viewerGroup: string): (b: Block)
    requires |ids| == |fields| && NestableFields(fields)
    ensures b.fieldId == fieldId && b.name == name && b.viewerGroup == viewerGroup
    ensures b.createdAt == at && b.updatedAt == at
    ensures |b.fields| == |fields|
    ensures forall i :: 0 <= i < |fields| ==>
      && b.fields[i].fieldId == fields[i].0
      && b.fields[i].field == fields[i].1
      && (fields[i].1.body.Text? ==> b.fields[i].idValue == fields[i].1.body.idValue)
      && (!fields[i].1.body.Text? ==> b.fields[i].idValue == ids[i])
    ensures |b.position| == 1 && |b.position[0]| == |fields|
    ensures forall i :: 0 <= i < |fields| ==> b.position[0][i] == b.fields[i].idValue
  {
    var inner := seq(|fields|, i requires 0 <= i < |fields| => PlaceInBlock(fields[i].0, fields[i].1, ids[i]));
    Block(fieldId, name, at, at, viewerGroup, inner, [IdValues(inner)])
  }

  /** The named descriptors a block wraps, read back from it. */
  function EntriesOf(b: Block): seq<(string, Field)> {
    seq(|b.fields|, i requires 0 <= i < |b.fields| => (b.fields[i].fieldId, b.fields[i].field))
  }

  /**
   * A block loses none of its entries: they read back in order; every non-text slot holds the id
   * drawn for it, and a text slot the text field's own idValue.
   */
  lemma CustomFieldRoundTrip(fieldId: string, name: string, fields: seq<(string, Field)>,
                             ids: seq<string>, at: string, viewerGroup: string)
    requires |ids| == |fields| && NestableFields(fields)
    ensures var b := CreateCustomField(fieldId, name, fields, ids, at, viewerGroup);
      EntriesOf(b) == fields
    ensures var b := CreateCustomField(fieldId, name, fields, ids, at, viewerGroup);
      forall i :: 0 <= i < |fields| ==>
        b.fields[i].idValue == if fields[i].1.body.Text? then fields[i].1.body.idValue else ids[i]
  {
    var b := CreateCustomField(fieldId, name, fields, ids, at, viewerGroup);
    assert forall i :: 0 <= i < |fields| ==> EntriesOf(b)[i] == fields[i];
  }

  //////////////////////////
  // the schema document
  //////////////////////////

  function CreatedAts(blocks: seq<Block>): (r: seq<string>)
    ensures |r| == |blocks| && forall i :: 0 <= i < |blocks| ==> r[i] == blocks[i].createdAt
  {
    seq(|blocks|, i requires 0 <= i < |blocks| => blocks[i].createdAt)
  }

  /** The `apiFields` entry for one named descriptor: custom and repeater blocks become createdAt references. */
  function Rewrite(fieldId: string, f: Field): (a: ApiField)
    ensures a.fieldId == fieldId
    ensures f.body.Custom? <==> a.CustomRef?
    ensures f.body.Repeater? <==> a.RepeaterRef?
    ensures a.Plain? ==> a.field == f
    ensures a.CustomRef? ==> a.customFieldCreatedAt == f.body.field.createdAt
    ensures a.RepeaterRef? ==> a.customFieldCreatedAtList == CreatedAts(f.body.fields) && a.repeatCount == f.body.repeatCount
    ensures !a.Plain? ==> a.name == f.name && a.description == f.description && a.required == f.required
  {
    match f.body
    case Custom(b) => CustomRef(fieldId, b.createdAt, f.name, f.description, f.required)
    case Repeater(blocks, count) => RepeaterRef(fieldId, CreatedAts(blocks), f.name, f.description, f.required, count)
    case _ => Plain(fieldId, f)
  }

  function Keyed(blocks: seq<Block>): (r: seq<(string, Block)>)
    ensures |r| == |blocks| && forall i :: 0 <= i < |blocks| ==> r[i] == (blocks[i].createdAt, blocks[i])
  {
    seq(|blocks|, i requires 0 <= i < |blocks| => (blocks[i].createdAt, blocks[i]))
  }

  /** The `(createdAt, block)` pairs one descriptor pushes onto the accumulator. */
  function Referenced(f: Field): seq<(string, Block)> {
    match f.body
    case Custom(b) => [(b.createdAt, b)]
    case Repeater(blocks, _) => Keyed(blocks)
    case _ => []
  }

  /** Everything pushed onto the accumulator by the entries, in push order. */
  function Pushed(entries: seq<(string, Field)>): seq<(string, Block)> {
    if entries == [] then []
    else Pushed(entries[..|entries| - 1]) + Referenced(entries[|entries| - 1].1)
  }

  /** The rewritten entries, in entry order. */
  function Rewritten(entries: seq<(string, Field)>): (r: seq<ApiField>)
    ensures |r| == |entries|
  {
    seq(|entries|, i requires 0 <= i < |entries| => Rewrite(entries[i].0, entries[i].1))
  }

  /** The document `createApiSchema` returns. */
  function Assemble(entries: seq<(string, Field)>): (s: Schema)
    ensures |s.apiFields| == |entries|
    ensures forall i :: 0 <= i < |entries| ==> s.apiFields[i] == Rewrite(entries[i].0, entries[i].1)
  {
    Schema(Rewritten(entries), OrderedMap.Values(OrderedMap.FromEntries(Pushed(entries))))
  }

  /**
   * One step of `createApiSchema`'s map callback: push the blocks the descriptor references and
   * return its rewritten entry.
   */
  method RewriteAndPush(fieldId: string, f: Field, pushed: seq<(string, Block)>)
    returns (pushed': seq<(string, Block)>, a: ApiField)
    ensures pushed' == pushed + Referenced(f)
    ensures a == Rewrite(fieldId, f)
  {
    pushed' := pushed;
    match f.body {
      case Custom(b) =>
        pushed' := pushed' + [(b.createdAt, b)];
        a := CustomRef(fieldId, b.createdAt, f.name, f.description, f.required);
      case Repeater(blocks, count) =>
        var j := 0;
        while j < |blocks|
          invariant j <= |blocks|
          invariant pushed' == pushed + Keyed(blocks)[..j]
        {
          pushed' := pushed' + [(blocks[j].createdAt, blocks[j])];
          j := j + 1;
        }
        assert Keyed(blocks)[..j] == Keyed(blocks);
        a := RepeaterRef(fieldId, CreatedAts(blocks), f.name, f.description, f.required, count);
      case _ =>
        a := Plain(fieldId, f);
    }
  }

  lemma PushedStep(entries: seq<(string, Field)>, i: nat)
    requires i < |entries|
    ensures Pushed(entries[..i + 1]) == Pushed(entries[..i]) + Referenced(entries[i].1)
    ensures Rewritten(entries[..i + 1]) == Rewritten(entries[..i]) + [Rewrite(entries[i].0, entries[i].1)]
  {
    assert entries[..i + 1][..i] == entries[..i];
  }

  /**
   * `createApiSchema`: one pass over the entries that rewrites each descriptor and pushes every
   * block it references, then deduplicates the pushed blocks by createdAt.
   */
  method CreateApiSchema(entries: seq<(string, Field)>) returns (s: Schema)
    ensures s == Assemble(entries)
  {
    var pushed: seq<(string, Block)> := [];
    var apiFields: seq<ApiField> := [];
    var i := 0;
    while i < |entries|
      invariant i <= |entries|
      invariant pushed == Pushed(entries[..i])
      invariant apiFields == Rewritten(entries[..i])
    {
      var a;
      pushed, a := RewriteAndPush(entries[i].0, entries[i].1, pushed);
      apiFields := apiFields + [a];
      PushedStep(entries, i);
      i := i + 1;
    }
    assert entries[..i] == entries;
    s := Schema(apiFields, OrderedMap.Values(OrderedMap.FromEntries(pushed)));
  }

  //////////////////////////
  // properties of the document
  //////////////////////////

  /** Every pushed pair is keyed by its block's own createdAt. */
  ghost predicate KeyedByCreatedAt(es: seq<(string, Block)>) {
    forall i :: 0 <= i < |es| ==> es[i].0 == es[i].1.createdAt
  }

  lemma {:induction false} PushedKeyed(entries: seq<(string, Field)>)
    ensures KeyedByCreatedAt(Pushed(entries))
  {
    if entries != [] {
      PushedKeyed(entries[..|entries| - 1]);
    }
  }

  /** `apiFields` follows the entries' order and keeps each entry's key as its fieldId. */
  lemma ApiFieldsInOrder(entries: seq<(string, Field)>)
    ensures |Assemble(entries).apiFields| == |entries|
    ensures forall i :: 0 <= i < |entries| ==> Assemble(entries).apiFields[i].fieldId == entries[i].0
  {
  }

  /** The blocks the entry at position `i` references are among the pushed pairs. */
  lemma {:induction false} ReferencedPushed(entries: seq<(string, Field)>, i: nat)
    requires i < |entries|
    ensures forall e :: e in Referenced(entries[i].1) ==> e in Pushed(entries)
  {
    var n := |entries| - 1;
    if i < n {
      ReferencedPushed(entries[..n], i);
    }
  }

  /** Every pushed pair comes from the blocks some entry references. */
  lemma {:induction false} PushedReferenced(entries: seq<(string, Field)>, e: (string, Block))
    requires e in Pushed(entries)
    ensures exists i :: 0 <= i < |entries| && e in Referenced(entries[i].1)
  {
    var n := |entries| - 1;
    if e !in Referenced(entries[n].1) {
      PushedReferenced(entries[..n], e);
      var i :| 0 <= i < n && e in Referenced(entries[..n][i].1);
      assert entries[..n][i] == entries[i];
    }
  }

  /** The createdAt values of `customFields` are pairwise distinct: a shared block appears once. */
  lemma CustomFieldsDistinct(entries: seq<(string, Field)>)
    ensures var cs := Assemble(entries).customFields;
      forall i, j :: 0 <= i < j < |cs| ==> cs[i].createdAt != cs[j].createdAt
  {
    var cs := Assemble(entries).customFields;
    forall i, j | 0 <= i < j < |cs| ensures cs[i].createdAt != cs[j].createdAt {
      CustomFieldKey(entries, i);
      CustomFieldKey(entries, j);
    }
  }

  /**
   * The `i`-th block of `customFields` is stored under its own createdAt, and is the block pushed
   * last with that createdAt.
   */
  lemma CustomFieldKey(entries: seq<(string, Field)>, i: nat)
    requires i < |Assemble(entries).customFields|
    ensures var m := OrderedMap.FromEntries(Pushed(entries));
      m[i].0 == Assemble(entries).customFields[i].createdAt && m[i].1 == Assemble(entries).customFields[i]
    ensures var es := Pushed(entries); var ks := OrderedMap.Keys(es);
      var b := Assemble(entries).customFields[i];
      b.createdAt in ks && b == es[OrderedMap.LastIndex(ks, b.createdAt)].1
  {
    var es := Pushed(entries);
    var m := OrderedMap.FromEntries(es);
    assert Assemble(entries).customFields == OrderedMap.Values(m);
    PushedKeyed(entries);
    OrderedMap.FromEntriesEntry(es, i);
  }

  /** A block is in `customFields` exactly when some entry references a block with its createdAt. */
  lemma CustomFieldsResolve(entries: seq<(string, Field)>, at: string)
    ensures (exists i :: 0 <= i < |Assemble(entries).customFields| && Assemble(entries).customFields[i].createdAt == at)
      <==> at in OrderedMap.Keys(Pushed(entries))
  {
    var es := Pushed(entries);
    var m := OrderedMap.FromEntries(es);
    var cs := Assemble(entries).customFields;
    assert cs == OrderedMap.Values(m);
    OrderedMap.FromEntriesKeys(es);
    if at in OrderedMap.Keys(es) {
      assert at in OrderedMap.Keys(m);
      var i :| 0 <= i < |m| && OrderedMap.Keys(m)[i] == at;
      CustomFieldKey(entries, i);
    }
    if exists i :: 0 <= i < |cs| && cs[i].createdAt == at {
      var i :| 0 <= i < |cs| && cs[i].createdAt == at;
      CustomFieldKey(entries, i);
    }
  }

  /**
   * Every reference in `apiFields` resolves: each custom field's createdAt, and each createdAt
   * of a repeater's list, names a block of `customFields`.
   */
  lemma ReferencesResolve(entries: seq<(string, Field)>, k: nat, at: string)
    requires k < |entries|
    requires var a := Assemble(entries).apiFields[k];
      (a.CustomRef? && at == a.customFieldCreatedAt) || (a.RepeaterRef? && at in a.customFieldCreatedAtList)
    ensures exists i :: 0 <= i < |Assemble(entries).customFields| && Assemble(entries).customFields[i].createdAt == at
  {
    var f := entries[k].1;
    assert Assemble(entries).apiFields[k] == Rewrite(entries[k].0, f);
    ReferencedPushed(entries, k);
    var e: (string, Block);
    if f.body.Custom? {
      e := (f.body.field.createdAt, f.body.field);
    } else {
      var j :| 0 <= j < |f.body.fields| && CreatedAts(f.body.fields)[j] == at;
      e := Keyed(f.body.fields)[j];
    }
    assert e in Pushed(entries);
    var es := Pushed(entries);
    var p :| 0 <= p < |es| && es[p] == e;
    assert OrderedMap.Keys(es)[p] == at;
    CustomFieldsResolve(entries, at);
  }

  /** `customFields` lists the blocks in the order their createdAt was first pushed. */
  lemma CustomFieldsFirstPushOrder(entries: seq<(string, Field)>, i: nat, j: nat)
    requires i < j < |Assemble(entries).customFields|
    ensures var ks := OrderedMap.Keys(Pushed(entries)); var cs := Assemble(entries).customFields;
      cs[i].createdAt in ks && cs[j].createdAt in ks &&
      OrderedMap.FirstIndex(ks, cs[i].createdAt) < OrderedMap.FirstIndex(ks, cs[j].createdAt)
  {
    CustomFieldKey(entries, i);
    CustomFieldKey(entries, j);
    OrderedMap.FromEntriesPairOrder(Pushed(entries), i, j);
  }

  /** A block referenced by both a custom field and a repeater is listed once in `customFields`. */
  lemma SharedBlockOnce(entries: seq<(string, Field)>, i: nat, j: nat)
    requires i < |entries| && j < |entries|
    requires entries[i].1.body.Custom? && entries[j].1.body.Repeater?
    requires entries[i].1.body.field in entries[j].1.body.fields
    ensures var cs := Assemble(entries).customFields; var at := entries[i].1.body.field.createdAt;
      exists p :: 0 <= p < |cs| && cs[p].createdAt == at &&
        forall q :: 0 <= q < |cs| && cs[q].createdAt == at ==> q == p
  {
    var at := entries[i].1.body.field.createdAt;
    ReferencesResolve(entries, i, at);
    CustomFieldsDistinct(entries);
  }
}
