/**
 * The field-descriptor factories of the `gen` package (`field.text`, `field.select`, ...).
 * Each maps a kind-specific parameter record to a descriptor; an optional input that is
 * absent stays absent. Ids that the source draws from `generateId()` are passed in, one per
 * call, in call order.
 */
module GenFields {
  import opened Wrappers
  import opened SchemaTypes

  /** The properties every factory takes: the display name (`displayName`), `description`, `required`. */
  datatype Common = Common(name: string, description: Option<string>, required: Option<bool>)

  /** A JavaScript RegExp, reduced to its `source` text and its `flags` string. */
  datatype RegExp = RegExp(source: string, flags: string)

  /** A custom class as the caller gives it, before it receives an id. */
  datatype ClassSpec = ClassSpec(name: string, value: string)

  /** The parameter record of each factory. */
  datatype Params =
    | TextParams(common: Common, isUnique: Option<bool>, length: Option<Bounds>, regexp: Option<RegExp>)
    | TextAreaParams(common: Common, length: Option<Bounds>, regexp: Option<RegExp>)
    | RichEditorV2Params(common: Common, richEditorV2Options: Option<seq<string>>,
                         customClassList: Option<seq<ClassSpec>>)
    | MediaParams(common: Common, size: Option<ImageSize>)
    | MediaListParams(common: Common, size: Option<ImageSize>, layout: Option<MediaListLayout>)
    | DateParams(common: Common, dateFormat: Option<bool>)
    | BooleanParams(common: Common, initialValue: Option<bool>)
    | SelectParams(common: Common, selectItems: seq<string>, selectInitialValue: Option<seq<string>>,
                   multiple: Option<bool>)
    | FileParams(common: Common)
    | NumberParams(common: Common, range: Option<Bounds>)
    | RelationParams(common: Common)
    | RelationListParams(common: Common, limit: Option<Bounds>)
    | IframeParams(common: Common, iframeUrl: Option<string>)
    | RepeaterParams(common: Common, fields: seq<Block>, limit: Option<Bounds>)
    | CustomParams(common: Common, field: Block)

  /** The descriptor copies `name`, `description` and `required` from the common parameters. */
  predicate HasCommon(f: Field, c: Common) {
    f.name == c.name && f.description == c.description && f.required == c.required
  }

  function CommonOf(f: Field): Common {
    Common(f.name, f.description, f.required)
  }

  function Make(c: Common, body: Body): (f: Field)
    ensures HasCommon(f, c) && f.body == body
  {
    Field(c.name, c.description, c.required, body)
  }

  //////////////////////////
  // text / textArea
  //////////////////////////

  /** `{pattern: regexp.source, flags: regexp.flags ? regexp.flags : null}` */
  function PatternOf(r: RegExp): (p: Pattern)
    ensures p.pattern == r.source
    ensures p.flags.None? <==> r.flags == ""
    ensures p.flags.Some? ==> p.flags.value == r.flags
  {
    Pattern(r.source, if r.flags != "" then Some(r.flags) else None)
  }

  function PatternMatch(regexp: Option<RegExp>): Option<Pattern> {
    match regexp
    case Some(r) => Some(PatternOf(r))
    case None => None
  }

  function CreateTextField(p: Params, idValue: string): (f: Field)
    requires p.TextParams?
    ensures HasCommon(f, p.common) && Kind(f.body) == "text"
    ensures f.body.idValue == idValue && f.body.isUnique == p.isUnique
    ensures f.body.textSizeLimit.Some? <==> p.length.Some?
    ensures p.length.Some? ==> f.body.textSizeLimit.value == p.length.value
    ensures f.body.patternMatch.Some? <==> p.regexp.Some?
    ensures p.regexp.Some? ==> f.body.patternMatch.value.pattern == p.regexp.value.source
    ensures p.regexp.Some? ==> (f.body.patternMatch.value.flags.None? <==> p.regexp.value.flags == "")
    ensures p.regexp.Some? && p.regexp.value.flags != "" ==> f.body.patternMatch.value.flags == Some(p.regexp.value.flags)
  {
    Make(p.common, Text(idValue, p.isUnique, p.length, PatternMatch(p.regexp)))
  }

  function CreateTextAreaField(p: Params): (f: Field)
    requires p.TextAreaParams?
    ensures HasCommon(f, p.common) && Kind(f.body) == "textArea"
    ensures f.body.textSizeLimit.Some? <==> p.length.Some?
    ensures p.length.Some? ==> f.body.textSizeLimit.value == p.length.value
    ensures f.body.patternMatch.Some? <==> p.regexp.Some?
    ensures p.regexp.Some? ==> f.body.patternMatch.value.pattern == p.regexp.value.source
    ensures p.regexp.Some? ==> (f.body.patternMatch.value.flags.None? <==> p.regexp.value.flags == "")
    ensures p.regexp.Some? && p.regexp.value.flags != "" ==> f.body.patternMatch.value.flags == Some(p.regexp.value.flags)
  {
    Make(p.common, TextArea(p.length, PatternMatch(p.regexp)))
  }

  //////////////////////////
  // richEditorV2
  //////////////////////////

  /** The toolbar actions the factory always enables, ahead of the caller's. */
  const AlwaysOnOptions: seq<string> := ["undo", "redo", "clean"]

  function ClassCount(list: Option<seq<ClassSpec>>): nat {
    match list
    case Some(l) => |l|
    case None => 0
  }

  /** `customClassList?.map(c => ({id: generateId(), ...c}))` */
  function WithClassIds(list: Option<seq<ClassSpec>>, ids: seq<string>): (r: Option<seq<CustomClass>>)
    requires |ids| == ClassCount(list)
    ensures r.Some? <==> list.Some?
    ensures list.Some? ==> |r.value| == |list.value| && forall i :: 0 <= i < |list.value| ==>
      r.value[i] == CustomClass(ids[i], list.value[i].name, list.value[i].value)
  {
    match list
    case Some(l) => Some(seq(|l|, i requires 0 <= i < |l| => CustomClass(ids[i], l[i].name, l[i].value)))
    case None => None
  }

  function CreateRichEditorV2Field(p: Params, ids: seq<string>): (f: Field)
    requires p.RichEditorV2Params? && |ids| == ClassCount(p.customClassList)
    ensures HasCommon(f, p.common) && Kind(f.body) == "richEditorV2"
    ensures f.body.options.Some? <==> p.richEditorV2Options.Some?
    ensures p.richEditorV2Options.Some? ==> f.body.options.value == AlwaysOnOptions + p.richEditorV2Options.value
    ensures f.body.customClassList.Some? <==> p.customClassList.Some?
    ensures p.customClassList.Some? ==> |f.body.customClassList.value| == |p.customClassList.value|
    ensures p.customClassList.Some? ==> forall i :: 0 <= i < |p.customClassList.value| ==>
      && f.body.customClassList.value[i].id == ids[i]
      && f.body.customClassList.value[i].name == p.customClassList.value[i].name
      && f.body.customClassList.value[i].value == p.customClassList.value[i].value
  {
    var options := match p.richEditorV2Options
      case Some(o) => Some(AlwaysOnOptions + o)
      case None => None;
    Make(p.common, RichEditorV2(options, WithClassIds(p.customClassList, ids)))
  }

  //////////////////////////
  // media / mediaList / date / boolean
  //////////////////////////

  function CreateMediaField(p: Params): (f: Field)
    requires p.MediaParams?
    ensures HasCommon(f, p.common) && Kind(f.body) == "media"
    ensures f.body.imageSize.Some? <==> p.size.Some?
    ensures p.size.Some? ==> f.body.imageSize.value == p.size.value
  {
    Make(p.common, Media(p.size))
  }

  function CreateMediaListField(p: Params): (f: Field)
    requires p.MediaListParams?
    ensures HasCommon(f, p.common) && Kind(f.body) == "mediaList"
    ensures f.body.imageSize.Some? <==> p.size.Some?
    ensures p.size.Some? ==> f.body.imageSize.value == p.size.value
    ensures f.body.layout.None? <==> p.layout.None?
    ensures p.layout.Some? ==> f.body.layout.value == p.layout.value
  {
    Make(p.common, MediaList(p.size, p.layout))
  }

  function CreateDateField(p: Params): (f: Field)
    requires p.DateParams?
    ensures HasCommon(f, p.common) && Kind(f.body) == "date"
    ensures f.body.dateFormat.Some? <==> p.dateFormat.Some?
    ensures p.dateFormat.Some? ==> f.body.dateFormat.value == p.dateFormat.value
  {
    Make(p.common, Date(p.dateFormat))
  }

  function CreateBooleanField(p: Params): (f: Field)
    requires p.BooleanParams?
    ensures HasCommon(f, p.common) && Kind(f.body) == "boolean"
    ensures f.body.booleanInitialValue.Some? <==> p.initialValue.Some?
    ensures p.initialValue.Some? ==> f.body.booleanInitialValue.value == p.initialValue.value
  {
    Make(p.common, Boolean(p.initialValue))
  }

  //////////////////////////
  // select
  //////////////////////////

  /** `selectInitialValue?.includes(value)`: false when no initial values were given. */
  predicate Requested(selectInitialValue: Option<seq<string>>, value: string) {
    selectInitialValue.Some? && value in selectInitialValue.value
  }

  /** The positions of the items whose value is requested, in increasing order. */
  function MatchingIndices(items: seq<SelectItem>, selectInitialValue: Option<seq<string>>): (idx: seq<nat>)
    ensures forall k :: 0 <= k < |idx| ==> idx[k] < |items| && Requested(selectInitialValue, items[idx[k]].value)
    ensures forall k, l :: 0 <= k < l < |idx| ==> idx[k] < idx[l]
    ensures forall i :: 0 <= i < |items| && Requested(selectInitialValue, items[i].value) ==> i in idx
  {
    if items == [] then []
    else
      var n := |items| - 1;
      var rest := MatchingIndices(items[..n], selectInitialValue);
      if Requested(selectInitialValue, items[n].value) then rest + [n] else rest
  }

  /** `selectItems.map(item => ({value: item, id: generateId()}))` */
  function WithIds(values: seq<string>, ids: seq<string>): (items: seq<SelectItem>)
    requires |ids| == |values|
    ensures |items| == |values| && forall i :: 0 <= i < |values| ==> items[i] == SelectItem(values[i], ids[i])
  {
    seq(|values|, i requires 0 <= i < |values| => SelectItem(values[i], ids[i]))
  }

  /** `items.filter(item => selectInitialValue?.includes(item.value)).map(item => item.id)` */
  function InitialIds(items: seq<SelectItem>, selectInitialValue: Option<seq<string>>): (r: seq<string>)
    ensures var idx := MatchingIndices(items, selectInitialValue);
      |r| == |idx| && forall k :: 0 <= k < |idx| ==> r[k] == items[idx[k]].id
  {
    var idx := MatchingIndices(items, selectInitialValue);
    seq(|idx|, k requires 0 <= k < |idx| => items[idx[k]].id)
  }

  function CreateSelectField(p: Params, ids: seq<string>): (f: Field)
    requires p.SelectParams? && |ids| == |p.selectItems|
    ensures HasCommon(f, p.common) && Kind(f.body) == "select"
    ensures |f.body.selectItems| == |p.selectItems|
    ensures forall i :: 0 <= i < |p.selectItems| ==>
      f.body.selectItems[i].value == p.selectItems[i] && f.body.selectItems[i].id == ids[i]
    ensures var idx := MatchingIndices(f.body.selectItems, p.selectInitialValue);
      |f.body.selectInitialValue| == |idx| &&
      forall k :: 0 <= k < |idx| ==> f.body.selectInitialValue[k] == ids[idx[k]]
    ensures f.body.multipleSelect == p.multiple
  {
    var items := WithIds(p.selectItems, ids);
    Make(p.common, Select(items, InitialIds(items, p.selectInitialValue), p.multiple))
  }

  //////////////////////////
  // file / number / relation / relationList / iframe
  //////////////////////////

  function CreateFileField(p: Params): (f: Field)
    requires p.FileParams?
    ensures HasCommon(f, p.common) && Kind(f.body) == "file"
  {
    Make(p.common, File)
  }

  function CreateNumberField(p: Params): (f: Field)
    requires p.NumberParams?
    ensures HasCommon(f, p.common) && Kind(f.body) == "number"
    ensures f.body.numberSize.Some? <==> p.range.Some?
    ensures p.range.Some? ==> f.body.numberSize.value == p.range.value
  {
    Make(p.common, Number(p.range))
  }

  function CreateRelationField(p: Params): (f: Field)
    requires p.RelationParams?
    ensures HasCommon(f, p.common) && Kind(f.body) == "relation"
  {
    Make(p.common, Relation)
  }

  function CreateRelationListField(p: Params): (f: Field)
    requires p.RelationListParams?
    ensures HasCommon(f, p.common) && Kind(f.body) == "relationList"
    ensures f.body.relationListCount.Some? <==> p.limit.Some?
    ensures p.limit.Some? ==> f.body.relationListCount.value == p.limit.value
  {
    Make(p.common, RelationList(p.limit))
  }

  function CreateIframeField(p: Params): (f: Field)
    requires p.IframeParams?
    ensures HasCommon(f, p.common) && Kind(f.body) == "iframe"
    ensures f.body.iframeUrl.Some? <==> p.iframeUrl.Some?
    ensures p.iframeUrl.Some? ==> f.body.iframeUrl.value == p.iframeUrl.value
  {
    Make(p.common, Iframe(p.iframeUrl))
  }

  //////////////////////////
  // repeater / custom
  //////////////////////////

  function CreateRepeaterField(p: Params): (f: Field)
    requires p.RepeaterParams?
    ensures HasCommon(f, p.common) && Kind(f.body) == "repeater"
    ensures f.body.fields == p.fields
    ensures f.body.repeatCount.Some? <==> p.limit.Some?
    ensures p.limit.Some? ==> f.body.repeatCount.value == p.limit.value
  {
    Make(p.common, Repeater(p.fields, p.limit))
  }

  /** `crateCustomField` in the source: wraps exactly one block. */
  function CreateCustomField(p: Params): (f: Field)
    requires p.CustomParams?
    ensures HasCommon(f, p.common) && Kind(f.body) == "custom"
    ensures f.body.field == p.field
  {
    Make(p.common, Custom(p.field))
  }

  //////////////////////////
  // the exported factory table
  //////////////////////////

  /** How many ids a factory draws from `generateId()`. */
  function IdsNeeded(p: Params): nat {
    match p
    case TextParams(_, _, _, _) => 1
    case RichEditorV2Params(_, _, list) => ClassCount(list)
    case SelectParams(_, items, _, _) => |items|
    case _ => 0
  }

  /** The kind of descriptor each parameter record asks for: the key of the factory table. */
  function KindOf(p: Params): string {
    match p
    case TextParams(_, _, _, _) => "text"
    case TextAreaParams(_, _, _) => "textArea"
    case RichEditorV2Params(_, _, _) => "richEditorV2"
    case MediaParams(_, _) => "media"
    case MediaListParams(_, _, _) => "mediaList"
    case DateParams(_, _) => "date"
    case BooleanParams(_, _) => "boolean"
    case SelectParams(_, _, _, _) => "select"
    case FileParams(_) => "file"
    case NumberParams(_, _) => "number"
    case RelationParams(_) => "relation"
    case RelationListParams(_, _) => "relationList"
    case IframeParams(_, _) => "iframe"
    case RepeaterParams(_, _, _) => "repeater"
    case CustomParams(_, _) => "custom"
  }

  /** `field[kind](params)`: dispatch on the parameter record to its factory. */
  function Create(p: Params, ids: seq<string>): (f: Field)
    requires |ids| == IdsNeeded(p)
    ensures HasCommon(f, p.common)
    ensures Kind(f.body) == KindOf(p)
    ensures p.SelectParams? ==> f.body.multipleSelect == p.multiple
  {
    match p
    case TextParams(_, _, _, _) => CreateTextField(p, ids[0])
    case TextAreaParams(_, _, _) => CreateTextAreaField(p)
    case RichEditorV2Params(_, _, _) => CreateRichEditorV2Field(p, ids)
    case MediaParams(_, _) => CreateMediaField(p)
    case MediaListParams(_, _, _) => CreateMediaListField(p)
    case DateParams(_, _) => CreateDateField(p)
    case BooleanParams(_, _) => CreateBooleanField(p)
    case SelectParams(_, _, _, _) => CreateSelectField(p, ids)
    case FileParams(_) => CreateFileField(p)
    case NumberParams(_, _) => CreateNumberField(p)
    case RelationParams(_) => CreateRelationField(p)
    case RelationListParams(_, _) => CreateRelationListField(p)
    case IframeParams(_, _) => CreateIframeField(p)
    case RepeaterParams(_, _, _) => CreateRepeaterField(p)
    case CustomParams(_, _) => CreateCustomField(p)
  }

  //////////////////////////
  // reading the parameters back from a descriptor
  //////////////////////////

  function RegExpOf(p: Pattern): RegExp {
    RegExp(p.pattern, p.flags.GetOr(""))
  }

  function RegExpsOf(p: Option<Pattern>): Option<RegExp> {
    match p
    case Some(pm) => Some(RegExpOf(pm))
    case None => None
  }

  function ClassSpecsOf(list: Option<seq<CustomClass>>): Option<seq<ClassSpec>> {
    match list
    case Some(l) => Some(seq(|l|, i requires 0 <= i < |l| => ClassSpec(l[i].name, l[i].value)))
    case None => None
  }

  /** The caller's toolbar options: what follows the three always-on actions. */
  function CallerOptions(options: Option<seq<string>>): Option<seq<string>> {
    match options
    case Some(o) => Some(if |o| < |AlwaysOnOptions| then [] else o[|AlwaysOnOptions|..])
    case None => None
  }

  /** The values of the items whose id is among the initial ids. */
  function SelectedValues(items: seq<SelectItem>, initial: seq<string>): seq<string> {
    if items == [] then []
    else
      var n := |items| - 1;
      SelectedValues(items[..n], initial) + if items[n].id in initial then [items[n].value] else []
  }

  /** The parameter record a descriptor was built from, as far as the descriptor shows it. */
  function ParamsOf(f: Field): Params {
    var c := CommonOf(f);
    match f.body
    case Text(_, isUnique, textSize, pattern) => TextParams(c, isUnique, textSize, RegExpsOf(pattern))
    case TextArea(textSize, pattern) => TextAreaParams(c, textSize, RegExpsOf(pattern))
    case RichEditorV2(options, list) => RichEditorV2Params(c, CallerOptions(options), ClassSpecsOf(list))
    case Media(size) => MediaParams(c, size)
    case MediaList(size, layout) => MediaListParams(c, size, layout)
    case Date(dateFormat) => DateParams(c, dateFormat)
    case Boolean(initial) => BooleanParams(c, initial)
    case Select(items, initial, multiple) =>
      SelectParams(c, seq(|items|, i requires 0 <= i < |items| => items[i].value),
                   Some(SelectedValues(items, initial)), multiple)
    case File => FileParams(c)
    case Number(range) => NumberParams(c, range)
    case Relation => RelationParams(c)
    case RelationList(limit) => RelationListParams(c, limit)
    case Iframe(url) => IframeParams(c, url)
    case Repeater(blocks, limit) => RepeaterParams(c, blocks, limit)
    case Custom(block) => CustomParams(c, block)
  }

  /** The generated ids a descriptor holds, in the order they were drawn. */
  function IdsOf(f: Field): seq<string> {
    match f.body
    case Text(idValue, _, _, _) => [idValue]
    case RichEditorV2(_, Some(l)) => seq(|l|, i requires 0 <= i < |l| => l[i].id)
    case Select(items, _, _) => seq(|items|, i requires 0 <= i < |items| => items[i].id)
    case _ => []
  }

  /**
   * Every factory except `select` loses nothing: its parameters and the ids it drew can be
   * read back from the descriptor (an empty flag string comes back from `null`).
   */
  lemma ParamsRoundTrip(p: Params, ids: seq<string>)
    requires |ids| == IdsNeeded(p) && !p.SelectParams?
    ensures ParamsOf(Create(p, ids)) == p
    ensures IdsOf(Create(p, ids)) == ids
  {
    match p
    case TextParams(_, _, _, r) =>
      if r.Some? {
        assert RegExpOf(PatternOf(r.value)) == r.value;
      }
    case TextAreaParams(_, _, r) =>
      if r.Some? {
        assert RegExpOf(PatternOf(r.value)) == r.value;
      }
    case RichEditorV2Params(_, o, list) =>
      if o.Some? {
        assert (AlwaysOnOptions + o.value)[|AlwaysOnOptions|..] == o.value;
      }
      var f := Create(p, ids);
      if list.Some? {
        assert ClassSpecsOf(f.body.customClassList).value == list.value;
        assert IdsOf(f) == ids;
      }
    case _ =>
  }

  /** Same items, same per-item match: the same initial ids. */
  lemma {:induction false} MatchingIndicesAgree(items: seq<SelectItem>, a: Option<seq<string>>, b: Option<seq<string>>)
    requires forall i :: 0 <= i < |items| ==> (Requested(a, items[i].value) <==> Requested(b, items[i].value))
    ensures MatchingIndices(items, a) == MatchingIndices(items, b)
  {
    if items != [] {
      MatchingIndicesAgree(items[..|items| - 1], a, b);
    }
  }

  /** A value is among SelectedValues exactly when some item carrying it has its id among the initial ids. */
  lemma {:induction false} SelectedValuesMember(items: seq<SelectItem>, initial: seq<string>, v: string)
    ensures v in SelectedValues(items, initial) <==>
      exists j :: 0 <= j < |items| && items[j].value == v && items[j].id in initial
  {
    if items != [] {
      var n := |items| - 1;
      SelectedValuesMember(items[..n], initial, v);
      if v in SelectedValues(items, initial) && v !in SelectedValues(items[..n], initial) {
        assert items[n].value == v && items[n].id in initial;
      }
      if exists j :: 0 <= j < |items| && items[j].value == v && items[j].id in initial {
        var j :| 0 <= j < |items| && items[j].value == v && items[j].id in initial;
        if j < n {
          assert items[..n][j] == items[j];
        }
      }
    }
  }

  /** An item whose value is requested has its id among the initial ids. */
  lemma RequestedIdIncluded(items: seq<SelectItem>, req: Option<seq<string>>, i: nat)
    requires i < |items| && Requested(req, items[i].value)
    ensures items[i].id in InitialIds(items, req)
  {
    var idx := MatchingIndices(items, req);
    var k :| 0 <= k < |idx| && idx[k] == i;
    assert InitialIds(items, req)[k] == items[i].id;
  }

  /** With distinct ids, an item whose id is among the initial ids has its value requested. */
  lemma IncludedIdRequested(items: seq<SelectItem>, req: Option<seq<string>>, j: nat)
    requires forall a, b :: 0 <= a < b < |items| ==> items[a].id != items[b].id
    requires j < |items| && items[j].id in InitialIds(items, req)
    ensures Requested(req, items[j].value)
  {
    var idx := MatchingIndices(items, req);
    var initial := InitialIds(items, req);
    var k :| 0 <= k < |initial| && initial[k] == items[j].id;
    assert items[idx[k]].id == items[j].id;
  }

  /** With distinct ids, an item matches the read-back request exactly when it matched the original one. */
  lemma ReadBackItems(items: seq<SelectItem>, req: Option<seq<string>>, i: nat)
    requires forall a, b :: 0 <= a < b < |items| ==> items[a].id != items[b].id
    requires i < |items|
    ensures Requested(Some(SelectedValues(items, InitialIds(items, req))), items[i].value) <==>
      Requested(req, items[i].value)
  {
    var initial := InitialIds(items, req);
    SelectedValuesMember(items, initial, items[i].value);
    if Requested(req, items[i].value) {
      RequestedIdIncluded(items, req, i);
    }
    if Requested(Some(SelectedValues(items, initial)), items[i].value) {
      var j :| 0 <= j < |items| && items[j].value == items[i].value && items[j].id in initial;
      IncludedIdRequested(items, req, j);
    }
  }

  /** The select read-back, stated on the descriptor. */
  lemma RequestReadBack(p: Params, ids: seq<string>, i: nat)
    requires p.SelectParams? && |ids| == |p.selectItems| && i < |ids|
    requires forall i, j :: 0 <= i < j < |ids| ==> ids[i] != ids[j]
    ensures var f := CreateSelectField(p, ids);
      Requested(ParamsOf(f).selectInitialValue, f.body.selectItems[i].value) <==>
      Requested(p.selectInitialValue, f.body.selectItems[i].value)
  {
    var items := WithIds(p.selectItems, ids);
    var f := CreateSelectField(p, ids);
    assert f.body == Select(items, InitialIds(items, p.selectInitialValue), p.multiple);
    assert ParamsOf(f).selectInitialValue == Some(SelectedValues(items, InitialIds(items, p.selectInitialValue)));
    ReadBackItems(items, p.selectInitialValue, i);
  }

  /**
   * `select` keeps its items, their order and `multiple`; the initial values it drops (those
   * that match no item) cannot be read back, but when the generated ids are distinct, rebuilding
   * from what the descriptor shows gives the same descriptor again.
   */
  lemma SelectRoundTrip(p: Params, ids: seq<string>)
    requires p.SelectParams? && |ids| == |p.selectItems|
    requires forall i, j :: 0 <= i < j < |ids| ==> ids[i] != ids[j]
    ensures ParamsOf(CreateSelectField(p, ids)).selectItems == p.selectItems
    ensures ParamsOf(CreateSelectField(p, ids)).multiple == p.multiple
    ensures IdsOf(CreateSelectField(p, ids)) == ids
    ensures Create(ParamsOf(CreateSelectField(p, ids)), ids) == CreateSelectField(p, ids)
  {
    var f := CreateSelectField(p, ids);
    var items := f.body.selectItems;
    var q := ParamsOf(f);
    assert q.selectItems == p.selectItems;
    forall i | 0 <= i < |items|
      ensures Requested(q.selectInitialValue, items[i].value) <==> Requested(p.selectInitialValue, items[i].value)
    {
      RequestReadBack(p, ids, i);
    }
    MatchingIndicesAgree(items, q.selectInitialValue, p.selectInitialValue);
    assert WithIds(q.selectItems, ids) == items;
  }

  /** An omitted request, an empty item list, or a request no item matches all give `[]`, never absent. */
  lemma SelectInitialValueEmpty(p: Params, ids: seq<string>)
    requires p.SelectParams? && |ids| == |p.selectItems|
    requires p.selectInitialValue.None? || p.selectItems == [] ||
      forall i :: 0 <= i < |p.selectItems| ==> p.selectItems[i] !in p.selectInitialValue.value
    ensures CreateSelectField(p, ids).body.selectInitialValue == []
  {
    NoMatchNoIndices(CreateSelectField(p, ids).body.selectItems, p.selectInitialValue);
  }

  lemma {:induction false} NoMatchNoIndices(items: seq<SelectItem>, req: Option<seq<string>>)
    requires forall i :: 0 <= i < |items| ==> !Requested(req, items[i].value)
    ensures MatchingIndices(items, req) == []
  {
    if items != [] {
      var n := |items| - 1;
      assert forall i :: 0 <= i < n ==> items[..n][i] == items[i];
      NoMatchNoIndices(items[..n], req);
    }
  }

  /** Three items and a request for a value none of them carries: three items, no initial value. */
  lemma SelectUnmatchedExample(c: Common, ids: seq<string>)
    requires |ids| == 3
    ensures var f := CreateSelectField(SelectParams(c, ["News", "Opinion", "Lifestyle"], Some(["Sports"]), None), ids);
      |f.body.selectItems| == 3 && f.body.selectInitialValue == []
  {
    SelectInitialValueEmpty(SelectParams(c, ["News", "Opinion", "Lifestyle"], Some(["Sports"]), None), ids);
  }

  /** The caller's options follow the three always-on actions, in order. */
  lemma RichEditorOptionsExample(c: Common)
    ensures CreateRichEditorV2Field(RichEditorV2Params(c, Some(["bold", "italic"]), None), []).body.options ==
      Some(["undo", "redo", "clean", "bold", "italic"])
    ensures CreateRichEditorV2Field(RichEditorV2Params(c, None, None), []).body.options == None
  {
    assert AlwaysOnOptions + ["bold", "italic"] == ["undo", "redo", "clean", "bold", "italic"];
  }

  /** A regular expression without flags yields `flags: null`; with flags, the flag string. */
  lemma PatternFlagsExample()
    ensures PatternOf(RegExp("^[\\w\\s]+$", "")) == Pattern("^[\\w\\s]+$", None)
    ensures PatternOf(RegExp("^[a-z]+$", "g")) == Pattern("^[a-z]+$", Some("g"))
  {
  }
}
