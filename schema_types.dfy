/**
 * The shape of microCMS field descriptors, reusable custom-field blocks and the API schema
 * document. Absent optional properties are `None`; the map key that names a field is kept
 * outside the descriptor, so a descriptor never carries its own field id.
 */
module SchemaTypes {
  import opened Wrappers

  /** A `{min, max}` pair copied unchecked into a validation record (min may exceed max). */
  datatype Bounds = Bounds(min: int, max: int)

  datatype ImageSize = ImageSize(width: int, height: int)

  /** `patternMatchValidation.regexp`: `flags` is `None` where the JSON holds `null`. */
  datatype Pattern = Pattern(pattern: string, flags: Option<string>)

  datatype CustomClass = CustomClass(id: string, name: string, value: string)

  datatype SelectItem = SelectItem(value: string, id: string)

  datatype MediaListLayout = HorizontalScroll | Grid2 | Grid3 | Grid4

  /** A field descriptor: the properties every kind shares, and the kind-specific payload. */
  datatype Field = Field(name: string, description: Option<string>, required: Option<bool>, body: Body)

  datatype Body =
    | Text(idValue: string, isUnique: Option<bool>, textSizeLimit: Option<Bounds>, patternMatch: Option<Pattern>)
    | TextArea(textSizeLimit: Option<Bounds>, patternMatch: Option<Pattern>)
    | RichEditorV2(options: Option<seq<string>>, customClassList: Option<seq<CustomClass>>)
    | Media(imageSize: Option<ImageSize>)
    | MediaList(imageSize: Option<ImageSize>, layout: Option<MediaListLayout>)
    | Date(dateFormat: Option<bool>)
    | Boolean(booleanInitialValue: Option<bool>)
    | Select(selectItems: seq<SelectItem>, selectInitialValue: seq<string>, multipleSelect: Option<bool>)
    | File
    | Number(numberSize: Option<Bounds>)
    | Relation
    | RelationList(relationListCount: Option<Bounds>)
    | Iframe(iframeUrl: Option<string>)
    | Repeater(fields: seq<Block>, repeatCount: Option<Bounds>)
    | Custom(field: Block)

  /** One field inside a block: `{idValue, fieldId, ...descriptor}`. */
  datatype InnerField = InnerField(idValue: string, fieldId: string, field: Field)

  /** A reusable custom-field block; `createdAt` is the key other fields refer to it by. */
  datatype Block = Block(
    fieldId: string,
    name: string,
    createdAt: string,
    updatedAt: string,
    viewerGroup: string,
    fields: seq<InnerField>,
    position: seq<seq<string>>)

  /** An `apiFields` entry of the schema document. */
  datatype ApiField =
      /** `{fieldId, ...descriptor}` for every kind except custom and repeater */
    | Plain(fieldId: string, field: Field)
      /** a custom field with its block replaced by the block's `createdAt` */
    | CustomRef(fieldId: string, customFieldCreatedAt: string,
                name: string, description: Option<string>, required: Option<bool>)
      /** a repeater field with its blocks replaced by their `createdAt` values */
    | RepeaterRef(fieldId: string, customFieldCreatedAtList: seq<string>,
                  name: string, description: Option<string>, required: Option<bool>,
                  repeatCount: Option<Bounds>)

  datatype Schema = Schema(apiFields: seq<ApiField>, customFields: seq<Block>)

  /** The `kind` tag each payload serialises with. */
  function Kind(b: Body): string {
    match b
    case Text(_, _, _, _) => "text"
    case TextArea(_, _) => "textArea"
    case RichEditorV2(_, _) => "richEditorV2"
    case Media(_) => "media"
    case MediaList(_, _) => "mediaList"
    case Date(_) => "date"
    case Boolean(_) => "boolean"
    case Select(_, _, _) => "select"
    case File => "file"
    case Number(_) => "number"
    case Relation => "relation"
    case RelationList(_) => "relationList"
    case Iframe(_) => "iframe"
    case Repeater(_, _) => "repeater"
    case Custom(_) => "custom"
  }

  function ApiFieldId(a: ApiField): string {
    a.fieldId
  }
}
