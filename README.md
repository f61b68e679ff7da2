# microCMS schema toolkit, modelled in Dafny

This project models the core of the microCMS schema toolkit. The toolkit builds microCMS API
schema documents from TypeScript, and it generates TypeScript types from such documents.

It models four parts:

- **Field descriptor factories.** These are `text`, `textArea`, `richEditorV2`, `media`,
  `mediaList`, `date`, `boolean`, `select`, `file`, `number`, `relation`, `relationList`,
  `iframe`, `repeater` and `custom`, in both copies of `fields.ts`.
  - `GenFields` models the copy in the `gen` package.
  - `BuilderFields` models the differences in `microcms-api-schema-builder`. That copy takes the
    display name as `name` and its `select` has no `multiple`.
  - An optional input that is absent stays absent. The ids the source draws from
    `generateId()` are parameters, one per call, in call order.
- **Block builder and schema assembler.** These are `custom` (`createCustomField`) and `api`
  (`createApiSchema`), in both copies of `schema.ts` (`GenSchema` and `BuilderSchema`).
  - The assembler does one pass over the named descriptors, pushing every referenced block onto
    an accumulator. It then deduplicates the blocks by `createdAt`, the way `new Map(entries)`
    does.
  - `OrderedMap` models that map: a key keeps the position of its first occurrence and holds the
    value of its last one.
- **Type generator.** This covers `convertSchema` (`TypeGen`), `outSchema` (`TypeOutput`) and the
  casing helpers `camelCase`, `pascalCase` and `isKebabCase` (`Casing`).
  - `RoundTrip` reads an assembled document back as the generator's plain JSON input. It proves
    that generation resolves every custom and repeater reference when the referenced blocks
    hold no block themselves.
- **The chainable `MicroCMSTextField` class** (`TextFieldBuilder`). Its mutators change one
  shared definition object in place, and each returns a new wrapper around that same object.

Where the code and its design description disagree, the model follows the code:

- **`iframe` and `mediaList` types.** The generator has no entry for either kind, so both render
  as `any`, not as `unknown` or an image array (`packages/generate-types/src/index.ts:47-76`).
- **Select literal quotes.** Select literals are quoted with single quotes: `('A' | 'B')[]`.
- **Mutators share state.** `MicroCMSTextField`'s mutators do not return independent snapshots.
  They mutate the shared `_def`, so every earlier wrapper sees every later change
  (`TextFieldBuilder.SharedDefinition`).
- **Unresolved references.** A custom or repeater reference whose `createdAt` names no block
  fails generation. The source fails here because `pascalCase(undefined)` throws. The model
  makes this the error `UnresolvedReference(key)`, and it never emits a placeholder type.
- **Missing lists.** A select field without `selectItems` fails generation, and so does a
  repeater without its `createdAt` list. The source fails because it calls `reduce` on
  `undefined`.
- **Custom field without `customFieldCreatedAt`.** Such a field looks up the key `"undefined"`,
  as `customs[undefined]` does.

## Model

| member | source | states |
|---|---|---|
| GenFields.PatternOf | packages/gen/src/fields.ts:75-82 | the pattern is the expression's source; flags are null exactly when the flag string is empty, else the flag string |
| GenFields.CreateTextField | packages/gen/src/fields.ts:55-84 | copies display name, description, required and isUnique; uses the drawn idValue; length limits and pattern are present exactly when given, with the given values; the pattern keeps the expression's source, and its flags are null for an empty flag string and the flag string otherwise |
| GenFields.CreateTextAreaField | packages/gen/src/fields.ts:111-137 | as text, without idValue and isUnique: the same limits, pattern and flags |
| GenFields.CreateRichEditorV2Field | packages/gen/src/fields.ts:171-195 | options are absent when not given, else undo, redo, clean followed by the caller's options in order; each custom class gets the drawn id at its position and keeps name and value; the class list is absent when not given |
| GenFields.CreateMediaField | packages/gen/src/fields.ts:217-235 | image size present exactly when given |
| GenFields.CreateMediaListField | packages/gen/src/fields.ts:266-285 | image size and layout present exactly when given; no default layout |
| GenFields.CreateDateField | packages/gen/src/fields.ts:295-305 | dateFormat present exactly when given |
| GenFields.CreateBooleanField | packages/gen/src/fields.ts:320-331 | the initial value is passed through as given, including false |
| GenFields.MatchingIndices | packages/gen/src/fields.ts:368-370 | exactly the positions of the items whose value is requested, strictly increasing |
| GenFields.CreateSelectField | packages/gen/src/fields.ts:352-373 | one item per input value in input order, duplicates included, each with the drawn id; the initial value is the ids of exactly the requested items in item order; multipleSelect is `multiple` |
| GenFields.CreateFileField | packages/gen/src/fields.ts:383-392 | only the common properties |
| GenFields.CreateNumberField | packages/gen/src/fields.ts:414-432 | the number range is present exactly when given |
| GenFields.CreateRelationField | packages/gen/src/fields.ts:445-454 | only the common properties |
| GenFields.CreateRelationListField | packages/gen/src/fields.ts:479-497 | the count limit is present exactly when given |
| GenFields.CreateIframeField | packages/gen/src/fields.ts:507-517 | the URL is present exactly when given |
| GenFields.CreateRepeaterField | packages/gen/src/fields.ts:545-564 | keeps the blocks in order; the repeat count is present exactly when given |
| GenFields.CreateCustomField | packages/gen/src/fields.ts:584-594 | wraps exactly the given block |
| GenFields.Create | packages/gen/src/fields.ts:602-618 | every kind copies the common properties; the descriptor's kind is the kind the parameter record asks for, and a select's multipleSelect is its `multiple` |
| GenFields.ParamsRoundTrip | packages/gen/src/fields.ts:55-594 | for every kind but select, the parameters and the drawn ids can be read back from the descriptor |
| GenFields.SelectRoundTrip | packages/gen/src/fields.ts:352-373 | select keeps items, order and `multiple`; with distinct ids, rebuilding from what the descriptor shows gives the same descriptor |
| GenFields.ReadBackItems | packages/gen/src/fields.ts:356-370 | with distinct ids, an item's value is among the values read back from the initial ids exactly when it was requested |
| GenFields.SelectInitialValueEmpty | packages/gen/src/fields.ts:368-370 | no request, no items, or no matching item gives an empty initial value, never an absent one |
| GenFields.SelectUnmatchedExample | packages/gen/src/fields.ts:352-373 | News, Opinion, Lifestyle with Sports requested: three items, empty initial value |
| GenFields.RichEditorOptionsExample | packages/gen/src/fields.ts:185-187 | bold, italic become undo, redo, clean, bold, italic; no options stay absent |
| GenFields.PatternFlagsExample | packages/gen/src/fields.ts:75-82 | a flagless expression gives null flags, `g` gives `g` |
| BuilderFields.CreateSelectField | packages/microcms-api-schema-builder/src/fields.ts:347-367 | as the gen select, and multipleSelect is always absent |
| BuilderFields.Create | packages/microcms-api-schema-builder/src/fields.ts:599-615 | the builder table copies the common properties and never emits multipleSelect |
| BuilderFields.SameAsGen | packages/microcms-api-schema-builder/src/fields.ts:51-597 | on every record the builder accepts, it builds what the gen table builds |
| BuilderFields.SelectIsGenWithoutMultiple | packages/microcms-api-schema-builder/src/fields.ts:347-367 | the builder select is the gen select called without `multiple` |
| GenSchema.CreateCustomField | packages/gen/src/schema.ts:105-132 | keeps fieldId and name; createdAt and updatedAt are the same instant; one inner field per entry in entry order, a text field keeping its own idValue and every other field taking its drawn id; position is the single list of the inner idValues |
| GenSchema.CustomFieldRoundTrip | packages/gen/src/schema.ts:113-121 | the entries read back from the block in order; every non-text slot holds the id drawn for it, and a text slot keeps the text field's own idValue |
| GenSchema.Rewrite | packages/gen/src/schema.ts:58-85 | custom becomes a createdAt reference, repeater a createdAt list in block order; other kinds pass unchanged; fieldId is the entry key |
| GenSchema.Assemble | packages/gen/src/schema.ts:51-89 | the document createApiSchema returns: apiFields are the rewritten entries in entry order; its customFields are characterised by CustomFieldKey, CustomFieldsResolve and CustomFieldsFirstPushOrder |
| GenSchema.RewriteAndPush | packages/gen/src/schema.ts:58-85 | pushes exactly the referenced blocks keyed by createdAt, in order, and returns the rewritten entry |
| GenSchema.CreateApiSchema | packages/gen/src/schema.ts:51-89 | the document is the rewritten entries plus the pushed blocks deduplicated by createdAt |
| GenSchema.PushedKeyed | packages/gen/src/schema.ts:61-71 | every push is keyed by its block's own createdAt |
| GenSchema.ApiFieldsInOrder | packages/gen/src/schema.ts:57-86 | apiFields follow the entry order, and each fieldId is its entry's key |
| GenSchema.ReferencedPushed | packages/gen/src/schema.ts:59-78 | every block an entry references is pushed |
| GenSchema.PushedReferenced | packages/gen/src/schema.ts:59-78 | only blocks that some entry references are pushed |
| GenSchema.CustomFieldsDistinct | packages/gen/src/schema.ts:87 | the createdAt values of customFields are pairwise distinct |
| GenSchema.CustomFieldKey | packages/gen/src/schema.ts:87 | each kept block is the block pushed last with its createdAt |
| GenSchema.CustomFieldsResolve | packages/gen/src/schema.ts:59-87 | customFields holds a block with a given createdAt exactly when some pushed block has it |
| GenSchema.ReferencesResolve | packages/gen/src/schema.ts:59-87 | every createdAt in apiFields names a block of customFields |
| GenSchema.CustomFieldsFirstPushOrder | packages/gen/src/schema.ts:87 | customFields are ordered by the first push of their createdAt |
| GenSchema.SharedBlockOnce | packages/gen/src/schema.ts:59-87 | a block referenced by a custom field and by a repeater appears exactly once |
| BuilderSchema.CreateCustomField | packages/microcms-api-schema-builder/src/schema.ts:56-82 | the spread record gives fieldId and name; same timestamps, inner fields, ids and position as the gen block |
| BuilderSchema.SameAsGen | packages/microcms-api-schema-builder/src/schema.ts:74-81 | the builder block equals the gen block |
| BuilderSchema.CreateApiSchema | packages/microcms-api-schema-builder/src/schema.ts:93-131 | the gen document: entry order with entry keys, distinct createdAt in customFields |
| OrderedMap.Set | packages/gen/src/schema.ts:87 | updates an existing key in place, otherwise appends; keys stay distinct |
| OrderedMap.FromEntries | packages/gen/src/schema.ts:87 | the built map has distinct keys |
| OrderedMap.FromEntriesKeys | packages/gen/src/schema.ts:87 | the map's keys are exactly the keys of the entries |
| OrderedMap.FromEntriesOrder | packages/gen/src/schema.ts:87 | keys are ordered by their first occurrence |
| OrderedMap.FromEntriesValues | packages/gen/src/schema.ts:87 | each key holds the value of its last occurrence |
| OrderedMap.GetFromEntries | packages/generate-types/src/index.ts:42-44 | a lookup is absent exactly when the key never occurs, else the last value given |
| Casing.ToLower | packages/generate-types/src/utils.ts:7 | ASCII capitals map to small letters, all else is unchanged |
| Casing.ToUpper | packages/generate-types/src/utils.ts:9 | ASCII small letters map to capitals, all else is unchanged |
| Casing.ReplaceSeparators | packages/generate-types/src/utils.ts:8-10 | the replacement never lengthens the string |
| Casing.CamelCase | packages/generate-types/src/utils.ts:6-11 | never longer than its input, and empty exactly when the input is; CamelCaseWithoutSeparators and DoubledSeparatorExample give its values |
| Casing.PascalCase | packages/generate-types/src/utils.ts:18-21 | as long as the camelCase form, never longer than its input, empty exactly when the input is; PascalCaseWithoutSeparators and the examples give its values |
| Casing.IsKebabCase | packages/generate-types/src/utils.ts:28-30 | true exactly when some character is a hyphen |
| Casing.ReplaceSeparatorsIdentity | packages/generate-types/src/utils.ts:8-10 | the replacement leaves a string unchanged exactly when the pattern matches nowhere in it |
| Casing.ReplaceShortens | packages/generate-types/src/utils.ts:8-10 | a match anywhere makes the result shorter |
| Casing.ReplaceFoldsSeparator | packages/generate-types/src/utils.ts:8-10 | a separator and the character after it become that character upper-cased |
| Casing.CamelCaseWithoutSeparators | packages/generate-types/src/utils.ts:6-11 | without separators, only the first character changes, to lower case |
| Casing.PascalCaseWithoutSeparators | packages/generate-types/src/utils.ts:18-21 | without separators, only the first character changes, to upper case |
| Casing.PascalCaseKebabExample | packages/generate-types/src/utils.ts:18-21 | `rich-editor` becomes `RichEditor` |
| Casing.LineTerminatorExample | packages/generate-types/src/utils.ts:8-10 | a separator before a line break is no match and stays, while a later `_c` still becomes `C`: `a-\nb_c` gives `A-\nbC` |
| Casing.DoubledSeparatorExample | packages/generate-types/src/utils.ts:8-10 | in `a--b` the second hyphen is the character the first folds, so one hyphen survives: `A-b` |
| TypeGen.Customs | packages/generate-types/src/index.ts:42-44 | the createdAt lookup has distinct keys |
| TypeGen.LookupResolves | packages/generate-types/src/index.ts:42-44 | a createdAt carried by some block resolves to the fieldId of the last block carrying it |
| TypeGen.CustomTypeName | packages/generate-types/src/index.ts:65 | fails exactly when the key names no block, with that key; otherwise gives `<name>CustomField` followed by the pascalCase of the fieldId the key looks up |
| TypeGen.BlockTypeName | packages/generate-types/src/index.ts:65 | the type name starts with `<name>CustomField` and has nothing after it exactly when the fieldId is empty |
| TypeGen.CustomTypeNames | packages/generate-types/src/index.ts:67-72 | all names resolve in list order, or the error is the first unresolved key |
| TypeGen.ReduceIsJoin | packages/generate-types/src/index.ts:55 | the reduce over items equals the items joined by ` \| ` |
| TypeGen.Reduce | packages/generate-types/src/index.ts:55 | the fold only appends to its accumulator; ReduceIsJoin gives its value |
| TypeGen.KindType | packages/generate-types/src/index.ts:45-77 | string kinds give `string`, `number` gives `number`, `boolean` gives `boolean`, relation gives `MicroCMSRelation<unknown \| null>` and relationList its array, media gives `MicroCMSImage`, file gives `{ url: string }`, unknown kinds `any`; select gives a parenthesised union array when multiple with more than one item, else a bare union array, and a tuple when not multiple, failing only without items; custom gives the resolved block type; repeater gives an array of the resolved union, or fails |
| TypeGen.Doc | packages/generate-types/src/index.ts:78-80 | the comment opens with `/**`, a line break and ` * `, then holds the name, and closes with a line break and ` */` |
| TypeGen.PropertyName | packages/generate-types/src/index.ts:84-85 | the field id is double-quoted exactly when it contains a hyphen |
| TypeGen.OptionalMarker | packages/generate-types/src/index.ts:86 | `?` unless required is true, and empty exactly when it is true |
| TypeGen.RenderField | packages/generate-types/src/index.ts:81-89 | a doc comment with the name, then key, marker and type; fails exactly when the type fails |
| TypeGen.RenderFields | packages/generate-types/src/index.ts:81-89 | one entry per field in order, or the error of the first failing field |
| TypeGen.CustomFieldLines | packages/generate-types/src/index.ts:90-92 | the synthetic fieldId literal property first, then the block's fields |
| TypeGen.RenderBlocks | packages/generate-types/src/index.ts:95-97 | one fieldId and lines pair per block, in order |
| TypeGen.ConvertSchema | packages/generate-types/src/index.ts:40-99 | succeeds exactly when every top-level field and every block field renders; mainSchema is the rendered top-level fields; customSchemas is the map built from the rendered (fieldId, lines) pairs of the blocks, with distinct keys |
| TypeGen.CustomSchemasByFieldId | packages/generate-types/src/index.ts:95-97 | the keys of customSchemas are exactly the blocks' fieldIds, in the order of their first occurrence, and each holds the lines of the last block with that fieldId |
| TypeGen.SchemasOfRendered | packages/generate-types/src/index.ts:95-97 | the same three facts, about the map built from any successfully rendered block list |
| TypeGen.RenderFieldFails | packages/generate-types/src/index.ts:45-89 | a field fails exactly when it is a select without items, a custom field without a block, or a repeater without a list or with an unresolved key |
| TypeGen.CustomReferenceResolves | packages/generate-types/src/index.ts:42-65 | a custom field whose createdAt names a block gets the type `<name>CustomField` + pascalCase of the fieldId of the last block with that createdAt |
| TypeGen.UnresolvedReferenceFails | packages/generate-types/src/index.ts:65 | a createdAt that names no block fails with that key |
| TypeGen.SelectTypeExample | packages/generate-types/src/index.ts:53-58 | items A, B give `('A' \| 'B')[]` when multiple, else `['A' \| 'B']` |
| TypeOutput.Split | packages/generate-types/src/index.ts:108 | at least one piece, and no piece holds the separator |
| TypeOutput.JoinSplit | packages/generate-types/src/index.ts:108 | joining the pieces again gives the original text |
| TypeOutput.SplitJoin | packages/generate-types/src/index.ts:108 | splitting joined separator-free pieces gives the pieces back |
| TypeOutput.SplitTerminated | packages/generate-types/src/index.ts:108 | newline-terminated lines split back into the lines and a final empty piece |
| TypeOutput.PropertyLines | packages/generate-types/src/index.ts:107-109 | the lines of all properties hold no newline |
| TypeOutput.Declaration | packages/generate-types/src/index.ts:105-117 | `export type <typeName> = {`, then every property line indented by two spaces, then `}` and an empty line |
| TypeOutput.AppendLines | packages/generate-types/src/index.ts:108 | appends each line indented by two spaces and newline-terminated |
| TypeOutput.AppendProperties | packages/generate-types/src/index.ts:107-109 | appends every line of every property, in order, indented and terminated |
| TypeOutput.AppendDeclaration | packages/generate-types/src/index.ts:105-110 | appends the header, the properties and the closing brace with an empty line |
| TypeOutput.OutSchema | packages/generate-types/src/index.ts:101-120 | the buffer holds the main declaration, then one declaration per block named `<name>CustomField<PascalCase(fieldId)>`, line by line |
| TypeOutput.ReplaceKeepsNewlines | packages/generate-types/src/utils.ts:8-10 | the replacement introduces no newline |
| TypeOutput.PascalCaseKeepsNewlines | packages/generate-types/src/utils.ts:18-21 | pascalCase introduces no newline |
| TypeOutput.DeclarationSingleLines | packages/generate-types/src/index.ts:105-117 | a declaration's lines hold no newline when its type name holds none |
| TypeOutput.CustomDeclarationsSingleLines | packages/generate-types/src/index.ts:112-118 | all block declarations consist of single lines |
| TypeOutput.OutSchemaLines | packages/generate-types/src/index.ts:101-120 | the written text splits at its newlines into exactly the declaration lines |
| RoundTrip.PlainFieldRenders | packages/generate-types/src/index.ts:45-89 | a descriptor holding no block always renders |
| RoundTrip.ResolvesInLookup | packages/generate-types/src/index.ts:42-44 | a block's createdAt resolves in the generator's lookup |
| RoundTrip.ApiFieldRenders | packages/generate-types/src/index.ts:81-89 | every top-level entry of an assembled document renders |
| RoundTrip.BlockRenders | packages/generate-types/src/index.ts:90-97 | every block of an assembled document with flat references renders |
| RoundTrip.ListlessBlockFieldFails | packages/generate-types/src/index.ts:66-74 | a repeater field without its createdAt list inside any block of a document makes generation fail |
| RoundTrip.AssembledSchemaConverts | packages/generate-types/src/index.ts:40-99 | generation succeeds on every assembled document whose referenced blocks hold no block |
| RoundTrip.NestedRepeaterFails | packages/generate-types/src/index.ts:66-74 | a repeater inside a block of the document makes generation fail |
| TextFieldBuilder.TextFieldDef.constructor | packages/microcms-api-schema-builder/src/fields/text-field.ts:17-22 | a text definition with the drawn idValue, name and description, nothing else set |
| TextFieldBuilder.MicroCMSTextField.constructor | packages/microcms-api-schema-builder/src/fields/text-field.ts:16-23 | adopts a given definition by reference, else creates a fresh one from the params |
| TextFieldBuilder.MicroCMSTextField.Wrap | packages/microcms-api-schema-builder/src/fields/text-field.ts:45-50 | a new wrapper around the same definition |
| TextFieldBuilder.MicroCMSTextField.Unique | packages/microcms-api-schema-builder/src/fields/text-field.ts:25-28 | sets isUnique on the shared definition, changes nothing else, and returns a new wrapper of it |
| TextFieldBuilder.MicroCMSTextField.Required | packages/microcms-api-schema-builder/src/fields/text-field.ts:30-33 | sets required on the shared definition, changes nothing else |
| TextFieldBuilder.MicroCMSTextField.TextSizeLimitValidation | packages/microcms-api-schema-builder/src/fields/text-field.ts:35-38 | sets or replaces the length limits, unchecked; changes nothing else |
| TextFieldBuilder.MicroCMSTextField.PatternMatchValidation | packages/microcms-api-schema-builder/src/fields/text-field.ts:40-43 | sets or replaces the pattern, with flags as given (null by default); changes nothing else |
| TextFieldBuilder.MicroCMSTextField.Create | packages/microcms-api-schema-builder/src/fields/text-field.ts:52-54 | a wrapper around a fresh definition |
| TextFieldBuilder.SharedDefinition | packages/microcms-api-schema-builder/src/fields/text-field.ts:25-50 | an earlier wrapper sees the changes made through later wrappers |
| TextFieldBuilder.ChainMatchesFactory | packages/microcms-api-schema-builder/src/fields/text-field.ts:25-43 | for a non-empty flag string, a fully configured chain gives the descriptor of the text factory with the same settings (an empty flag string is the exception, see ChainKeepsEmptyFlags) |
| TextFieldBuilder.ChainKeepsEmptyFlags | packages/microcms-api-schema-builder/src/fields/text-field.ts:40-43 | the chain stores an empty flag string as given, while the text factory turns it into null (packages/gen/src/fields.ts:75-82) |

## Left out

- Identifier generation and timestamps. `generateId()`, `Math.random()` and `Date` are not
  modelled. Their results are parameters: the drawn ids, the block's `createdAt` instant and
  `viewerGroup`.
- Regular expressions. A RegExp is reduced to its source text and flag string. No regular
  expression is parsed, and the factories do not validate one.
- JSON key order and `undefined`-valued keys. Descriptors are datatypes. The key order of the
  serialised objects (for example, where `...params` places `fields` in the builder's block) is
  not modelled. Neither is the difference between an absent key and a key holding `undefined`;
  `JSON.stringify` drops both alike.
- Integer-like object keys. `Object.entries` and `Object.fromEntries` put integer-like keys
  (such as `"12"`) first. The model keeps plain insertion order for every key.
- `Object.prototype` names as kinds. A kind such as `toString` would reach an inherited method in
  `types[kind]`. The model treats every kind outside the table as unknown, giving `any`.
- Casing: only ASCII letters change case. `toLowerCase` and `toUpperCase` map other letters too,
  some to longer strings. A string here is a sequence of Unicode characters, so the `.` of the
  pattern matches one code point where JavaScript matches one UTF-16 code unit. The results
  coincide: a separator is dropped either way, and a character after it that is not an ASCII
  letter is kept unchanged.
- Casing.ToLower: does not model non-ASCII lower-casing, because the Unicode case tables are not
  modelled.
- Casing.ToUpper: does not model non-ASCII upper-casing, for the same reason.
- The generator's `main`, its command line, its directory scan, pluralisation, file writes and
  console output (`packages/generate-types/src/index.ts:122-194`). These are I/O.
- The `json` method of `MicroCMSApiSchemaBuilder`. It writes a file or logs to the console.
- Type-only modules, samples and build scripts.
- Numbers are unbounded integers. Validation limits and image sizes in the source are JavaScript
  numbers, which may be fractional. They are copied unchecked in both the source and the model.
- GenFields.SelectRoundTrip: does not claim the requested initial values can be read back. Values
  that match no item are dropped, and read-back assumes distinct ids.
- RoundTrip.AssembledSchemaConverts: holds only when the referenced blocks hold no custom or
  repeater field. A repeater inside a block is serialised with its blocks rather than a
  `createdAt` list, and the generator then fails (`RoundTrip.NestedRepeaterFails`).
