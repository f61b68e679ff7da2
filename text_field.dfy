/**
 * The chainable `MicroCMSTextField` builder of `microcms-api-schema-builder`. Every wrapper
 * holds a reference to one definition object; each mutator changes that shared object and
 * returns a new wrapper around the same object, so all wrappers of a chain see every change.
 */
module TextFieldBuilder {
  import opened Wrappers
  import opened SchemaTypes
  import GenFields

  /** The `_def` object: a text-field descriptor whose properties are assigned in place. */
  class TextFieldDef {
    var idValue: string
    var name: string
    var description: Option<string>
    var required: Option<bool>
    var isUnique: Option<bool>
    var textSizeLimit: Option<Bounds>
    var patternMatch: Option<Pattern>

    /** `{idValue: generateId(), kind: 'text', name, description}` */
    constructor (idValue: string, name: string, description: Option<string>)
      ensures Value() == Field(name, description, None, Text(idValue, None, None, None))
    {
      this.idValue := idValue;
      this.name := name;
      this.description := description;
      this.required := None;
      this.isUnique := None;
      this.textSizeLimit := None;
      this.patternMatch := None;
    }

    /** The descriptor the object currently serialises to. */
    function Value(): Field
      reads this
    {
      Field(name, description, required, Text(idValue, isUnique, textSizeLimit, patternMatch))
    }
  }

  class MicroCMSTextField {
    /** `_def`: set once by the constructor, shared with every wrapper derived from this one. */
    const def: TextFieldDef

    /** `new MicroCMSTextField(params, def)`: adopt `def` when given, else a fresh definition from the params. */
    constructor (name: string, description: Option<string>, def: TextFieldDef?, freshId: string)
      ensures def != null ==> this.def == def
      ensures def == null ==> fresh(this.def)
      ensures def == null ==> this.def.Value() == Field(name, description, None, Text(freshId, None, None, None))
    {
      if def != null {
        this.def := def;
      } else {
        this.def := new TextFieldDef(freshId, name, description);
      }
    }

    /** `_create`: a new wrapper around the same definition. */
    method Wrap() returns (b: MicroCMSTextField)
      ensures fresh(b) && b.def == def
    {
      b := new MicroCMSTextField(def.name, def.description, def, "");
    }

    /** `unique()`: mark the shared definition unique. */
    method Unique() returns (b: MicroCMSTextField)
      modifies def
      ensures fresh(b) && b.def == def
      ensures def.Value() == Field(old(def.name), old(def.description), old(def.required),
        Text(old(def.idValue), Some(true), old(def.textSizeLimit), old(def.patternMatch)))
    {
      def.isUnique := Some(true);
      b := Wrap();
    }

    /** `required()`: mark the shared definition required. */
    method Required() returns (b: MicroCMSTextField)
      modifies def
      ensures fresh(b) && b.def == def
      ensures def.Value() == Field(old(def.name), old(def.description), Some(true),
        Text(old(def.idValue), old(def.isUnique), old(def.textSizeLimit), old(def.patternMatch)))
    {
      def.required := Some(true);
      b := Wrap();
    }

    /** `textSizeLimitValidation(min, max)`: set (or replace) the length limits, unchecked. */
    method TextSizeLimitValidation(min: int, max: int) returns (b: MicroCMSTextField)
      modifies def
      ensures fresh(b) && b.def == def
      ensures def.Value() == Field(old(def.name), old(def.description), old(def.required),
        Text(old(def.idValue), old(def.isUnique), Some(Bounds(min, max)), old(def.patternMatch)))
    {
      def.textSizeLimit := Some(Bounds(min, max));
      b := Wrap();
    }

    /** `patternMatchValidation(pattern, flags = null)`: the flags are stored as given, `None` standing for null. */
    method PatternMatchValidation(pattern: string, flags: Option<string>) returns (b: MicroCMSTextField)
      modifies def
      ensures fresh(b) && b.def == def
      ensures def.Value() == Field(old(def.name), old(def.description), old(def.required),
        Text(old(def.idValue), old(def.isUnique), old(def.textSizeLimit), Some(Pattern(pattern, flags))))
    {
      def.patternMatch := Some(Pattern(pattern, flags));
      b := Wrap();
    }

    /** `MicroCMSTextField.create(params)`: a wrapper around a fresh definition. */
    static method Create(name: string, description: Option<string>, freshId: string) returns (b: MicroCMSTextField)
      ensures fresh(b) && fresh(b.def)
      ensures b.def.Value() == Field(name, description, None, Text(freshId, None, None, None))
    {
      b := new MicroCMSTextField(name, description, null, freshId);
    }
  }

  /**
   * `const a = create(p); const b = a.unique(); b.required()`: the first wrapper sees both
   * later changes, because no mutator copies the definition.
   */
  method SharedDefinition(name: string, description: Option<string>, freshId: string)
    returns (a: MicroCMSTextField, b: MicroCMSTextField)
    ensures a != b && a.def == b.def
    ensures a.def.Value() == Field(name, description, Some(true), Text(freshId, Some(true), None, None))
  {
    a := MicroCMSTextField.Create(name, description, freshId);
    b := a.Unique();
    var c := b.Required();
  }

  /**
   * A fully configured chain builds what the `text` factory builds from the same settings
   * (for a non-empty flag string, which the factory keeps).
   */
  method ChainMatchesFactory(name: string, description: Option<string>, freshId: string,
                             min: int, max: int, pattern: string, flags: string)
    returns (t: MicroCMSTextField)
    requires flags != ""
    ensures t.def.Value() == GenFields.CreateTextField(GenFields.TextParams(
      GenFields.Common(name, description, Some(true)), Some(true), Some(Bounds(min, max)),
      Some(GenFields.RegExp(pattern, flags))), freshId)
  {
    t := MicroCMSTextField.Create(name, description, freshId);
    t := t.TextSizeLimitValidation(min, max);
    t := t.PatternMatchValidation(pattern, Some(flags));
    t := t.Unique();
    t := t.Required();
  }

  /**
   * The one setting where the chain and the `text` factory part: the chain stores an empty flag
   * string as given, while the factory turns it into `null`.
   */
  method ChainKeepsEmptyFlags(name: string, description: Option<string>, freshId: string, pattern: string)
    returns (t: MicroCMSTextField)
    ensures t.def.Value().body.patternMatch == Some(Pattern(pattern, Some("")))
    ensures GenFields.CreateTextField(GenFields.TextParams(GenFields.Common(name, description, None), None, None,
      Some(GenFields.RegExp(pattern, ""))), freshId).body.patternMatch == Some(Pattern(pattern, None))
  {
    t := MicroCMSTextField.Create(name, description, freshId);
    t := t.PatternMatchValidation(pattern, Some(""));
  }
}
