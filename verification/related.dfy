/**
  The deprecated `RelatedObject` of `django/db/models/related.py`: the
  reverse side of a relation, which names the accessor the related model
  gets, its cache attribute, and the inline-editable fields.
 */
module RelatedObjects {
  import opened Common

  /** A field as `RelatedObject` sees it; `rel` is the relation object of a relation field. */
  datatype Field = Field(name: string, editable: bool, rel: Rel)

  /**
    `field.rel`: whether the reverse side holds many objects, the
    `symmetrical` flag of a many-to-many (absent counts as False) and the
    declared `related_name`.
   */
  datatype Rel = Rel(multiple: bool, symmetrical: bool, relatedName: Option<string>)

  /** A model and the parts of its `_meta` that are read. */
  datatype Model = Model(
    appLabel: string,
    modelName: string,
    defaultRelatedName: Option<string>,
    fields: seq<Field>,
    manyToMany: seq<Field>)

  datatype RelatedObject = RelatedObject(parentModel: Model, model: Model, field: Field)

  /** `self.name`: `"<app_label>:<model_name>"`. */
  function Name(r: RelatedObject): (s: string)
    ensures s == r.model.appLabel + [':'] + r.model.modelName
    ensures |s| == |r.model.appLabel| + 1 + |r.model.modelName|
  {
    r.model.appLabel + ":" + r.model.modelName
  }

  /** `self.var_name` */
  function VarName(r: RelatedObject): string {
    r.model.modelName
  }

  /** The app label is what precedes the first colon of the name, when the label has none. */
  lemma NameSplits(r: RelatedObject)
    requires !HasChar(r.model.appLabel, ':')
    ensures var n := Name(r);
      n[..|r.model.appLabel|] == r.model.appLabel && n[|r.model.appLabel|] == ':'
      && n[|r.model.appLabel| + 1..] == VarName(r)
  {
  }

  // ---- %-formatting of default_related_name ----

  datatype FormatError = FormatError(template: string)

  const ModelNameKey: string := "%(model_name)s"
  const AppLabelKey: string := "%(app_label)s"

  /** What the front of a template is: a plain character, `%%`, one of the two keys, or anything else. */
  datatype Piece = Literal(c: char) | Percent | ModelName | AppLabel | Unsupported

  /** The characters a piece occupies in the template. */
  function Width(p: Piece): nat {
    match p
    case Literal(_) => 1
    case Percent => 2
    case ModelName => |ModelNameKey|
    case AppLabel => |AppLabelKey|
    case Unsupported => 0
  }

  /** The piece at the front of a non-empty template. */
  function Front(template: string): (p: Piece)
    requires template != []
    ensures p.Literal? <==> template[0] != '%'
    ensures p.Literal? ==> p.c == template[0]
    ensures !p.Unsupported? ==> 0 < Width(p) <= |template|
  {
    if template[0] != '%' then Literal(template[0])
    else if StartsWith(template, "%%") then Percent
    else if StartsWith(template, ModelNameKey) then ModelName
    else if StartsWith(template, AppLabelKey) then AppLabel
    else Unsupported
  }

  /**
    `template % {'model_name': m, 'app_label': a}` for templates built from
    plain text, `%%`, `%(model_name)s` and `%(app_label)s`; any other
    conversion is an error here.
   */
  function FormatNames(template: string, modelName: string, appLabel: string): (r: Result<string, FormatError>)
    ensures !HasChar(template, '%') ==> r == Ok(template)
    decreases |template|
  {
    if template == [] then Ok([])
    else
      var p := Front(template);
      if p.Unsupported? then Err(FormatError(template))
      else
        var rest :- FormatNames(template[Width(p)..], modelName, appLabel);
        assert !HasChar(template, '%') ==> (p.Literal? && !HasChar(template[1..], '%')) by {
          if !HasChar(template, '%') {
            assert template[0] != '%';
            forall i | 0 <= i < |template[1..]| ensures template[1..][i] != '%' {
              assert template[1..][i] == template[i + 1];
            }
          }
        }
        assert [template[0]] + template[1..] == template;
        var text := match p
          case Literal(c) => [c]
          case Percent => "%"
          case ModelName => modelName
          case AppLabel => appLabel;
        Ok(text + rest)
  }

  /** A template starting with `%(model_name)s` starts with that key and nothing shorter. */
  lemma FrontModelName(rest: string)
    ensures Front(ModelNameKey + rest) == ModelName
  {
    var t := ModelNameKey + rest;
    PrefixOfConcat(ModelNameKey, rest);
    assert t[0] == '%' && t[1] == '(';
  }

  /** A template starting with `%(app_label)s` starts with that key and no other. */
  lemma FrontAppLabel(rest: string)
    ensures Front(AppLabelKey + rest) == AppLabel
  {
    var t := AppLabelKey + rest;
    PrefixOfConcat(AppLabelKey, rest);
    assert t[0] == '%' && t[1] == '(' && t[2] == 'a';
    assert !StartsWith(t, ModelNameKey) by {
      assert ModelNameKey[2] == 'm';
    }
  }

  /** A `%(model_name)s` at the front is replaced by the model name. */
  lemma FormatModelNameFirst(rest: string, modelName: string, appLabel: string)
    ensures FormatNames(ModelNameKey + rest, modelName, appLabel)
      == (match FormatNames(rest, modelName, appLabel) case Ok(x) => Ok(modelName + x) case Err(e) => Err(e))
  {
    FrontModelName(rest);
    assert (ModelNameKey + rest)[|ModelNameKey|..] == rest;
  }

  /** A `%(app_label)s` at the front is replaced by the app label. */
  lemma FormatAppLabelFirst(rest: string, modelName: string, appLabel: string)
    ensures FormatNames(AppLabelKey + rest, modelName, appLabel)
      == (match FormatNames(rest, modelName, appLabel) case Ok(x) => Ok(appLabel + x) case Err(e) => Err(e))
  {
    FrontAppLabel(rest);
    assert (AppLabelKey + rest)[|AppLabelKey|..] == rest;
  }

  /** A character other than `%` at the front is copied. */
  lemma FormatLiteralFirst(c: char, rest: string, modelName: string, appLabel: string)
    requires c != '%'
    ensures FormatNames([c] + rest, modelName, appLabel)
      == (match FormatNames(rest, modelName, appLabel) case Ok(x) => Ok([c] + x) case Err(e) => Err(e))
  {
    assert ([c] + rest)[1..] == rest;
  }

  /** The template `%(model_name)s` alone yields the model name. */
  lemma FormatModelNameAlone(modelName: string, appLabel: string)
    ensures FormatNames(ModelNameKey, modelName, appLabel) == Ok(modelName)
  {
    var e: string := [];
    FormatModelNameFirst(e, modelName, appLabel);
    assert ModelNameKey + e == ModelNameKey;
    assert modelName + e == modelName;
  }

  /** A plain character followed by `%(model_name)s` yields that character and the model name. */
  lemma FormatLiteralThenModelName(sep: char, modelName: string, appLabel: string)
    requires sep != '%'
    ensures FormatNames([sep] + ModelNameKey, modelName, appLabel) == Ok([sep] + modelName)
  {
    FormatModelNameAlone(modelName, appLabel);
    FormatLiteralFirst(sep, ModelNameKey, modelName, appLabel);
  }

  /**
    The two keys joined by one plain character yield the two names joined
    by it; the usual template `%(app_label)s_%(model_name)s` is the case `_`.
   */
  lemma FormatKeysJoined(sep: char, modelName: string, appLabel: string)
    requires sep != '%'
    ensures FormatNames(AppLabelKey + [sep] + ModelNameKey, modelName, appLabel) == Ok(appLabel + [sep] + modelName)
  {
    var u := [sep] + ModelNameKey;
    FormatLiteralThenModelName(sep, modelName, appLabel);
    FormatAppLabelFirst(u, modelName, appLabel);
    SeqAssoc(AppLabelKey, [sep], ModelNameKey);
    SeqAssoc(appLabel, [sep], modelName);
  }

  /** The usual template `%(app_label)s_%(model_name)s` yields the two names joined by `_`. */
  lemma FormatUsualTemplate(modelName: string, appLabel: string)
    ensures FormatNames(AppLabelKey + "_" + ModelNameKey, modelName, appLabel) == Ok(appLabel + "_" + modelName)
  {
    FormatKeysJoined('_', modelName, appLabel);
  }

  // ---- accessor names ----

  /**
    `get_accessor_name`. For a relation whose reverse side holds many
    objects: none for a symmetrical many-to-many of a model onto itself,
    else `related_name`, else the formatted `default_related_name` (with
    the names lower-cased), else `<model_name>_set`. For a single object:
    `related_name`, else the model name. Empty names count as unset.
   */
  function AccessorName(r: RelatedObject): (a: Result<Option<string>, FormatError>)
    ensures a.Ok? && a.value.None? <==> r.field.rel.multiple && r.field.rel.symmetrical && r.model == r.parentModel
    ensures Truthy(r.field.rel.relatedName) && !(r.field.rel.multiple && r.field.rel.symmetrical && r.model == r.parentModel)
      ==> a == Ok(r.field.rel.relatedName)
    ensures !r.field.rel.multiple && !Truthy(r.field.rel.relatedName) ==> a == Ok(Some(r.model.modelName))
    ensures r.field.rel.multiple && !(r.field.rel.symmetrical && r.model == r.parentModel)
      && !Truthy(r.field.rel.relatedName) && !Truthy(r.model.defaultRelatedName)
      ==> a == Ok(Some(r.model.modelName + "_set"))
    ensures a.Err? ==> r.field.rel.multiple && Truthy(r.model.defaultRelatedName)
  {
    var rel := r.field.rel;
    if rel.multiple then
      if rel.symmetrical && r.model == r.parentModel then Ok(None)
      else if Truthy(rel.relatedName) then Ok(rel.relatedName)
      else if Truthy(r.model.defaultRelatedName) then
        match FormatNames(r.model.defaultRelatedName.value, Lower(r.model.modelName), Lower(r.model.appLabel))
        case Ok(s) => Ok(Some(s))
        case Err(e) => Err(e)
      else Ok(Some(r.model.modelName + "_set"))
    else if Truthy(rel.relatedName) then Ok(rel.relatedName)
    else Ok(Some(r.model.modelName))
  }

  /**
    Swapping which side is the parent does not matter for a symmetrical
    self-relation: it never gets an accessor, whatever names are declared.
   */
  lemma SymmetricalSelfHasNoAccessor(m: Model, f: Field)
    requires f.rel.multiple && f.rel.symmetrical
    ensures AccessorName(RelatedObject(m, m, f)) == Ok(None)
  {
  }

  /**
    A many-valued relation without `related_name` on a model whose
    `default_related_name` is the usual `%(app_label)s_%(model_name)s` gets
    the lower-cased app label and model name joined by `_`.
   */
  lemma DefaultRelatedNameAccessor(r: RelatedObject)
    requires r.field.rel.multiple && !(r.field.rel.symmetrical && r.model == r.parentModel)
    requires !Truthy(r.field.rel.relatedName)
    requires r.model.defaultRelatedName == Some(AppLabelKey + "_" + ModelNameKey)
    ensures AccessorName(r) == Ok(Some(Lower(r.model.appLabel) + "_" + Lower(r.model.modelName)))
  {
    FormatUsualTemplate(Lower(r.model.modelName), Lower(r.model.appLabel));
  }

  /**
    `get_cache_name`: `"_%s_cache" % accessor`, where `%s` of None is the
    text `None`.
   */
  function CacheName(r: RelatedObject): (c: Result<string, FormatError>)
    ensures c.Ok? <==> AccessorName(r).Ok?
    ensures c.Ok? ==> StartsWith(c.value, "_") && EndsWith(c.value, "_cache")
    ensures c.Ok? && AccessorName(r).value.Some? ==> c.value == "_" + AccessorName(r).value.value + "_cache"
    ensures c.Ok? && AccessorName(r).value.None? ==> c.value == "_None_cache"
  {
    var a :- AccessorName(r);
    var text := match a case Some(s) => s case None => "None";
    PrefixOfConcat("_", text + "_cache");
    assert ("_" + text + "_cache")[|"_" + text|..] == "_cache";
    Ok("_" + text + "_cache")
  }

  /** The accessor can be read back out of the cache name. */
  lemma CacheNameRoundTrip(r: RelatedObject)
    requires AccessorName(r).Ok? && AccessorName(r).value.Some?
    ensures var c := CacheName(r).value;
      c[1..|c| - 6] == AccessorName(r).value.value
  {
    var a := AccessorName(r).value.value;
    var c := CacheName(r).value;
    assert c == "_" + a + "_cache";
    assert c[1..|c| - 6] == a;
  }

  // ---- choices and fields ----

  /** A `(value, label)` pair. */
  type Choice = (string, string)

  const BlankChoiceDash: seq<Choice> := [("", "---------")]

  /**
    `get_choices`: the blank choice first when `include_blank`, then one
    pair per row of the related model's query.
   */
  function Choices(rows: seq<Choice>, includeBlank: bool, blankChoice: seq<Choice>): (r: seq<Choice>)
    ensures |r| == |rows| + (if includeBlank then |blankChoice| else 0)
    ensures r[|r| - |rows|..] == rows
    ensures includeBlank ==> r[..|blankChoice|] == blankChoice
  {
    var first := if includeBlank then blankChoice else [];
    first + rows
  }

  /** Without the blank choice the rows are the choices, unchanged. */
  lemma ChoicesWithoutBlank(rows: seq<Choice>, blankChoice: seq<Choice>)
    ensures Choices(rows, false, blankChoice) == rows
  {
    var r := Choices(rows, false, blankChoice);
    assert r == r[|r| - |rows|..];
  }

  /** The editable fields of `fs` other than the relation's own field, in order. */
  function KeptFields(r: RelatedObject, fs: seq<Field>): (kept: seq<Field>)
    ensures forall f :: f in kept <==> (f in fs && f.editable && f != r.field)
  {
    Filter(fs, (f: Field) => f.editable && f != r.field)
  }

  /**
    `editable_fields`: the model's fields then its many-to-many fields,
    keeping the editable ones other than the relation's own field.
   */
  function EditableFields(r: RelatedObject): (fs: seq<Field>)
    ensures forall f :: f in fs <==> (f in r.model.fields + r.model.manyToMany && f.editable && f != r.field)
    ensures |fs| <= |r.model.fields| + |r.model.manyToMany|
    ensures fs == KeptFields(r, r.model.fields) + KeptFields(r, r.model.manyToMany)
  {
    FilterAppend(r.model.fields, r.model.manyToMany, (f: Field) => f.editable && f != r.field);
    KeptFields(r, r.model.fields + r.model.manyToMany)
  }
}
