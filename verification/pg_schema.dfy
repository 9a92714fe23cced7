/**
  The decisions the PostgreSQL schema editor of
  `django/db/backends/postgresql/schema.py` adds to the generic one: the
  second `_like` index that `varchar` and `text` columns need for LIKE
  queries outside the C locale, the `USING` cast when a column's type
  changes, and the rewrite of an `ALTER ... TYPE serial` into an integer
  column fed by its own sequence. The generic editor's index builders
  (`_create_index_sql`, `_delete_index_sql`, `_create_index_name`) stay
  opaque: the model records the request made of them. Its
  `_alter_column_type_sql` is modelled by the one thing the override relies
  on: it fills the template the override has just set.
 */
module PgSchema {
  import opened Common

  // ---- names ----

  /** `strip_quotes`: drop one pair of surrounding double quotes. */
  function StripQuotes(name: string): (r: string)
    ensures StartsWith(name, "\"") && EndsWith(name, "\"") ==> |r| == (if |name| >= 2 then |name| - 2 else 0)
    ensures !(StartsWith(name, "\"") && EndsWith(name, "\"")) ==> r == name
  {
    if StartsWith(name, "\"") && EndsWith(name, "\"") then
      (if |name| >= 2 then name[1..|name| - 1] else "")
    else name
  }

  /** `quote_name`: a name already in double quotes is kept, any other is quoted. */
  function QuoteName(name: string): (r: string)
    ensures StartsWith(r, "\"") && EndsWith(r, "\"")
  {
    if StartsWith(name, "\"") && EndsWith(name, "\"") then name else "\"" + name + "\""
  }

  /** Stripping undoes quoting for a name that does not start with a quote. */
  lemma StripQuoteRoundTrip(name: string)
    requires !StartsWith(name, "\"")
    ensures StripQuotes(QuoteName(name)) == name
  {
    var q := QuoteName(name);
    assert q == "\"" + name + "\"";
    assert q[1..|q| - 1] == name;
  }

  // ---- fields ----

  /**
    What the editor asks of a field: its internal type, its `db_type`, the
    `rel_db_type` of a relation, its index flags, its column and, for an
    `ArrayField`, the base field.
   */
  datatype DbField = DbField(
    internalType: string,
    dbType: Option<string>,
    isRelation: bool,
    relDbType: Option<string>,
    dbIndex: bool,
    unique: bool,
    column: string,
    baseField: Option<DbField>)

  /** Every `ArrayField` has a base field, all the way down. */
  predicate WellFormed(f: DbField) {
    f.internalType == "ArrayField" ==> f.baseField.Some? && WellFormed(f.baseField.value)
  }

  /**
    `_field_data_type`: a relation's `rel_db_type`, else the connection's
    `data_types` entry for the internal type, else `db_type`.
   */
  function DataType(f: DbField, dataTypes: map<string, string>): Option<string> {
    if f.isRelation then f.relDbType
    else if f.internalType in dataTypes then Some(dataTypes[f.internalType])
    else f.dbType
  }

  /** `_field_base_data_types` of an array field, as a list. */
  function BaseDataTypes(f: DbField, dataTypes: map<string, string>): (r: seq<Option<string>>)
    requires f.baseField.Some? && WellFormed(f.baseField.value)
    ensures |r| == 1
    decreases f
  {
    var base := f.baseField.value;
    if base.internalType == "ArrayField" then BaseDataTypes(base, dataTypes)
    else [DataType(base, dataTypes)]
  }

  /** The innermost field that is not an array: the reference for the base types. */
  function Innermost(f: DbField): (r: DbField)
    requires WellFormed(f)
    ensures r.internalType != "ArrayField"
    decreases f
  {
    if f.internalType == "ArrayField" then Innermost(f.baseField.value) else f
  }

  /** However deep the nesting, the array's base data type is its innermost element's. */
  lemma {:induction false} BaseDataTypesInnermost(f: DbField, dataTypes: map<string, string>)
    requires f.internalType == "ArrayField" && WellFormed(f)
    ensures BaseDataTypes(f, dataTypes) == [DataType(Innermost(f), dataTypes)]
    decreases f
  {
    var base := f.baseField.value;
    if base.internalType == "ArrayField" {
      BaseDataTypesInnermost(base, dataTypes);
    }
  }

  // ---- the USING cast ----

  /**
    Whether `_alter_column_type_sql` appends `USING column::type`: for an
    array becoming an array the base types are compared, otherwise the
    fields' data types.
   */
  predicate NeedsUsing(oldField: DbField, newField: DbField, dataTypes: map<string, string>)
    requires WellFormed(oldField) && WellFormed(newField)
  {
    if newField.internalType == "ArrayField" && newField.internalType == oldField.internalType then
      BaseDataTypes(oldField, dataTypes) != BaseDataTypes(newField, dataTypes)
    else DataType(oldField, dataTypes) != DataType(newField, dataTypes)
  }

  /** Between two arrays the cast is needed exactly when the innermost element types differ. */
  lemma ArrayCastIff(oldField: DbField, newField: DbField, dataTypes: map<string, string>)
    requires WellFormed(oldField) && WellFormed(newField)
    requires oldField.internalType == "ArrayField" && newField.internalType == "ArrayField"
    ensures NeedsUsing(oldField, newField, dataTypes)
      <==> DataType(Innermost(oldField), dataTypes) != DataType(Innermost(newField), dataTypes)
  {
    BaseDataTypesInnermost(oldField, dataTypes);
    BaseDataTypesInnermost(newField, dataTypes);
  }

  /** `sql_alter_column_type`, with the cast when it is needed. */
  function AlterColumnType(column: string, typ: string, using: bool): (r: string)
    ensures StartsWith(r, "ALTER COLUMN " + column + " TYPE " + typ)
    ensures using <==> |r| > |"ALTER COLUMN " + column + " TYPE " + typ|
  {
    var head := "ALTER COLUMN " + column + " TYPE " + typ;
    assert head == head + "";
    if using then head + " USING " + column + "::" + typ else head
  }

  // ---- the serial rewrite ----

  /** `serial_fields_map`: the integer type behind each serial pseudo-type. */
  function SerialBase(t: string): Option<string> {
    if t == "bigserial" then Some("bigint")
    else if t == "serial" then Some("integer")
    else if t == "smallserial" then Some("smallint")
    else None
  }

  /** `"<table>_<column>_seq"`, from the names with their quotes stripped. */
  function SequenceName(table: string, column: string): string {
    StripQuotes(table) + "_" + StripQuotes(column) + "_seq"
  }

  function DropSequence(sequence: string): string {
    "DROP SEQUENCE IF EXISTS " + QuoteName(sequence) + " CASCADE"
  }

  /**
    The ALTER statement and the follow-up statements of a column type
    change.
   */
  datatype AlterSql = AlterSql(fragment: string, others: seq<string>)

  /**
    The five statements that make a serial column out of an integer one:
    drop any old sequence, create it, make it the column's default, move it
    past the largest value already stored, and tie its life to the column.
    `ALTER TABLE %(table)s %(changes)s` and `ALTER COLUMN %(column)s SET
    DEFAULT %(default)s` are the generic editor's templates.
   */
  function SerialStatements(table: string, column: string): (r: seq<string>)
    ensures |r| == 5
    ensures r[0] == DropSequence(SequenceName(table, column))
    ensures StartsWith(r[1], "CREATE SEQUENCE ") && StartsWith(r[2], "ALTER TABLE ")
    ensures StartsWith(r[3], "SELECT setval(") && StartsWith(r[4], "ALTER SEQUENCE ")
  {
    var t := QuoteName(StripQuotes(table));
    var c := QuoteName(StripQuotes(column));
    var s := QuoteName(SequenceName(table, column));
    [ DropSequence(SequenceName(table, column)),
      Statement("CREATE SEQUENCE ", s),
      Statement("ALTER TABLE ", t + " " + "ALTER COLUMN " + c + " SET DEFAULT " + "nextval('" + s + "')"),
      Statement("SELECT setval(", "'" + s + "', MAX(" + c + ")) FROM " + t),
      Statement("ALTER SEQUENCE ", s + " OWNED BY " + t + "." + c) ]
  }

  /** A statement: its leading keywords, then the rest. */
  function Statement(keywords: string, rest: string): (r: string)
    ensures StartsWith(r, keywords) && r[|keywords|..] == rest
  {
    PrefixOfConcat(keywords, rest);
    keywords + rest
  }

  /**
    The generic editor's `_alter_column_type_sql`: the template in
    `sql_alter_column_type`, which the override has just set with or without
    the cast, filled with the quoted column and the new type; no further
    statements.
   */
  function GenericAlterColumnType(newField: DbField, newType: string, using: bool): (r: AlterSql)
    ensures r.others == []
    ensures StartsWith(r.fragment, "ALTER COLUMN " + QuoteName(newField.column) + " TYPE " + newType)
  {
    AlterSql(AlterColumnType(QuoteName(newField.column), newType, using), [])
  }

  /**
    `_alter_column_type_sql`: the cast is decided first and kept in the
    template. A new serial type (in any case) becomes its integer type plus
    the five sequence statements; an old serial column (its declared type,
    compared as written) gets the generic fragment and a drop of its
    sequence; anything else is the generic editor's answer.
   */
  function AlterColumnTypeSql(table: string, oldField: DbField, newField: DbField, newType: string,
                              oldDbType: Option<string>, dataTypes: map<string, string>)
    : (r: AlterSql)
    requires WellFormed(oldField) && WellFormed(newField)
    ensures SerialBase(Lower(newType)).Some? ==> (
      && r.fragment == AlterColumnType(QuoteName(StripQuotes(newField.column)), SerialBase(Lower(newType)).value,
                                       NeedsUsing(oldField, newField, dataTypes))
      && r.others == SerialStatements(table, newField.column))
    ensures SerialBase(Lower(newType)).None? ==>
      r.fragment == AlterColumnType(QuoteName(newField.column), newType, NeedsUsing(oldField, newField, dataTypes))
    ensures SerialBase(Lower(newType)).None? && oldDbType.Some? && SerialBase(oldDbType.value).Some? ==>
      r.others == [DropSequence(SequenceName(table, newField.column))]
    ensures SerialBase(Lower(newType)).None? && !(oldDbType.Some? && SerialBase(oldDbType.value).Some?) ==>
      r.others == []
  {
    var using := NeedsUsing(oldField, newField, dataTypes);
    match SerialBase(Lower(newType))
    case Some(base) =>
      var column := StripQuotes(newField.column);
      AlterSql(AlterColumnType(QuoteName(column), base, using), SerialStatements(table, newField.column))
    case None =>
      var generic := GenericAlterColumnType(newField, newType, using);
      if oldDbType.Some? && SerialBase(oldDbType.value).Some? then
        AlterSql(generic.fragment, [DropSequence(SequenceName(table, newField.column))])
      else generic
  }

  /**
    Changing one array column into another of a type that is not serial
    casts exactly when the innermost element types differ.
   */
  lemma ArrayAlterCastsIff(table: string, oldField: DbField, newField: DbField, newType: string,
                           oldDbType: Option<string>, dataTypes: map<string, string>)
    requires WellFormed(oldField) && WellFormed(newField)
    requires oldField.internalType == "ArrayField" && newField.internalType == "ArrayField"
    requires SerialBase(Lower(newType)).None?
    ensures var head := "ALTER COLUMN " + QuoteName(newField.column) + " TYPE " + newType;
      var r := AlterColumnTypeSql(table, oldField, newField, newType, oldDbType, dataTypes);
      StartsWith(r.fragment, head)
      && (|r.fragment| > |head|
          <==> DataType(Innermost(oldField), dataTypes) != DataType(Innermost(newField), dataTypes))
  {
    ArrayCastIff(oldField, newField, dataTypes);
  }

  /** The serial pseudo-types are recognised whatever their case. */
  lemma SerialCaseInsensitive(a: string, b: string)
    requires Lower(a) == Lower(b)
    ensures SerialBase(Lower(a)) == SerialBase(Lower(b))
  {
  }

  /**
    Going to a serial type and later away from it name the same sequence:
    the sequence the rewrite creates is the one the way back drops.
   */
  lemma SerialThereAndBack(table: string, oldField: DbField, newField: DbField, serialType: string,
                           laterType: string, dataTypes: map<string, string>)
    requires WellFormed(oldField) && WellFormed(newField)
    requires SerialBase(Lower(serialType)).Some? && SerialBase(serialType).Some?
    requires SerialBase(Lower(laterType)).None?
    ensures var there := AlterColumnTypeSql(table, oldField, newField, serialType, None, dataTypes);
      var back := AlterColumnTypeSql(table, newField, newField, laterType, Some(serialType), dataTypes);
      && |there.others| == 5
      && there.others[1] == "CREATE SEQUENCE " + QuoteName(SequenceName(table, newField.column))
      && back.others == [there.others[0]]
  {
  }

  /** `serial` and `integer` are a serial type and a type that is not one. */
  lemma SerialToInteger()
    ensures SerialBase(Lower("serial")) == SerialBase("serial") == Some("integer")
    ensures SerialBase(Lower("integer")).None?
  {
    LowerOfLower("serial");
    LowerOfLower("integer");
  }

  // ---- the _like index ----

  /** A request for `_create_index_sql` of one field. */
  datatype IndexRequest = IndexRequest(column: string, suffix: string, opclass: string, template: string)

  const CreateIndexRest: string := "%(name)s" + " ON %(table)s%(using)s (%(columns)s)%(include)s%(extra)s%(condition)s"
  const CreateIndex: string := "CREATE INDEX " + CreateIndexRest
  const CreateIndexConcurrently: string := "CREATE INDEX CONCURRENTLY " + CreateIndexRest
  const DeleteIndexRest: string := "IF" + " EXISTS %(name)s"
  const DeleteIndex: string := "DROP INDEX " + DeleteIndexRest
  const DeleteIndexConcurrently: string := "DROP INDEX CONCURRENTLY " + DeleteIndexRest

  /** The template `_create_index_sql` hands to the generic builder. */
  function CreateIndexTemplate(concurrently: bool): (r: string)
    ensures StartsWith(r, "CREATE INDEX ")
    ensures concurrently <==> StartsWith(r, "CREATE INDEX CONCURRENTLY ")
  {
    PrefixOfConcat("CREATE INDEX ", CreateIndexRest);
    PrefixOfConcat("CREATE INDEX CONCURRENTLY ", CreateIndexRest);
    assert "CREATE INDEX CONCURRENTLY "[..13] == "CREATE INDEX ";
    assert CreateIndex[13] == CreateIndexRest[0] == "%(name)s"[0] == '%';
    if concurrently then CreateIndexConcurrently else CreateIndex
  }

  /** The template `_delete_index_sql` hands to the generic builder. */
  function DeleteIndexTemplate(concurrently: bool): (r: string)
    ensures StartsWith(r, "DROP INDEX ")
    ensures concurrently <==> StartsWith(r, "DROP INDEX CONCURRENTLY ")
  {
    PrefixOfConcat("DROP INDEX ", DeleteIndexRest);
    PrefixOfConcat("DROP INDEX CONCURRENTLY ", DeleteIndexRest);
    assert "DROP INDEX CONCURRENTLY "[..11] == "DROP INDEX ";
    assert DeleteIndex[11] == DeleteIndexRest[0] == "IF"[0] == 'I';
    if concurrently then DeleteIndexConcurrently else DeleteIndex
  }

  /**
    `_create_like_index_sql`: an indexed or unique `varchar...` column gets
    a `_like` index with `varchar_pattern_ops`, a `text...` column one with
    `text_pattern_ops`; arrays of them (`[` in the type), other types and
    columns without a type get none. The request never asks for the
    concurrent template.
   */
  function LikeIndex(f: DbField): (r: Option<IndexRequest>)
    ensures r.Some? <==> (f.dbType.Some? && (f.dbIndex || f.unique) && !HasChar(f.dbType.value, '[')
      && (StartsWith(f.dbType.value, "varchar") || StartsWith(f.dbType.value, "text")))
    ensures r.Some? ==> (r.value.suffix == "_like" && r.value.column == f.column
      && r.value.template == CreateIndexTemplate(false)
      && r.value.opclass == (if StartsWith(f.dbType.value, "varchar") then "varchar_pattern_ops" else "text_pattern_ops"))
  {
    if f.dbType.Some? && (f.dbIndex || f.unique) then
      var t := f.dbType.value;
      if HasChar(t, '[') then None
      else if StartsWith(t, "varchar") then
        Some(IndexRequest(f.column, "_like", "varchar_pattern_ops", CreateIndexTemplate(false)))
      else if StartsWith(t, "text") then
        Some(IndexRequest(f.column, "_like", "text_pattern_ops", CreateIndexTemplate(false)))
      else None
    else None
  }

  /** `_field_indexes_sql`: the generic indexes, then the `_like` one when there is one. */
  function FieldIndexes(generic: seq<IndexRequest>, f: DbField): (r: seq<IndexRequest>)
    ensures |r| == |generic| + (if LikeIndex(f).Some? then 1 else 0)
    ensures r[..|generic|] == generic
    ensures LikeIndex(f).Some? ==> r[|generic|] == LikeIndex(f).value
  {
    match LikeIndex(f)
    case None =>
      assert generic[..|generic|] == generic;
      generic
    case Some(like) => generic + [like]
  }

  // ---- _alter_field ----

  /** One step `_alter_field` takes, in order. */
  datatype Step =
    | DropLikeIndex(column: string, template: string)   // `_delete_index_sql` of `<table>_<column>..._like`
    | AlterInParent                                    // the generic `_alter_field`
    | CreateLikeIndex(request: IndexRequest)

  /** A column type of the `varchar`, `text` or `citext` family left for another type. */
  predicate LeavesFamily(oldType: string, newType: string) {
    || (StartsWith(oldType, "varchar") && !StartsWith(newType, "varchar"))
    || (StartsWith(oldType, "text") && !StartsWith(newType, "text"))
    || (StartsWith(oldType, "citext") && !StartsWith(newType, "citext"))
  }

  predicate DropsBefore(oldField: DbField, oldType: string, newType: string) {
    (oldField.dbIndex || oldField.unique) && LeavesFamily(oldType, newType)
  }

  predicate IndexAdded(oldField: DbField, newField: DbField) {
    (!(oldField.dbIndex || oldField.unique) && newField.dbIndex) || (!oldField.unique && newField.unique)
  }

  predicate UniqueRemoved(oldField: DbField, newField: DbField) {
    oldField.unique && !(newField.dbIndex || newField.unique)
  }

  /**
    `_alter_field`: drop the old `_like` index when an indexed column leaves
    its text family, let the generic editor alter the field, create the new
    `_like` index when an index or a unique constraint was added, and drop
    the old one when the unique constraint went with no index left. The
    drops use the non-concurrent template.
   */
  function AlterField(oldField: DbField, newField: DbField, oldType: string, newType: string): (r: seq<Step>)
    ensures AlterInParent in r
    ensures (|r| > 0 && r[0].DropLikeIndex?) <==> DropsBefore(oldField, oldType, newType)
    ensures (exists s :: s in r && s.CreateLikeIndex?) <==> IndexAdded(oldField, newField) && LikeIndex(newField).Some?
    ensures |r| >= 1 && (r[|r| - 1].DropLikeIndex? <==> UniqueRemoved(oldField, newField))
    ensures forall s :: s in r && s.DropLikeIndex? ==> s == DropLikeIndex(oldField.column, DeleteIndexTemplate(false))
  {
    var drop := DropLikeIndex(oldField.column, DeleteIndexTemplate(false));
    var before := if DropsBefore(oldField, oldType, newType) then [drop] else [];
    var create :=
      if IndexAdded(oldField, newField) && LikeIndex(newField).Some? then [CreateLikeIndex(LikeIndex(newField).value)]
      else [];
    var after := if UniqueRemoved(oldField, newField) then [drop] else [];
    var r := before + [AlterInParent] + create + after;
    assert forall s :: s in r <==> s in before || s == AlterInParent || s in create || s in after;
    assert create != [] ==> create[0] in r;
    r
  }

  /**
    After the generic step the `_like` index is either created or dropped,
    never both: creating needs an index or unique on the new field,
    dropping needs neither.
   */
  lemma NeverCreateAndDrop(oldField: DbField, newField: DbField, oldType: string, newType: string)
    ensures var r := AlterField(oldField, newField, oldType, newType);
      !((exists s :: s in r && s.CreateLikeIndex?) && UniqueRemoved(oldField, newField))
  {
  }
}
