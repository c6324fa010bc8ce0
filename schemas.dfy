/** Declared field types and the schema tables of a few complex objects
    (resttypes/cobjects.py). A complex-object class declares four tables:
    ALL_ATTRIBS, REQUIRED_ATTRIBS, OPTIONAL_ATTRIBS and TYPES. */
module Schemas {
  import opened Enums

  /** The complex-object classes whose tables are part of this model. */
  datatype ComplexClass =
    | FilterCondition | SearchFilter | QueryLimit | OrderedField | CallbackParams
    | PseudoResource | SimpleResource | ListResult

  /** A declared field type: a builtin (`bool`, `int`, `float`, `str`,
      `datetime`), a REST enum, `List(t)`, `Dict(k, v)`, a complex-object class
      or GenericContainer. */
  datatype FieldType =
    | TBool
    | TInt
    | TFloat
    | TStr
    | TDateTime
    | TEnum(e: EnumType)
    | TList(item: FieldType)
    | TDict(key: FieldType, item: FieldType)
    | TComplex(cls: ComplexClass)
    | TGeneric

  /** Field types that are Typed subclasses (TypedList, TypedDict, the complex
      objects and GenericContainer); they carry `is_acceptable` and are
      `_noneable`. */
  predicate IsTyped(t: FieldType) {
    t.TList? || t.TDict? || t.TComplex? || t.TGeneric?
  }

  datatype Schema = Schema(all: set<string>, required: set<string>, optional: set<string>, types: map<string, FieldType>)

  /** The shape every generated table has: required and optional attributes
      partition the attributes, and every attribute has a declared type. */
  predicate WellFormed(s: Schema) {
    s.required <= s.all && s.optional == s.all - s.required && s.types.Keys == s.all
  }

  function SchemaOf(c: ComplexClass): (s: Schema)
  {
    match c
    case FilterCondition =>
      Schema({"field", "condition", "value"}, {"field", "value", "condition"}, {},
             map["field" := TStr, "value" := TList(TStr), "condition" := TEnum(Condition)])
    case SearchFilter =>
      Schema({"filterConditions"}, {"filterConditions"}, {},
             map["filterConditions" := TList(TComplex(FilterCondition))])
    case QueryLimit =>
      Schema({"orderBy", "to", "maxRecords", "from", "loadChildren"}, {"loadChildren"},
             {"orderBy", "to", "maxRecords", "from"},
             map["orderBy" := TList(TComplex(OrderedField)), "to" := TInt, "maxRecords" := TInt,
                 "from" := TInt, "loadChildren" := TBool])
    case OrderedField =>
      Schema({"aggregationFunction", "fieldName", "sortOrder"}, {"fieldName", "sortOrder"},
             {"aggregationFunction"},
             map["aggregationFunction" := TEnum(Aggregation), "fieldName" := TStr,
                 "sortOrder" := TEnum(ResultOrder)])
    case CallbackParams =>
      Schema({"hash"}, {}, {"hash"}, map["hash" := TDict(TStr, TStr)])
    case PseudoResource =>
      Schema({"resourceType"}, {"resourceType"}, {}, map["resourceType" := TEnum(ResourceType)])
    case SimpleResource =>
      Schema({"resourceType", "resourceName", "resourceUUID"}, {"resourceType", "resourceName", "resourceUUID"}, {},
             map["resourceType" := TEnum(ResourceType), "resourceName" := TStr, "resourceUUID" := TStr])
    case ListResult =>
      Schema({"listFrom", "totalCount", "list", "listTo"}, {"listFrom", "totalCount", "list", "listTo"}, {},
             map["listFrom" := TInt, "totalCount" := TInt, "list" := TList(TGeneric), "listTo" := TInt])
  }

  lemma TablesWellFormed(c: ComplexClass)
    ensures WellFormed(SchemaOf(c))
  {
  }
}
