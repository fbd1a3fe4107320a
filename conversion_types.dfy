/**
  The closed set of rule kinds (`STATIC_CONVERSION_TYPES`) and the string tag
  each kind is written as in a rule definition.
 */
module ConversionTypes {
  import opened Wrappers

  datatype ConversionType =
    // datetime functions
    | ConvertTimezone
    | AssignTimezone
    | AssignUtcTimezone
    | ParseDatetime
    // SQL rule functions
    | SqlQuery
    | SqlCondition
    // column rename
    | RenameColumn
    // unnest operation
    | UnnestColumn
    // lookup operation
    | Lookup
    // value mapping
    | MapValues
    // static values
    | AssignStaticValue
    // default values for a missing column
    | ApplyDefaultIfColumnMissing
    // column dtypes
    | SetColumnDtypes

  /** Every kind, in declaration order. */
  const AllTypes: seq<ConversionType> := [
    ConvertTimezone, AssignTimezone, AssignUtcTimezone, ParseDatetime,
    SqlQuery, SqlCondition, RenameColumn, UnnestColumn, Lookup, MapValues,
    AssignStaticValue, ApplyDefaultIfColumnMissing, SetColumnDtypes
  ]

  /** The enum member's value: the tag a rule definition uses for the kind. */
  function Tag(k: ConversionType): string {
    match k
    case ConvertTimezone => "convert_timezone"
    case AssignTimezone => "assign_timezone"
    case AssignUtcTimezone => "assign_utc_timezone"
    case ParseDatetime => "parse_datetime"
    case SqlQuery => "sql_query"
    case SqlCondition => "sql_condition"
    case RenameColumn => "rename_column"
    case UnnestColumn => "unnest"
    case Lookup => "lookup"
    case MapValues => "map_values"
    case AssignStaticValue => "static_value"
    case ApplyDefaultIfColumnMissing => "apply_default_if_column_missing"
    case SetColumnDtypes => "set_column_dtypes"
  }

  /**
    Lookup by value (`STATIC_CONVERSION_TYPES(s)`): the kind whose tag is `s`,
    or `None` when no kind has that tag.
   */
  function ParseTag(s: string): (r: Option<ConversionType>)
    ensures r.Some? ==> Tag(r.value) == s
    ensures r.None? <==> forall k :: Tag(k) != s
  {
    if s == "convert_timezone" then Some(ConvertTimezone)
    else if s == "assign_timezone" then Some(AssignTimezone)
    else if s == "assign_utc_timezone" then Some(AssignUtcTimezone)
    else if s == "parse_datetime" then Some(ParseDatetime)
    else if s == "sql_query" then Some(SqlQuery)
    else if s == "sql_condition" then Some(SqlCondition)
    else if s == "rename_column" then Some(RenameColumn)
    else if s == "unnest" then Some(UnnestColumn)
    else if s == "lookup" then Some(Lookup)
    else if s == "map_values" then Some(MapValues)
    else if s == "static_value" then Some(AssignStaticValue)
    else if s == "apply_default_if_column_missing" then Some(ApplyDefaultIfColumnMissing)
    else if s == "set_column_dtypes" then Some(SetColumnDtypes)
    else None
  }

  /** Printing a kind and parsing the tag back gives the same kind. */
  lemma ParseTagRoundTrip(k: ConversionType)
    ensures ParseTag(Tag(k)) == Some(k)
  {
  }

  /** No two kinds share a tag, so `Tag` is injective and `ParseTag` its inverse. */
  lemma TagsDistinct(a: ConversionType, b: ConversionType)
    ensures Tag(a) == Tag(b) ==> a == b
  {
    ParseTagRoundTrip(a);
    ParseTagRoundTrip(b);
  }

  /** The enum has exactly thirteen members, listed once each in `AllTypes`. */
  lemma AllTypesComplete()
    ensures |AllTypes| == 13
    ensures forall k :: k in AllTypes
    ensures forall i, j :: 0 <= i < j < |AllTypes| ==> Tag(AllTypes[i]) != Tag(AllTypes[j])
  {
    forall k ensures k in AllTypes {
      match k
      case ConvertTimezone => assert AllTypes[0] == k;
      case AssignTimezone => assert AllTypes[1] == k;
      case AssignUtcTimezone => assert AllTypes[2] == k;
      case ParseDatetime => assert AllTypes[3] == k;
      case SqlQuery => assert AllTypes[4] == k;
      case SqlCondition => assert AllTypes[5] == k;
      case RenameColumn => assert AllTypes[6] == k;
      case UnnestColumn => assert AllTypes[7] == k;
      case Lookup => assert AllTypes[8] == k;
      case MapValues => assert AllTypes[9] == k;
      case AssignStaticValue => assert AllTypes[10] == k;
      case ApplyDefaultIfColumnMissing => assert AllTypes[11] == k;
      case SetColumnDtypes => assert AllTypes[12] == k;
    }
    forall i, j | 0 <= i < j < |AllTypes|
      ensures Tag(AllTypes[i]) != Tag(AllTypes[j])
    {
      TagsDistinct(AllTypes[i], AllTypes[j]);
    }
  }
}
