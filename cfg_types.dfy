/**
 * The enumerations of the configuration registry, their display names and
 * the dispatch of a load request on its source type.
 *
 * The numeric codes follow the declaration order of the enumerations in the
 * configuration header, starting at 0; the model relies only on their being
 * distinct. Each display-name table is given together with an independent
 * reverse table, and the forward table is proved to be undone by it on every
 * defined code, which makes each table injective there.
 */
module CfgTypes {
  import opened Wrappers
  import opened CTypes

  // ---------------------------------------------------------------------
  // Where a value came from (ECfgSrcType)
  // ---------------------------------------------------------------------

  const CFG_TYPE_DEFAULT: int32 := 0
  const CFG_TYPE_CFG_FILE: int32 := 1
  const CFG_TYPE_ENV_FILE: int32 := 2
  const CFG_TYPE_ENV_VAR: int32 := 3
  const CFG_TYPE_APOLLO_URL: int32 := 4

  predicate IsSrcType(t: int32) {
    CFG_TYPE_DEFAULT <= t <= CFG_TYPE_APOLLO_URL
  }

  // ---------------------------------------------------------------------
  // The type of a value (ECfgDataType)
  // ---------------------------------------------------------------------

  const CFG_DTYPE_NONE: int32 := 0
  const CFG_DTYPE_BOOL: int32 := 1
  const CFG_DTYPE_INT8: int32 := 2
  const CFG_DTYPE_UINT8: int32 := 3
  const CFG_DTYPE_INT16: int32 := 4
  const CFG_DTYPE_UINT16: int32 := 5
  const CFG_DTYPE_INT32: int32 := 6
  const CFG_DTYPE_UINT32: int32 := 7
  const CFG_DTYPE_INT64: int32 := 8
  const CFG_DTYPE_UINT64: int32 := 9
  const CFG_DTYPE_FLOAT: int32 := 10
  const CFG_DTYPE_DOUBLE: int32 := 11
  const CFG_DTYPE_STRING: int32 := 12
  const CFG_DTYPE_FQDN: int32 := 13
  const CFG_DTYPE_IPSTR: int32 := 14
  const CFG_DTYPE_DIR: int32 := 15
  const CFG_DTYPE_FILE: int32 := 16

  predicate IsDataType(t: int32) {
    CFG_DTYPE_NONE <= t <= CFG_DTYPE_FILE
  }

  // ---------------------------------------------------------------------
  // The unit a value is displayed in (ECfgUnitType)
  // ---------------------------------------------------------------------

  const CFG_UTYPE_NONE: int32 := 0
  const CFG_UTYPE_PERCENT: int32 := 1
  const CFG_UTYPE_GB: int32 := 2
  const CFG_UTYPE_MB: int32 := 3
  const CFG_UTYPE_BYTE: int32 := 4
  const CFG_UTYPE_SECOND: int32 := 5
  const CFG_UTYPE_MS: int32 := 6

  predicate IsUnitType(t: int32) {
    CFG_UTYPE_NONE <= t <= CFG_UTYPE_MS
  }

  /** The name shown for any code outside an enumeration. */
  const Invalid: string := "invalid"

  // ---------------------------------------------------------------------
  // Display names (cfgStypeStr, cfgDtypeStr, cfgUtypeStr)
  // ---------------------------------------------------------------------

  /**
   * cfgStypeStr: defined for every code; a code of the enumeration gets its
   * own name, which the reverse table maps back to it, and every other code
   * gets "invalid".
   */
  function StypeStr(t: int32): (r: string)
    ensures r != Invalid <==> IsSrcType(t)
    ensures IsSrcType(t) ==> SrcTypeNamed(r) == Some(t)
  {
    if t == CFG_TYPE_DEFAULT then "default"
    else if t == CFG_TYPE_CFG_FILE then "cfg_file"
    else if t == CFG_TYPE_ENV_FILE then "env_file"
    else if t == CFG_TYPE_ENV_VAR then "env_var"
    else if t == CFG_TYPE_APOLLO_URL then "apollo_url"
    else Invalid
  }

  /** Reverse of cfgStypeStr: the source type a display name stands for. */
  function SrcTypeNamed(s: string): Option<int32> {
    if s == "default" then Some(CFG_TYPE_DEFAULT)
    else if s == "cfg_file" then Some(CFG_TYPE_CFG_FILE)
    else if s == "env_file" then Some(CFG_TYPE_ENV_FILE)
    else if s == "env_var" then Some(CFG_TYPE_ENV_VAR)
    else if s == "apollo_url" then Some(CFG_TYPE_APOLLO_URL)
    else None
  }

  /**
   * cfgDtypeStr: defined for every code; a code of the enumeration gets its
   * own name, which the reverse table maps back to it, and every other code
   * gets "invalid".
   */
  function DtypeStr(t: int32): (r: string)
    ensures r != Invalid <==> IsDataType(t)
    ensures IsDataType(t) ==> DataTypeNamed(r) == Some(t)
  {
    if t == CFG_DTYPE_NONE then "none"
    else if t == CFG_DTYPE_BOOL then "bool"
    else if t == CFG_DTYPE_INT8 then "int8"
    else if t == CFG_DTYPE_UINT8 then "uint8"
    else if t == CFG_DTYPE_INT16 then "int16"
    else if t == CFG_DTYPE_UINT16 then "uint16"
    else if t == CFG_DTYPE_INT32 then "int32"
    else if t == CFG_DTYPE_UINT32 then "uint32"
    else if t == CFG_DTYPE_INT64 then "int64"
    else if t == CFG_DTYPE_UINT64 then "uint64"
    else if t == CFG_DTYPE_FLOAT then "float"
    else if t == CFG_DTYPE_DOUBLE then "double"
    else if t == CFG_DTYPE_STRING then "string"
    else if t == CFG_DTYPE_FQDN then "fqdn"
    else if t == CFG_DTYPE_IPSTR then "ipstr"
    else if t == CFG_DTYPE_DIR then "dir"
    else if t == CFG_DTYPE_FILE then "file"
    else Invalid
  }

  /** Reverse of cfgDtypeStr: the data type a display name stands for. */
  function DataTypeNamed(s: string): Option<int32> {
    if s == "none" then Some(CFG_DTYPE_NONE)
    else if s == "bool" then Some(CFG_DTYPE_BOOL)
    else if s == "int8" then Some(CFG_DTYPE_INT8)
    else if s == "uint8" then Some(CFG_DTYPE_UINT8)
    else if s == "int16" then Some(CFG_DTYPE_INT16)
    else if s == "uint16" then Some(CFG_DTYPE_UINT16)
    else if s == "int32" then Some(CFG_DTYPE_INT32)
    else if s == "uint32" then Some(CFG_DTYPE_UINT32)
    else if s == "int64" then Some(CFG_DTYPE_INT64)
    else if s == "uint64" then Some(CFG_DTYPE_UINT64)
    else if s == "float" then Some(CFG_DTYPE_FLOAT)
    else if s == "double" then Some(CFG_DTYPE_DOUBLE)
    else if s == "string" then Some(CFG_DTYPE_STRING)
    else if s == "fqdn" then Some(CFG_DTYPE_FQDN)
    else if s == "ipstr" then Some(CFG_DTYPE_IPSTR)
    else if s == "dir" then Some(CFG_DTYPE_DIR)
    else if s == "file" then Some(CFG_DTYPE_FILE)
    else None
  }

  /**
   * cfgUtypeStr: defined for every code; a code of the enumeration gets its
   * own suffix (the empty one for CFG_UTYPE_NONE), which the reverse table
   * maps back to it, and every other code gets "invalid".
   */
  function UtypeStr(t: int32): (r: string)
    ensures r != Invalid <==> IsUnitType(t)
    ensures IsUnitType(t) ==> UnitTypeNamed(r) == Some(t)
  {
    if t == CFG_UTYPE_NONE then ""
    else if t == CFG_UTYPE_PERCENT then "(%)"
    else if t == CFG_UTYPE_GB then "(GB)"
    else if t == CFG_UTYPE_MB then "(Mb)"
    else if t == CFG_UTYPE_BYTE then "(byte)"
    else if t == CFG_UTYPE_SECOND then "(s)"
    else if t == CFG_UTYPE_MS then "(ms)"
    else Invalid
  }

  /** Reverse of cfgUtypeStr: the unit type a display suffix stands for. */
  function UnitTypeNamed(s: string): Option<int32> {
    if s == "" then Some(CFG_UTYPE_NONE)
    else if s == "(%)" then Some(CFG_UTYPE_PERCENT)
    else if s == "(GB)" then Some(CFG_UTYPE_GB)
    else if s == "(Mb)" then Some(CFG_UTYPE_MB)
    else if s == "(byte)" then Some(CFG_UTYPE_BYTE)
    else if s == "(s)" then Some(CFG_UTYPE_SECOND)
    else if s == "(ms)" then Some(CFG_UTYPE_MS)
    else None
  }

  // ---------------------------------------------------------------------
  // Load dispatch (cfgLoad)
  // ---------------------------------------------------------------------

  /**
   * A call of one of the four loaders, with the argument it is given. The
   * loaders themselves read files, the environment or a URL and are not part
   * of this model.
   */
  datatype LoadCall =
    | FromCfgFile(source: string)
    | FromEnvFile(source: string)
    | FromEnvVar
    | FromApolloUrl(source: string)

  /** The source type each loader serves. */
  function SourceOf(c: LoadCall): int32 {
    match c
    case FromCfgFile(_) => CFG_TYPE_CFG_FILE
    case FromEnvFile(_) => CFG_TYPE_ENV_FILE
    case FromEnvVar => CFG_TYPE_ENV_VAR
    case FromApolloUrl(_) => CFG_TYPE_APOLLO_URL
  }

  /**
   * The switch of cfgLoad: the loader a source type is routed to, if any.
   * Every source type except DEFAULT has a loader, the loader serves exactly
   * that type and receives the source string (the environment-variable
   * loader takes none); DEFAULT and codes outside the enumeration have none.
   */
  function LoadCallFor(t: int32, sourceStr: string): (r: Option<LoadCall>)
    ensures r.Some? <==> IsSrcType(t) && t != CFG_TYPE_DEFAULT
    ensures r.Some? ==> SourceOf(r.value) == t
    ensures r.Some? && !r.value.FromEnvVar? ==> r.value.source == sourceStr
  {
    if t == CFG_TYPE_CFG_FILE then Some(FromCfgFile(sourceStr))
    else if t == CFG_TYPE_ENV_FILE then Some(FromEnvFile(sourceStr))
    else if t == CFG_TYPE_ENV_VAR then Some(FromEnvVar)
    else if t == CFG_TYPE_APOLLO_URL then Some(FromApolloUrl(sourceStr))
    else None
  }

  /**
   * cfgLoad, with `run` giving the status each loader call would return.
   * A source type without a loader yields -1 without any loader running;
   * otherwise the status is that of the one loader for the type.
   */
  function Load(t: int32, sourceStr: string, run: LoadCall -> int32): (rc: int32)
    ensures !IsSrcType(t) || t == CFG_TYPE_DEFAULT ==> rc == -1
    ensures t == CFG_TYPE_CFG_FILE ==> rc == run(FromCfgFile(sourceStr))
    ensures t == CFG_TYPE_ENV_FILE ==> rc == run(FromEnvFile(sourceStr))
    ensures t == CFG_TYPE_ENV_VAR ==> rc == run(FromEnvVar)
    ensures t == CFG_TYPE_APOLLO_URL ==> rc == run(FromApolloUrl(sourceStr))
  {
    match LoadCallFor(t, sourceStr)
    case None => -1
    case Some(c) => run(c)
  }
}
