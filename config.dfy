/**
 * The typed configuration registry: a table from item names to items, each
 * item carrying its data type, its value, its unit and where the value came
 * from, filled by one typed "add" operation per data type.
 *
 * Heap strings matter here because the registry takes ownership of copies:
 * the name of every stored item and the value of every string-typed item are
 * fresh copies. They are tracked in an `Allocator` whose `live` multiset holds
 * the copies not yet released, so that "the failed add releases what it
 * copied" is a statement about state. The registry objects not yet freed are
 * tracked there too; a registry's hash table lives and dies with it, and the
 * table's own storage is not tracked.
 */
module Cfg {
  import opened Wrappers
  import opened CTypes
  import opened CfgTypes

  /** The value of an item: one alternative per data type. */
  datatype CfgValue =
    | NoValue
    | BoolVal(b: bool)
    | Int8Val(i8: int8)
    | UInt8Val(u8: uint8)
    | Int16Val(i16: int16)
    | UInt16Val(u16: uint16)
    | Int32Val(i32: int32)
    | UInt32Val(u32: uint32)
    | Int64Val(i64: int64)
    | UInt64Val(u64: uint64)
    | FloatVal(f: bv32)     // an IEEE single, kept as its bits
    | DoubleVal(d: bv64)    // an IEEE double, kept as its bits
    | StringVal(str: string)
    | FqdnVal(fqdn: string)
    | IpStrVal(ipstr: string)
    | DirVal(dir: string)
    | FileVal(file: string)

  /** The data-type code that goes with each kind of value. */
  function DtypeOf(v: CfgValue): int32 {
    match v
    case NoValue => CFG_DTYPE_NONE
    case BoolVal(_) => CFG_DTYPE_BOOL
    case Int8Val(_) => CFG_DTYPE_INT8
    case UInt8Val(_) => CFG_DTYPE_UINT8
    case Int16Val(_) => CFG_DTYPE_INT16
    case UInt16Val(_) => CFG_DTYPE_UINT16
    case Int32Val(_) => CFG_DTYPE_INT32
    case UInt32Val(_) => CFG_DTYPE_UINT32
    case Int64Val(_) => CFG_DTYPE_INT64
    case UInt64Val(_) => CFG_DTYPE_UINT64
    case FloatVal(_) => CFG_DTYPE_FLOAT
    case DoubleVal(_) => CFG_DTYPE_DOUBLE
    case StringVal(_) => CFG_DTYPE_STRING
    case FqdnVal(_) => CFG_DTYPE_FQDN
    case IpStrVal(_) => CFG_DTYPE_IPSTR
    case DirVal(_) => CFG_DTYPE_DIR
    case FileVal(_) => CFG_DTYPE_FILE
  }

  /** A registry entry (SConfigItem). The empty name stands for a NULL name. */
  datatype ConfigItem = ConfigItem(stype: int32, utype: int32, name: string, dtype: int32, value: CfgValue)

  /**
   * The item a typed add starts from: only the data type and the value are
   * set, every other field is zero.
   */
  function Initialised(v: CfgValue): ConfigItem {
    ConfigItem(0, 0, "", DtypeOf(v), v)
  }

  /**
   * The value string the error path of cfgAddItem releases: chosen by the
   * item's data-type field, so only the five string types release one.
   */
  function OwnedString(item: ConfigItem): multiset<string> {
    if item.dtype == CFG_DTYPE_STRING && item.value.StringVal? then multiset{item.value.str}
    else if item.dtype == CFG_DTYPE_FQDN && item.value.FqdnVal? then multiset{item.value.fqdn}
    else if item.dtype == CFG_DTYPE_IPSTR && item.value.IpStrVal? then multiset{item.value.ipstr}
    else if item.dtype == CFG_DTYPE_DIR && item.value.DirVal? then multiset{item.value.dir}
    else if item.dtype == CFG_DTYPE_FILE && item.value.FileVal? then multiset{item.value.file}
    else multiset{}
  }

  /**
   * Every stored item is filed under its own name, carries the source type
   * DEFAULT, and its data-type field agrees with its value.
   */
  predicate WellFormed(items: map<string, ConfigItem>) {
    forall n :: n in items ==>
      items[n].name == n && items[n].stype == CFG_TYPE_DEFAULT && items[n].dtype == DtypeOf(items[n].value)
  }

  // ---------------------------------------------------------------------
  // Adding an item, as values
  // ---------------------------------------------------------------------

  /** Status, table and live copies after an add. */
  datatype AddResult = AddResult(rc: int32, items: map<string, ConfigItem>, live: multiset<string>)

  /**
   * cfgAddItem, with the name copy released on the error path of the table
   * insert, and with the item's value string also released when the name
   * cannot be copied (the source forgets that one: see ItemAddedAsWritten).
   * `nameDupOk` is the outcome of copying the name, `putOk` that of the
   * table insert.
   *
   * On success the name maps to the item stamped with source type DEFAULT,
   * the given unit and the name; no other name is affected, and the one new
   * live copy is the name. On failure the table is unchanged and the item's
   * value string is released.
   */
  function ItemAdded(items: map<string, ConfigItem>, live: multiset<string>, item: ConfigItem,
                     name: string, utype: int32, nameDupOk: bool, putOk: bool): (r: AddResult)
    ensures r.rc == 0 || r.rc == -1
    ensures r.rc == 0 <==> nameDupOk && putOk
    ensures r.rc == 0 ==> name in r.items && r.items[name].name == name && r.items[name].stype == CFG_TYPE_DEFAULT
    ensures r.rc == 0 ==> r.items[name].utype == utype && r.items[name].dtype == item.dtype && r.items[name].value == item.value
    ensures r.items - {name} == items - {name}
    ensures r.rc == 0 ==> r.live == live + multiset{name}
    ensures r.rc != 0 ==> r.items == items && r.live == live - OwnedString(item)
  {
    var stamped := item.(stype := CFG_TYPE_DEFAULT, utype := utype);
    if !nameDupOk then
      AddResult(-1, items, live - OwnedString(item))
    else
      var named := stamped.(name := name);
      var withName := live + multiset{name};
      if !putOk then
        ReleaseAfterCopy(live, OwnedString(item), name);
        AddResult(-1, items, withName - OwnedString(item) - multiset{name})
      else
        AddResult(0, items[name := named], withName)
  }

  /** Releasing a fresh copy again undoes it, whatever was released in between. */
  lemma ReleaseAfterCopy(a: multiset<string>, b: multiset<string>, n: string)
    ensures (a + multiset{n}) - b - multiset{n} == a - b
  {
    forall x
      ensures ((a + multiset{n}) - b - multiset{n})[x] == (a - b)[x]
    {
    }
  }

  /** cfgAddItem exactly as written: a failed name copy releases nothing. */
  function ItemAddedAsWritten(items: map<string, ConfigItem>, live: multiset<string>, item: ConfigItem,
                              name: string, utype: int32, nameDupOk: bool, putOk: bool): AddResult
  {
    if !nameDupOk then AddResult(-1, items, live)
    else ItemAdded(items, live, item, name, utype, nameDupOk, putOk)
  }

  /** An add keeps the table well formed, given an item whose data type matches its value. */
  lemma {:induction false} AddKeepsWellFormed(items: map<string, ConfigItem>, live: multiset<string>, item: ConfigItem,
                                              name: string, utype: int32, nameDupOk: bool, putOk: bool)
    requires WellFormed(items) && item.dtype == DtypeOf(item.value)
    ensures WellFormed(ItemAdded(items, live, item, name, utype, nameDupOk, putOk).items)
  {
    var r := ItemAdded(items, live, item, name, utype, nameDupOk, putOk);
    forall n | n in r.items
      ensures r.items[n].name == n && r.items[n].stype == CFG_TYPE_DEFAULT
      ensures r.items[n].dtype == DtypeOf(r.items[n].value)
    {
      if n != name {
        assert n in r.items - {name};
        assert n in items - {name};
      }
    }
  }

  /**
   * What cfgGetSize reports after an add: one more item exactly when the add
   * succeeded under a name not yet present; the same count otherwise.
   */
  lemma AddChangesSizeOnlyForNewNames(items: map<string, ConfigItem>, live: multiset<string>, item: ConfigItem,
                                      name: string, utype: int32, nameDupOk: bool, putOk: bool)
    ensures var r := ItemAdded(items, live, item, name, utype, nameDupOk, putOk);
      |r.items| == if r.rc == 0 && name !in items then |items| + 1 else |items|
  {
    var r := ItemAdded(items, live, item, name, utype, nameDupOk, putOk);
    if r.rc == 0 {
      assert r.items == items[name := r.items[name]];
    }
  }

  // ---------------------------------------------------------------------
  // Adding a string-valued item, as values
  // ---------------------------------------------------------------------

  /** The five string-valued data types. */
  datatype StrKind = KString | KFqdn | KIpStr | KDir | KFile

  function StrValue(k: StrKind, s: string): CfgValue {
    match k
    case KString => StringVal(s)
    case KFqdn => FqdnVal(s)
    case KIpStr => IpStrVal(s)
    case KDir => DirVal(s)
    case KFile => FileVal(s)
  }

  /**
   * cfgAddString, cfgAddFqdn, cfgAddIpStr, cfgAddDir and cfgAddFile: the
   * default is copied first (`valDupOk` is the outcome), then the item holding
   * the copy is added through ItemAdded.
   */
  function StringItemAdded(items: map<string, ConfigItem>, live: multiset<string>, k: StrKind, name: string,
                           defaultVal: string, utype: int32, valDupOk: bool, nameDupOk: bool, putOk: bool): AddResult
  {
    if !valDupOk then AddResult(-1, items, live)
    else ItemAdded(items, live + multiset{defaultVal}, Initialised(StrValue(k, defaultVal)), name, utype, nameDupOk, putOk)
  }

  /** The string-valued adds exactly as written, through ItemAddedAsWritten. */
  function StringItemAddedAsWritten(items: map<string, ConfigItem>, live: multiset<string>, k: StrKind, name: string,
                                    defaultVal: string, utype: int32, valDupOk: bool, nameDupOk: bool, putOk: bool): AddResult
  {
    if !valDupOk then AddResult(-1, items, live)
    else ItemAddedAsWritten(items, live + multiset{defaultVal}, Initialised(StrValue(k, defaultVal)), name, utype, nameDupOk, putOk)
  }

  /**
   * A string-valued add is all or nothing: it either stores the item with the
   * default as its value and keeps exactly two new copies (name and value),
   * or fails leaving both the table and the live copies as they were. A
   * failed copy of the default fails before the table is looked at.
   */
  lemma {:induction false} StringAddIsAllOrNothing(items: map<string, ConfigItem>, live: multiset<string>, k: StrKind, name: string,
                                                   defaultVal: string, utype: int32, valDupOk: bool, nameDupOk: bool, putOk: bool)
    ensures var r := StringItemAdded(items, live, k, name, defaultVal, utype, valDupOk, nameDupOk, putOk);
      && (r.rc == 0 <==> valDupOk && nameDupOk && putOk)
      && (r.rc != 0 ==> r.rc == -1 && r.items == items && r.live == live)
      && (r.rc == 0 ==> r.items == items[name := ConfigItem(CFG_TYPE_DEFAULT, utype, name, DtypeOf(StrValue(k, defaultVal)), StrValue(k, defaultVal))])
      && (r.rc == 0 ==> r.live == live + multiset{defaultVal, name})
  {
    var r := StringItemAdded(items, live, k, name, defaultVal, utype, valDupOk, nameDupOk, putOk);
    if valDupOk {
      var item := Initialised(StrValue(k, defaultVal));
      InitialisedStringIsOwned(k, defaultVal);
      if r.rc == 0 {
        assert r.items == items[name := r.items[name]];
        assert live + multiset{defaultVal} + multiset{name} == live + multiset{defaultVal, name};
      } else {
        CopyThenRelease(live, defaultVal);
      }
    }
  }

  /** A string-valued item fresh from its typed add owns exactly its value. */
  lemma InitialisedStringIsOwned(k: StrKind, s: string)
    ensures OwnedString(Initialised(StrValue(k, s))) == multiset{s}
  {
    match k
    case KString =>
    case KFqdn =>
    case KIpStr =>
    case KDir =>
    case KFile =>
  }

  /** Releasing a fresh copy undoes it. */
  lemma CopyThenRelease(a: multiset<string>, s: string)
    ensures a + multiset{s} - multiset{s} == a
  {
    forall x
      ensures (a + multiset{s} - multiset{s})[x] == a[x]
    {
    }
  }

  /**
   * As written, a string-valued add whose name cannot be copied fails but
   * leaves the copy of the default live, owned by nobody.
   */
  lemma {:induction false} AsWrittenLeaksDefaultOnNameCopyFailure(items: map<string, ConfigItem>, live: multiset<string>, k: StrKind,
                                                                  name: string, defaultVal: string, utype: int32, putOk: bool)
    ensures var r := StringItemAddedAsWritten(items, live, k, name, defaultVal, utype, true, false, putOk);
      r.rc == -1 && r.items == items && r.live == live + multiset{defaultVal} && r.live != live
  {
    var r := StringItemAddedAsWritten(items, live, k, name, defaultVal, utype, true, false, putOk);
    assert r.live[defaultVal] == live[defaultVal] + 1;
  }

  // ---------------------------------------------------------------------
  // Lookup
  // ---------------------------------------------------------------------

  /**
   * cfgGetItem exactly as written: the function has no return statement, so
   * the caller receives whatever the return register happened to hold,
   * given here as `leftover`, regardless of the table.
   */
  function GetItemAsWritten(items: map<string, ConfigItem>, name: string, leftover: Option<ConfigItem>): Option<ConfigItem> {
    leftover
  }

  /** An item that was just added can be missed by the lookup as written. */
  lemma AsWrittenLookupMissesAddedItem()
    ensures var r := ItemAdded(map[], multiset{}, Initialised(BoolVal(true)), "debugFlag", CFG_UTYPE_NONE, true, true);
      r.rc == 0 && "debugFlag" in r.items && GetItemAsWritten(r.items, "debugFlag", None) == None
  {
  }

  // ---------------------------------------------------------------------
  // The registry and its allocator, in place
  // ---------------------------------------------------------------------

  /** The C heap, as far as the registry's string copies are concerned. */
  class Allocator {
    var live: multiset<string>
    /** The registries allocated and not yet freed. */
    var registries: set<Config>

    constructor ()
      ensures live == multiset{} && registries == {}
    {
      live := multiset{};
      registries := {};
    }

    /** strdup, with `ok` the outcome of the allocation. */
    method Dup(s: string, ok: bool) returns (copy: Option<string>)
      modifies this`live
      ensures ok ==> copy == Some(s) && live == old(live) + multiset{s}
      ensures !ok ==> copy == None && live == old(live)
    {
      if !ok {
        return None;
      }
      live := live + multiset{s};
      return Some(s);
    }

    /** free */
    method Free(s: string)
      modifies this`live
      ensures live == old(live) - multiset{s}
    {
      live := live - multiset{s};
    }
  }

  /** SConfig: the table of items, keyed by name. */
  class Config {
    var items: map<string, ConfigItem>

    ghost predicate Valid()
      reads this
    {
      WellFormed(items)
    }

    constructor ()
      ensures Valid() && items == map[]
    {
      items := map[];
    }

    /** cfgGetSize: the number of items; zero exactly when the table is empty. */
    function Size(): (n: nat)
      reads this
      ensures n == 0 <==> items == map[]
    {
      assert items != map[] ==> exists k :: k in items;
      |items|
    }

    /**
     * cfgGetItem as evidently intended: the item filed under `name`, or
     * nothing when there is none.
     */
    function GetItem(name: string): (r: Option<ConfigItem>)
      reads this
      ensures r.Some? <==> name in items
      ensures r.Some? ==> r.value == items[name]
    {
      if name in items then Some(items[name]) else None
    }

    /**
     * The error path of cfgAddItem after a failed insert: the value string
     * the item's data type says it owns is released.
     */
    static method ReleaseValue(heap: Allocator, item: ConfigItem)
      modifies heap`live
      ensures heap.live == old(heap.live) - OwnedString(item)
    {
      if item.dtype == CFG_DTYPE_STRING && item.value.StringVal? {
        heap.Free(item.value.str);
      } else if item.dtype == CFG_DTYPE_FQDN && item.value.FqdnVal? {
        heap.Free(item.value.fqdn);
      } else if item.dtype == CFG_DTYPE_IPSTR && item.value.IpStrVal? {
        heap.Free(item.value.ipstr);
      } else if item.dtype == CFG_DTYPE_DIR && item.value.DirVal? {
        heap.Free(item.value.dir);
      } else if item.dtype == CFG_DTYPE_FILE && item.value.FileVal? {
        heap.Free(item.value.file);
      }
    }

    /**
     * cfgAddItem: stamp the item with source type DEFAULT, the unit and a
     * copy of the name, then insert it under the name. The resulting status,
     * table and live copies are those ItemAdded computes.
     */
    method AddItem(heap: Allocator, item: ConfigItem, name: string, utype: int32, nameDupOk: bool, putOk: bool)
      returns (rc: int32)
      modifies this, heap`live
      ensures AddResult(rc, items, heap.live) == ItemAdded(old(items), old(heap.live), item, name, utype, nameDupOk, putOk)
    {
      ghost var live0 := heap.live;
      var stamped := item.(stype := CFG_TYPE_DEFAULT, utype := utype);
      var nameCopy := heap.Dup(name, nameDupOk);
      if nameCopy.None? {
        ReleaseValue(heap, stamped);
        assert OwnedString(stamped) == OwnedString(item);
        return -1;
      }
      var named := stamped.(name := nameCopy.value);
      assert OwnedString(named) == OwnedString(item);
      rc := Insert(heap, named, name, putOk);
      if rc != 0 {
        ReleaseAfterCopy(live0, OwnedString(item), name);
      }
    }

    /**
     * The table insert of cfgAddItem: store `named` under `key`, or, when the
     * insert fails, release the item's value string and then its name.
     */
    method Insert(heap: Allocator, named: ConfigItem, key: string, putOk: bool) returns (rc: int32)
      modifies this`items, heap`live
      ensures putOk ==> rc == 0 && items == old(items)[key := named] && heap.live == old(heap.live)
      ensures !putOk ==> rc == -1 && items == old(items)
      ensures !putOk ==> heap.live == old(heap.live) - OwnedString(named) - multiset{named.name}
    {
      if !putOk {
        ReleaseValue(heap, named);
        heap.Free(named.name);
        return -1;
      }
      items := items[key := named];
      return 0;
    }

    /**
     * The shared body of the five string-valued adds: copy the default, then
     * add an item of kind `k` holding the copy.
     */
    method AddCopied(heap: Allocator, k: StrKind, name: string, defaultVal: string, utype: int32,
                     valDupOk: bool, nameDupOk: bool, putOk: bool) returns (rc: int32)
      requires Valid()
      modifies this, heap`live
      ensures Valid()
      ensures AddResult(rc, items, heap.live)
           == StringItemAdded(old(items), old(heap.live), k, name, defaultVal, utype, valDupOk, nameDupOk, putOk)
    {
      var copy := heap.Dup(defaultVal, valDupOk);
      if copy.None? {
        return -1;
      }
      AddKeepsWellFormed(items, heap.live, Initialised(StrValue(k, copy.value)), name, utype, nameDupOk, putOk);
      rc := AddItem(heap, Initialised(StrValue(k, copy.value)), name, utype, nameDupOk, putOk);
    }

    method AddBool(heap: Allocator, name: string, defaultVal: bool, utype: int32, nameDupOk: bool, putOk: bool)
      returns (rc: int32)
      requires Valid()
      modifies this, heap`live
      ensures Valid()
      ensures AddResult(rc, items, heap.live) == ItemAdded(old(items), old(heap.live), Initialised(BoolVal(defaultVal)), name, utype, nameDupOk, putOk)
      ensures rc == 0 ==> GetItem(name) == Some(ConfigItem(CFG_TYPE_DEFAULT, utype, name, CFG_DTYPE_BOOL, BoolVal(defaultVal)))
    {
      AddKeepsWellFormed(items, heap.live, Initialised(BoolVal(defaultVal)), name, utype, nameDupOk, putOk);
      rc := AddItem(heap, Initialised(BoolVal(defaultVal)), name, utype, nameDupOk, putOk);
    }

    method AddInt8(heap: Allocator, name: string, defaultVal: int8, utype: int32, nameDupOk: bool, putOk: bool)
      returns (rc: int32)
      requires Valid()
      modifies this, heap`live
      ensures Valid()
      ensures AddResult(rc, items, heap.live) == ItemAdded(old(items), old(heap.live), Initialised(Int8Val(defaultVal)), name, utype, nameDupOk, putOk)
      ensures rc == 0 ==> GetItem(name) == Some(ConfigItem(CFG_TYPE_DEFAULT, utype, name, CFG_DTYPE_INT8, Int8Val(defaultVal)))
    {
      AddKeepsWellFormed(items, heap.live, Initialised(Int8Val(defaultVal)), name, utype, nameDupOk, putOk);
      rc := AddItem(heap, Initialised(Int8Val(defaultVal)), name, utype, nameDupOk, putOk);
    }

    method AddUInt8(heap: Allocator, name: string, defaultVal: uint8, utype: int32, nameDupOk: bool, putOk: bool)
      returns (rc: int32)
      requires Valid()
      modifies this, heap`live
      ensures Valid()
      ensures AddResult(rc, items, heap.live) == ItemAdded(old(items), old(heap.live), Initialised(UInt8Val(defaultVal)), name, utype, nameDupOk, putOk)
      ensures rc == 0 ==> GetItem(name) == Some(ConfigItem(CFG_TYPE_DEFAULT, utype, name, CFG_DTYPE_UINT8, UInt8Val(defaultVal)))
    {
      AddKeepsWellFormed(items, heap.live, Initialised(UInt8Val(defaultVal)), name, utype, nameDupOk, putOk);
      rc := AddItem(heap, Initialised(UInt8Val(defaultVal)), name, utype, nameDupOk, putOk);
    }

    method AddInt16(heap: Allocator, name: string, defaultVal: int16, utype: int32, nameDupOk: bool, putOk: bool)
      returns (rc: int32)
      requires Valid()
      modifies this, heap`live
      ensures Valid()
      ensures AddResult(rc, items, heap.live) == ItemAdded(old(items), old(heap.live), Initialised(Int16Val(defaultVal)), name, utype, nameDupOk, putOk)
      ensures rc == 0 ==> GetItem(name) == Some(ConfigItem(CFG_TYPE_DEFAULT, utype, name, CFG_DTYPE_INT16, Int16Val(defaultVal)))
    {
      AddKeepsWellFormed(items, heap.live, Initialised(Int16Val(defaultVal)), name, utype, nameDupOk, putOk);
      rc := AddItem(heap, Initialised(Int16Val(defaultVal)), name, utype, nameDupOk, putOk);
    }

    method AddUInt16(heap: Allocator, name: string, defaultVal: uint16, utype: int32, nameDupOk: bool, putOk: bool)
      returns (rc: int32)
      requires Valid()
      modifies this, heap`live
      ensures Valid()
      ensures AddResult(rc, items, heap.live) == ItemAdded(old(items), old(heap.live), Initialised(UInt16Val(defaultVal)), name, utype, nameDupOk, putOk)
      ensures rc == 0 ==> GetItem(name) == Some(ConfigItem(CFG_TYPE_DEFAULT, utype, name, CFG_DTYPE_UINT16, UInt16Val(defaultVal)))
    {
      AddKeepsWellFormed(items, heap.live, Initialised(UInt16Val(defaultVal)), name, utype, nameDupOk, putOk);
      rc := AddItem(heap, Initialised(UInt16Val(defaultVal)), name, utype, nameDupOk, putOk);
    }

    method AddInt32(heap: Allocator, name: string, defaultVal: int32, utype: int32, nameDupOk: bool, putOk: bool)
      returns (rc: int32)
      requires Valid()
      modifies this, heap`live
      ensures Valid()
      ensures AddResult(rc, items, heap.live) == ItemAdded(old(items), old(heap.live), Initialised(Int32Val(defaultVal)), name, utype, nameDupOk, putOk)
      ensures rc == 0 ==> GetItem(name) == Some(ConfigItem(CFG_TYPE_DEFAULT, utype, name, CFG_DTYPE_INT32, Int32Val(defaultVal)))
    {
      AddKeepsWellFormed(items, heap.live, Initialised(Int32Val(defaultVal)), name, utype, nameDupOk, putOk);
      rc := AddItem(heap, Initialised(Int32Val(defaultVal)), name, utype, nameDupOk, putOk);
    }

    method AddUInt32(heap: Allocator, name: string, defaultVal: uint32, utype: int32, nameDupOk: bool, putOk: bool)
      returns (rc: int32)
      requires Valid()
      modifies this, heap`live
      ensures Valid()
      ensures AddResult(rc, items, heap.live) == ItemAdded(old(items), old(heap.live), Initialised(UInt32Val(defaultVal)), name, utype, nameDupOk, putOk)
      ensures rc == 0 ==> GetItem(name) == Some(ConfigItem(CFG_TYPE_DEFAULT, utype, name, CFG_DTYPE_UINT32, UInt32Val(defaultVal)))
    {
      AddKeepsWellFormed(items, heap.live, Initialised(UInt32Val(defaultVal)), name, utype, nameDupOk, putOk);
      rc := AddItem(heap, Initialised(UInt32Val(defaultVal)), name, utype, nameDupOk, putOk);
    }

    method AddInt64(heap: Allocator, name: string, defaultVal: int64, utype: int32, nameDupOk: bool, putOk: bool)
      returns (rc: int32)
      requires Valid()
      modifies this, heap`live
      ensures Valid()
      ensures AddResult(rc, items, heap.live) == ItemAdded(old(items), old(heap.live), Initialised(Int64Val(defaultVal)), name, utype, nameDupOk, putOk)
      ensures rc == 0 ==> GetItem(name) == Some(ConfigItem(CFG_TYPE_DEFAULT, utype, name, CFG_DTYPE_INT64, Int64Val(defaultVal)))
    {
      AddKeepsWellFormed(items, heap.live, Initialised(Int64Val(defaultVal)), name, utype, nameDupOk, putOk);
      rc := AddItem(heap, Initialised(Int64Val(defaultVal)), name, utype, nameDupOk, putOk);
    }

    method AddUInt64(heap: Allocator, name: string, defaultVal: uint64, utype: int32, nameDupOk: bool, putOk: bool)
      returns (rc: int32)
      requires Valid()
      modifies this, heap`live
      ensures Valid()
      ensures AddResult(rc, items, heap.live) == ItemAdded(old(items), old(heap.live), Initialised(UInt64Val(defaultVal)), name, utype, nameDupOk, putOk)
      ensures rc == 0 ==> GetItem(name) == Some(ConfigItem(CFG_TYPE_DEFAULT, utype, name, CFG_DTYPE_UINT64, UInt64Val(defaultVal)))
    {
      AddKeepsWellFormed(items, heap.live, Initialised(UInt64Val(defaultVal)), name, utype, nameDupOk, putOk);
      rc := AddItem(heap, Initialised(UInt64Val(defaultVal)), name, utype, nameDupOk, putOk);
    }

    method AddFloat(heap: Allocator, name: string, defaultVal: bv32, utype: int32, nameDupOk: bool, putOk: bool)
      returns (rc: int32)
      requires Valid()
      modifies this, heap`live
      ensures Valid()
      ensures AddResult(rc, items, heap.live) == ItemAdded(old(items), old(heap.live), Initialised(FloatVal(defaultVal)), name, utype, nameDupOk, putOk)
      ensures rc == 0 ==> GetItem(name) == Some(ConfigItem(CFG_TYPE_DEFAULT, utype, name, CFG_DTYPE_FLOAT, FloatVal(defaultVal)))
    {
      AddKeepsWellFormed(items, heap.live, Initialised(FloatVal(defaultVal)), name, utype, nameDupOk, putOk);
      rc := AddItem(heap, Initialised(FloatVal(defaultVal)), name, utype, nameDupOk, putOk);
    }

    method AddDouble(heap: Allocator, name: string, defaultVal: bv64, utype: int32, nameDupOk: bool, putOk: bool)
      returns (rc: int32)
      requires Valid()
      modifies this, heap`live
      ensures Valid()
      ensures AddResult(rc, items, heap.live) == ItemAdded(old(items), old(heap.live), Initialised(DoubleVal(defaultVal)), name, utype, nameDupOk, putOk)
      ensures rc == 0 ==> GetItem(name) == Some(ConfigItem(CFG_TYPE_DEFAULT, utype, name, CFG_DTYPE_DOUBLE, DoubleVal(defaultVal)))
    {
      AddKeepsWellFormed(items, heap.live, Initialised(DoubleVal(defaultVal)), name, utype, nameDupOk, putOk);
      rc := AddItem(heap, Initialised(DoubleVal(defaultVal)), name, utype, nameDupOk, putOk);
    }

    method AddString(heap: Allocator, name: string, defaultVal: string, utype: int32, valDupOk: bool, nameDupOk: bool, putOk: bool)
      returns (rc: int32)
      requires Valid()
      modifies this, heap`live
      ensures Valid()
      ensures AddResult(rc, items, heap.live)
           == StringItemAdded(old(items), old(heap.live), KString, name, defaultVal, utype, valDupOk, nameDupOk, putOk)
      ensures rc == 0 ==> GetItem(name) == Some(ConfigItem(CFG_TYPE_DEFAULT, utype, name, CFG_DTYPE_STRING, StringVal(defaultVal)))
      ensures rc != 0 ==> items == old(items) && heap.live == old(heap.live)
    {
      rc := AddCopied(heap, KString, name, defaultVal, utype, valDupOk, nameDupOk, putOk);
      StringAddIsAllOrNothing(old(items), old(heap.live), KString, name, defaultVal, utype, valDupOk, nameDupOk, putOk);
    }

    method AddFqdn(heap: Allocator, name: string, defaultVal: string, utype: int32, valDupOk: bool, nameDupOk: bool, putOk: bool)
      returns (rc: int32)
      requires Valid()
      modifies this, heap`live
      ensures Valid()
      ensures AddResult(rc, items, heap.live)
           == StringItemAdded(old(items), old(heap.live), KFqdn, name, defaultVal, utype, valDupOk, nameDupOk, putOk)
      ensures rc == 0 ==> GetItem(name) == Some(ConfigItem(CFG_TYPE_DEFAULT, utype, name, CFG_DTYPE_FQDN, FqdnVal(defaultVal)))
      ensures rc != 0 ==> items == old(items) && heap.live == old(heap.live)
    {
      rc := AddCopied(heap, KFqdn, name, defaultVal, utype, valDupOk, nameDupOk, putOk);
      StringAddIsAllOrNothing(old(items), old(heap.live), KFqdn, name, defaultVal, utype, valDupOk, nameDupOk, putOk);
    }

    method AddIpStr(heap: Allocator, name: string, defaultVal: string, utype: int32, valDupOk: bool, nameDupOk: bool, putOk: bool)
      returns (rc: int32)
      requires Valid()
      modifies this, heap`live
      ensures Valid()
      ensures AddResult(rc, items, heap.live)
           == StringItemAdded(old(items), old(heap.live), KIpStr, name, defaultVal, utype, valDupOk, nameDupOk, putOk)
      ensures rc == 0 ==> GetItem(name) == Some(ConfigItem(CFG_TYPE_DEFAULT, utype, name, CFG_DTYPE_IPSTR, IpStrVal(defaultVal)))
      ensures rc != 0 ==> items == old(items) && heap.live == old(heap.live)
    {
      rc := AddCopied(heap, KIpStr, name, defaultVal, utype, valDupOk, nameDupOk, putOk);
      StringAddIsAllOrNothing(old(items), old(heap.live), KIpStr, name, defaultVal, utype, valDupOk, nameDupOk, putOk);
    }

    method AddDir(heap: Allocator, name: string, defaultVal: string, utype: int32, valDupOk: bool, nameDupOk: bool, putOk: bool)
      returns (rc: int32)
      requires Valid()
      modifies this, heap`live
      ensures Valid()
      ensures AddResult(rc, items, heap.live)
           == StringItemAdded(old(items), old(heap.live), KDir, name, defaultVal, utype, valDupOk, nameDupOk, putOk)
      ensures rc == 0 ==> GetItem(name) == Some(ConfigItem(CFG_TYPE_DEFAULT, utype, name, CFG_DTYPE_DIR, DirVal(defaultVal)))
      ensures rc != 0 ==> items == old(items) && heap.live == old(heap.live)
    {
      rc := AddCopied(heap, KDir, name, defaultVal, utype, valDupOk, nameDupOk, putOk);
      StringAddIsAllOrNothing(old(items), old(heap.live), KDir, name, defaultVal, utype, valDupOk, nameDupOk, putOk);
    }

    method AddFile(heap: Allocator, name: string, defaultVal: string, utype: int32, valDupOk: bool, nameDupOk: bool, putOk: bool)
      returns (rc: int32)
      requires Valid()
      modifies this, heap`live
      ensures Valid()
      ensures AddResult(rc, items, heap.live)
           == StringItemAdded(old(items), old(heap.live), KFile, name, defaultVal, utype, valDupOk, nameDupOk, putOk)
      ensures rc == 0 ==> GetItem(name) == Some(ConfigItem(CFG_TYPE_DEFAULT, utype, name, CFG_DTYPE_FILE, FileVal(defaultVal)))
      ensures rc != 0 ==> items == old(items) && heap.live == old(heap.live)
    {
      rc := AddCopied(heap, KFile, name, defaultVal, utype, valDupOk, nameDupOk, putOk);
      StringAddIsAllOrNothing(old(items), old(heap.live), KFile, name, defaultVal, utype, valDupOk, nameDupOk, putOk);
    }
  }

  /**
   * cfgInit, with `callocOk` and `hashOk` the outcomes of allocating the
   * registry and its table. Either a fresh, empty registry comes back and is
   * the one new live registry, or nothing does and no registry stays
   * allocated (the one allocated before a failed table creation is freed
   * again).
   */
  method Init(heap: Allocator, callocOk: bool, hashOk: bool) returns (c: Config?)
    modifies heap
    ensures heap.live == old(heap.live)
    ensures c == null <==> !(callocOk && hashOk)
    ensures c == null ==> heap.registries == old(heap.registries)
    ensures c != null ==> fresh(c) && c.Valid() && c.items == map[] && c.Size() == 0
    ensures c != null ==> heap.registries == old(heap.registries) + {c}
  {
    if !callocOk {
      return null;
    }
    c := new Config();
    heap.registries := heap.registries + {c};
    if !hashOk {
      heap.registries := heap.registries - {c};
      return null;
    }
  }

  /**
   * cfgCleanup: a null registry is left alone; otherwise its table is
   * destroyed, so it holds no items, and the registry itself is freed.
   */
  method Cleanup(heap: Allocator, c: Config?)
    modifies heap, c
    ensures heap.live == old(heap.live)
    ensures c == null ==> heap.registries == old(heap.registries)
    ensures c != null ==> c.items == map[] && c.Size() == 0 && heap.registries == old(heap.registries) - {c}
  {
    if c != null {
      c.items := map[];
      heap.registries := heap.registries - {c};
    }
  }
}
