/** lib/types.py: `Struct`, a dictionary whose keys can also be read and
    written as attributes.  Building a `Struct` turns every dictionary
    stored in it into a `Struct`, recursively, and so does assigning a
    dictionary to an attribute. */
module Types {
  import opened Python
  import opened Dicts

  // ---------------------------------------------------------------------
  // Construction

  /** The value `Struct.__init__` leaves under a key that held `v`: a
      dictionary becomes `Struct(v)`; a list has its dictionary items
      turned into `Struct`s (items that are not dictionaries, nested lists
      included, stay as they are); anything else is kept. */
  function Wrap(v: Value): Value
    decreases v, 1
  {
    match v
    case DictV(entries) => StructV(WrapEntries(v, entries))
    case StructV(entries) => StructV(WrapEntries(v, entries))
    case ListV(items) => ListV(WrapItems(v, items))
    case _ => v
  }

  function WrapEntries(ghost parent: Value, entries: seq<(string, Value)>): (r: seq<(string, Value)>)
    requires forall i :: 0 <= i < |entries| ==> entries[i].1 < parent
    ensures |r| == |entries|
    decreases parent, 0
  {
    seq(|entries|, i requires 0 <= i < |entries| => (entries[i].0, Wrap(entries[i].1)))
  }

  function WrapItems(ghost parent: Value, items: seq<Value>): (r: seq<Value>)
    requires forall i :: 0 <= i < |items| ==> items[i] < parent
    ensures |r| == |items|
    decreases parent, 0
  {
    seq(|items|, i requires 0 <= i < |items| => if items[i].IsDict() then Wrap(items[i]) else items[i])
  }

  /** The entries of `Struct(d)`, in the order of `d`. */
  function Construct(d: Dict<string, Value>): (s: Dict<string, Value>)
    ensures Keys(s) == Keys(d)
    ensures forall i :: 0 <= i < |d| ==> s[i].1 == Wrap(d[i].1)
  {
    WrapEntries(DictV(d), d)
  }

  /** The shape a `Struct` has after construction: no plain dictionary is
      left, neither as an entry nor as an item of a list entry; nested
      `Struct`s have the same shape.  Lists inside lists are not visited
      by `Struct.__init__`, so their items are unconstrained. */
  predicate WellWrapped(v: Value)
    decreases v
  {
    match v
    case DictV(_) => false
    case StructV(entries) => forall i :: 0 <= i < |entries| ==> WellWrapped(entries[i].1)
    case ListV(items) =>
      forall i :: 0 <= i < |items| ==> !items[i].DictV? && (items[i].StructV? ==> WellWrapped(items[i]))
    case _ => true
  }

  lemma {:induction false} WrapIsWellWrapped(v: Value)
    ensures WellWrapped(Wrap(v))
    decreases v
  {
    match v
    case DictV(entries) =>
      forall i | 0 <= i < |entries| ensures WellWrapped(Wrap(entries[i].1)) {
        WrapIsWellWrapped(entries[i].1);
      }
    case StructV(entries) =>
      forall i | 0 <= i < |entries| ensures WellWrapped(Wrap(entries[i].1)) {
        WrapIsWellWrapped(entries[i].1);
      }
    case ListV(items) =>
      forall i | 0 <= i < |items| && items[i].IsDict() ensures WellWrapped(Wrap(items[i])) {
        WrapIsWellWrapped(items[i]);
      }
    case _ =>
  }

  /** Wrapping a value that already has the `Struct` shape changes
      nothing, so wrapping twice is wrapping once. */
  lemma {:induction false} WrapFixesWellWrapped(v: Value)
    requires WellWrapped(v)
    ensures Wrap(v) == v
    decreases v
  {
    match v
    case StructV(entries) =>
      forall i | 0 <= i < |entries| ensures Wrap(entries[i].1) == entries[i].1 {
        WrapFixesWellWrapped(entries[i].1);
      }
      assert WrapEntries(v, entries) == entries;
    case ListV(items) =>
      forall i | 0 <= i < |items| && items[i].IsDict() ensures Wrap(items[i]) == items[i] {
        WrapFixesWellWrapped(items[i]);
      }
      assert WrapItems(v, items) == items;
    case _ =>
  }

  lemma WrapIdempotent(v: Value)
    ensures Wrap(Wrap(v)) == Wrap(v)
  {
    WrapIsWellWrapped(v);
    WrapFixesWellWrapped(Wrap(v));
  }

  /** `Struct(d)` keeps the keys of `d` and has the `Struct` shape. */
  lemma ConstructShape(d: Dict<string, Value>)
    ensures Keys(Construct(d)) == Keys(d)
    ensures WellWrapped(StructV(Construct(d)))
  {
    WrapIsWellWrapped(DictV(d));
  }

  // ---------------------------------------------------------------------
  // Attribute access

  /** The methods every `dict` has.  Normal attribute lookup finds these
      before `Struct.__getattr__` is consulted, so a key with one of these
      names cannot be read as an attribute. */
  const DictMethods: set<string> :=
    {"clear", "copy", "fromkeys", "get", "items", "keys", "pop", "popitem", "setdefault", "update", "values"}

  datatype Attribute = Item(value: Value) | DictMethod(name: string)

  /** `s.key` on a `Struct` with entries `entries`. */
  function LookupAttr(entries: Dict<string, Value>, key: string): (r: Result<Attribute>)
    ensures r.Err? <==> key !in DictMethods && key !in Keys(entries)
    ensures r.Err? ==> r.error == AttributeError(key)
  {
    if key in DictMethods then Ok(DictMethod(key))
    else match Get(entries, key)
      case Some(v) => Ok(Item(v))
      case None => Err(AttributeError(key))
  }

  /** The value `Struct.__setattr__` stores: a dictionary is made a
      `Struct`; lists and everything else are stored as given. */
  function Assigned(value: Value): Value
  {
    if value.IsDict() then Wrap(value) else value
  }

  /** The entries after `s.key = value`. */
  function SetAttrEntries(entries: Dict<string, Value>, key: string, value: Value): (r: Dict<string, Value>)
    ensures Keys(r) == if key in Keys(entries) then Keys(entries) else Keys(entries) + [key]
  {
    Put(entries, key, Assigned(value))
  }

  /** Reading back an attribute just written gives the stored value, and
      every other attribute reads as before. */
  lemma GetAfterSet(entries: Dict<string, Value>, key: string, value: Value, other: string)
    requires key !in DictMethods
    ensures LookupAttr(SetAttrEntries(entries, key, value), key) == Ok(Item(Assigned(value)))
    ensures other != key ==>
      LookupAttr(SetAttrEntries(entries, key, value), other) == LookupAttr(entries, other)
  {
    GetPut(entries, key, Assigned(value), key);
    GetPut(entries, key, Assigned(value), other);
  }

  /** Assigning keeps the `Struct` shape, unless the value is a list:
      `__setattr__` does not look inside lists. */
  lemma {:induction false} SetAttrKeepsShape(entries: Dict<string, Value>, key: string, value: Value)
    requires WellWrapped(StructV(entries))
    requires !value.ListV? || WellWrapped(value)
    ensures WellWrapped(StructV(SetAttrEntries(entries, key, value)))
  {
    var r := SetAttrEntries(entries, key, value);
    WrapIsWellWrapped(value);
    assert WellWrapped(Assigned(value));
    forall i | 0 <= i < |r| ensures WellWrapped(r[i].1) {
      PutValueAt(entries, key, Assigned(value), i);
    }
  }

  /** A list assigned as an attribute is stored as given, so a plain
      dictionary inside it stays plain and the `Struct` is no longer
      wrapped all the way down. */
  lemma SetAttrListKeepsDicts(entries: Dict<string, Value>, key: string, items: seq<Value>, i: nat)
    requires i < |items| && items[i].DictV?
    ensures Get(SetAttrEntries(entries, key, ListV(items)), key) == Some(ListV(items))
    ensures !WellWrapped(StructV(SetAttrEntries(entries, key, ListV(items))))
  {
    var r := SetAttrEntries(entries, key, ListV(items));
    GetPut(entries, key, ListV(items), key);
    assert !WellWrapped(ListV(items)) by {
      assert items[i].DictV?;
    }
    var k :| 0 <= k < |r| && r[k] == (key, ListV(items));
    UnwrappedEntry(r, k);
  }

  /** A `Struct` with an entry that is not wrapped is not wrapped. */
  lemma UnwrappedEntry(entries: Dict<string, Value>, k: nat)
    requires k < |entries| && !WellWrapped(entries[k].1)
    ensures !WellWrapped(StructV(entries))
  {
  }

  // ---------------------------------------------------------------------
  // Attribute access on an arbitrary value, as the managers use it

  /** `v.name` for a configuration field name: only a `Struct` has such
      attributes, and they are its entries.  The field names the managers
      read name no `dict` method (see `AttrIsGetAttr`). */
  function Attr(v: Value, name: string): (r: Result<Value>)
    ensures r.Ok? <==> v.StructV? && name in Keys(v.entries)
    ensures r.Ok? ==> Get(v.entries, name) == Some(r.value)
    ensures r.Err? ==> r.error == AttributeError(name)
  {
    if v.StructV? then
      match Get(v.entries, name)
      case Some(x) => Ok(x)
      case None => Err(AttributeError(name))
    else Err(AttributeError(name))
  }

  /** For a name that is not a `dict` method, `Attr` on a `Struct` is
      `Struct.__getattr__`. */
  lemma AttrIsGetAttr(entries: Dict<string, Value>, name: string)
    requires name !in DictMethods
    ensures Attr(StructV(entries), name).Ok? <==> LookupAttr(entries, name).Ok?
    ensures Attr(StructV(entries), name).Ok? ==> LookupAttr(entries, name) == Ok(Item(Attr(StructV(entries), name).value))
    ensures Attr(StructV(entries), name).Err? ==> LookupAttr(entries, name) == Err(Attr(StructV(entries), name).error)
  {
  }

  /** `getattr(v, name, default)`. */
  function AttrOr(v: Value, name: string, default: Value): (r: Value)
    ensures r == if v.StructV? && name in Keys(v.entries) then Get(v.entries, name).value else default
  {
    match Attr(v, name)
    case Ok(x) => x
    case Err(_) => default
  }

  /** `v.name = value`: only a `Struct` accepts new attributes. */
  function SetAttr(v: Value, name: string, value: Value): (r: Result<Value>)
    ensures r.Ok? <==> v.StructV?
    ensures r.Ok? ==> r.value == StructV(SetAttrEntries(v.entries, name, value))
  {
    if v.StructV? then Ok(StructV(SetAttrEntries(v.entries, name, value)))
    else Err(AttributeError(name))
  }

  /** `d[key]` on a dictionary value. */
  function Subscript(v: Value, key: string): (r: Result<Value>)
    ensures r.Ok? <==> v.IsDict() && key in Keys(v.entries)
    ensures r.Ok? ==> Get(v.entries, key) == Some(r.value)
  {
    if !v.IsDict() then Err(TypeError("object is not subscriptable"))
    else match Get(v.entries, key)
      case Some(x) => Ok(x)
      case None => Err(KeyError(Str(key)))
  }

  /** `d.get(key)` on a dictionary value (None when absent). */
  function DictGet(v: Value, key: string): Value
    requires v.IsDict()
  {
    match Get(v.entries, key)
    case Some(x) => x
    case None => NoneValue
  }

  // ---------------------------------------------------------------------
  // The class

  class Struct {
    var items: Dict<string, Value>

    /** `Struct(init)`: copies `init`, then rewrites each entry in place. */
    constructor (init: Dict<string, Value>)
      ensures items == Construct(init)
    {
      items := init;
      new;
      var i := 0;
      while i < |items|
        invariant 0 <= i <= |items| == |init|
        invariant forall j :: 0 <= j < i ==> items[j] == (init[j].0, Wrap(init[j].1))
        invariant forall j :: i <= j < |items| ==> items[j] == init[j]
      {
        var (key, value) := items[i];
        if value.IsDict() {
          items := items[i := (key, Wrap(value))];
        }
        if value.ListV? {
          items := items[i := (key, ListV(WrapItems(value, value.items)))];
        }
        i := i + 1;
      }
    }

    /** `s.key` (`__getattr__`, reached only when normal lookup fails). */
    function GetAttr(key: string): (r: Result<Attribute>)
      reads this
      ensures key !in DictMethods && key in Keys(items) ==> r == Ok(Item(Get(items, key).value))
      ensures key !in DictMethods && key !in Keys(items) ==> r == Err(AttributeError(key))
    {
      LookupAttr(items, key)
    }

    /** `s.key = value` (`__setattr__`). */
    method SetAttr(key: string, value: Value)
      modifies this
      ensures items == SetAttrEntries(old(items), key, value)
    {
      var v := value;
      if v.IsDict() {
        v := Wrap(v);
      }
      items := Put(items, key, v);
    }
  }
}
