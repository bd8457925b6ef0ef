/** AssignedKeyVal (util/keyval/keyvalass.cc): a KeyVal whose entries are
    assigned by the program rather than read from input.  The map's values
    are references that may be null; a lookup of an unknown keyword yields
    a null reference and sets the UnknownKeyword error. */
module KeyValAssigned {
  import opened Wrappers

  /** The value kinds the typed assign overloads wrap.  A boolean is held
      as the int the caller passed; a described object by its identity. */
  datatype Value =
    | Double(d: real)
    | Boolean(b: int)
    | Float(f: real)
    | Char(c: char)
    | Int(i: int)
    | PChar(s: string)
    | Described(id: nat)

  /** The KeyVal error codes this class sets. */
  datatype KVError = OK | UnknownKeyword

  /** A reference to a value; None is the null reference. */
  type Ref = Option<Value>

  /** What key_value hands back for `key`: the stored reference when the
      keyword is present, the null reference otherwise. */
  function Lookup(entries: map<string, Ref>, key: string): (r: Ref)
    ensures key !in entries ==> r == None
    ensures key in entries ==> r == entries[key]
  {
    if key in entries then entries[key] else None
  }

  /** An assignment is seen by the next lookup of its keyword and by no
      other keyword's lookup. */
  lemma {:induction false} LookupAfterAssign(entries: map<string, Ref>, key: string, v: Ref, other: string)
    ensures Lookup(entries[key := v], key) == v
    ensures other != key ==> Lookup(entries[key := v], other) == Lookup(entries, other)
  {
  }

  class AssignedKeyVal {
    /** The keyword map; the keyword is the key string itself. */
    var entries: map<string, Ref>
    /** The error code of the last operation that set one. */
    var error: KVError

    constructor ()
      ensures entries == map[] && error == OK
    {
      entries := map[];
      error := OK;
    }

    /** key_exists: whether the keyword is in the map; sets OK when it is
        and UnknownKeyword when it is not. */
    method KeyExists(key: string) returns (result: bool)
      modifies this
      ensures result <==> key in entries
      ensures entries == old(entries)
      ensures error == (if result then OK else UnknownKeyword)
    {
      result := key in entries;
      if !result {
        error := UnknownKeyword;
      } else {
        error := OK;
      }
    }

    /** key_value: the stored reference with OK, or the null reference
        with UnknownKeyword when the keyword is absent.  The default
        argument is not used. */
    method KeyValue(key: string, def: Value) returns (v: Ref)
      modifies this
      ensures entries == old(entries)
      ensures v == Lookup(entries, key)
      ensures error == (if key in entries then OK else UnknownKeyword)
    {
      var present := KeyExists(key);
      if present {
        error := OK;
        v := entries[key];
      } else {
        error := UnknownKeyword;
        v := None;
      }
    }

    /** assign(key, RefKeyValValue): binds the keyword to the reference,
        replacing any earlier binding; the error code is not touched. */
    method Assign(key: string, val: Ref)
      modifies this
      ensures entries == old(entries)[key := val]
      ensures error == old(error)
    {
      entries := entries[key := val];
    }

    method AssignDouble(key: string, val: real)
      modifies this
      ensures entries == old(entries)[key := Some(Double(val))]
      ensures error == old(error)
    {
      Assign(key, Some(Double(val)));
    }

    method AssignBoolean(key: string, val: int)
      modifies this
      ensures entries == old(entries)[key := Some(Boolean(val))]
      ensures error == old(error)
    {
      Assign(key, Some(Boolean(val)));
    }

    method AssignFloat(key: string, val: real)
      modifies this
      ensures entries == old(entries)[key := Some(Float(val))]
      ensures error == old(error)
    {
      Assign(key, Some(Float(val)));
    }

    method AssignChar(key: string, val: char)
      modifies this
      ensures entries == old(entries)[key := Some(Char(val))]
      ensures error == old(error)
    {
      Assign(key, Some(Char(val)));
    }

    method AssignInt(key: string, val: int)
      modifies this
      ensures entries == old(entries)[key := Some(Int(val))]
      ensures error == old(error)
    {
      Assign(key, Some(Int(val)));
    }

    method AssignPChar(key: string, val: string)
      modifies this
      ensures entries == old(entries)[key := Some(PChar(val))]
      ensures error == old(error)
    {
      Assign(key, Some(PChar(val)));
    }

    method AssignDescribed(key: string, id: nat)
      modifies this
      ensures entries == old(entries)[key := Some(Described(id))]
      ensures error == old(error)
    {
      Assign(key, Some(Described(id)));
    }

    /** clear: forgets every keyword. */
    method Clear()
      modifies this
      ensures entries == map[]
      ensures error == old(error)
    {
      entries := map[];
    }
  }

  /** A fresh AssignedKeyVal given one entry reports that keyword as
      present with its value and every other keyword as unknown. */
  method AssignThenQuery(key: string, other: string, d: real) returns (found: Ref, missing: Ref, err: KVError)
    requires other != key
    ensures found == Some(Double(d))
    ensures missing == None && err == UnknownKeyword
  {
    var kv := new AssignedKeyVal();
    kv.AssignDouble(key, d);
    found := kv.KeyValue(key, Int(0));
    missing := kv.KeyValue(other, Int(0));
    err := kv.error;
  }
}
