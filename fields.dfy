/**
 * An ordered list of name/value pairs updated with `set`, as both
 * `URLSearchParams` and `Headers` are: `set(name, value)` overwrites the
 * first pair with that name and drops the others, or appends a new pair
 * when there is none.
 */
module Fields {
  import opened Wrappers

  type Field = (string, string)

  /** The value of the first pair named `name`, as `get` returns it. */
  function Lookup(fields: seq<Field>, name: string): Option<string>
  {
    if fields == [] then None
    else if fields[0].0 == name then Some(fields[0].1)
    else Lookup(fields[1..], name)
  }

  /** The number of pairs named `name`. */
  function Count(fields: seq<Field>, name: string): nat
  {
    if fields == [] then 0
    else (if fields[0].0 == name then 1 else 0) + Count(fields[1..], name)
  }

  function RemoveAll(fields: seq<Field>, name: string): seq<Field>
  {
    if fields == [] then []
    else if fields[0].0 == name then RemoveAll(fields[1..], name)
    else [fields[0]] + RemoveAll(fields[1..], name)
  }

  /** The list after `set(name, value)`. */
  function Assign(fields: seq<Field>, name: string, value: string): seq<Field>
  {
    if fields == [] then [(name, value)]
    else if fields[0].0 == name then [(name, value)] + RemoveAll(fields[1..], name)
    else [fields[0]] + Assign(fields[1..], name, value)
  }

  lemma {:induction false} RemoveAllDrops(fields: seq<Field>, name: string, other: string)
    ensures Count(RemoveAll(fields, name), name) == 0
    ensures other != name ==> Lookup(RemoveAll(fields, name), other) == Lookup(fields, other)
    decreases |fields|
  {
    if fields != [] {
      RemoveAllDrops(fields[1..], name, other);
      if fields[0].0 != name {
        assert ([fields[0]] + RemoveAll(fields[1..], name))[1..] == RemoveAll(fields[1..], name);
      }
    }
  }

  /**
   * After `set(name, value)` there is exactly one pair named `name`, `get`
   * returns `value` for it, and every other name reads as before.
   */
  lemma {:induction false} AssignLookup(fields: seq<Field>, name: string, value: string, other: string)
    ensures Lookup(Assign(fields, name, value), name) == Some(value)
    ensures Count(Assign(fields, name, value), name) == 1
    ensures other != name ==> Lookup(Assign(fields, name, value), other) == Lookup(fields, other)
    decreases |fields|
  {
    if fields != [] {
      RemoveAllDrops(fields[1..], name, other);
      AssignLookup(fields[1..], name, value, other);
      var r := Assign(fields, name, value);
      if fields[0].0 == name {
        assert r[1..] == RemoveAll(fields[1..], name);
      } else {
        assert r[1..] == Assign(fields[1..], name, value);
      }
    }
  }

  /** Setting a name the list does not hold appends one pair at the end. */
  lemma {:induction false} AssignAppends(fields: seq<Field>, name: string, value: string)
    requires Lookup(fields, name) == None
    ensures Assign(fields, name, value) == fields + [(name, value)]
    decreases |fields|
  {
    if fields != [] {
      AssignAppends(fields[1..], name, value);
      assert fields == [fields[0]] + fields[1..];
    }
  }

  /** A mutable `URLSearchParams` or `Headers` object. */
  class FieldList {
    var entries: seq<Field>

    /** `new URLSearchParams()` / `new Headers()`: empty. */
    constructor ()
      ensures entries == []
    {
      entries := [];
    }

    /** `set(name, value)`. */
    method Set(name: string, value: string)
      modifies this
      ensures entries == Assign(old(entries), name, value)
    {
      entries := Assign(entries, name, value);
    }
  }
}
