/**
 * The query-parameter list of a URL, with the `get`, `getAll`, `set` and
 * `delete` operations of the URLSearchParams class (section 6.2 of the
 * WHATWG URL Standard): an ordered list of name/value pairs in which a
 * name may repeat.
 */
module SearchParams {
  import opened Common

  type Params = seq<(string, string)>

  /** getAll(name): the values of every pair named `name`, in list order. */
  function ValuesOf(p: Params, name: string): (r: seq<string>)
    ensures |r| <= |p|
  {
    if p == [] then []
    else (if p[0].0 == name then [p[0].1] else []) + ValuesOf(p[1..], name)
  }

  /** get(name): the value of the first pair named `name`, if any. */
  function Get(p: Params, name: string): (r: Option<string>)
    ensures r.None? <==> ValuesOf(p, name) == []
    ensures r.Some? ==> r.value == ValuesOf(p, name)[0]
  {
    if p == [] then None
    else if p[0].0 == name then Some(p[0].1)
    else Get(p[1..], name)
  }

  /** delete(name): removes every pair named `name`, keeping the others in order. */
  function Delete(p: Params, name: string): (r: Params)
    ensures ValuesOf(r, name) == []
    ensures forall other :: other != name ==> ValuesOf(r, other) == ValuesOf(p, other)
    ensures ValuesOf(p, name) == [] ==> r == p
  {
    if p == [] then []
    else if p[0].0 == name then Delete(p[1..], name)
    else [p[0]] + Delete(p[1..], name)
  }

  /** The first pair named `name` takes `value`; the later ones are removed. */
  function ReplaceFirst(p: Params, name: string, value: string): (r: Params)
    requires ValuesOf(p, name) != []
    ensures ValuesOf(r, name) == [value]
    ensures forall other :: other != name ==> ValuesOf(r, other) == ValuesOf(p, other)
    ensures Delete(r, name) == Delete(p, name)
    ensures ValuesOf(p, name) == [value] ==> r == p
  {
    if p[0].0 == name then
      assert ValuesOf(p, name) == [p[0].1] + ValuesOf(p[1..], name);
      assert p == [p[0]] + p[1..];
      assert ValuesOf(p, name)[0] == p[0].1;
      assert ValuesOf(p, name) == [value] ==> |ValuesOf(p[1..], name)| == 0 && p[0] == (name, value);
      [(name, value)] + Delete(p[1..], name)
    else [p[0]] + ReplaceFirst(p[1..], name, value)
  }

  /**
   * set(name, value): if a pair named `name` exists, the first one takes
   * `value` and the rest are removed; otherwise the pair is appended.
   */
  function Set(p: Params, name: string, value: string): (r: Params)
    ensures ValuesOf(r, name) == [value]
    ensures forall other :: other != name ==> ValuesOf(r, other) == ValuesOf(p, other)
    ensures Delete(r, name) == Delete(p, name)
    ensures ValuesOf(p, name) == [value] ==> r == p
  {
    if ValuesOf(p, name) == [] then
      AppendedValues(p, (name, value));
      AppendedDelete(p, (name, value), name);
      p + [(name, value)]
    else ReplaceFirst(p, name, value)
  }

  lemma {:induction false} AppendedValues(p: Params, pair: (string, string))
    ensures forall other :: (ValuesOf(p + [pair], other) ==
      ValuesOf(p, other) + (if pair.0 == other then [pair.1] else []))
  {
    if p == [] {
      assert p + [pair] == [pair];
    } else {
      assert (p + [pair])[0] == p[0];
      assert (p + [pair])[1..] == p[1..] + [pair];
      AppendedValues(p[1..], pair);
    }
  }

  lemma {:induction false} AppendedDelete(p: Params, pair: (string, string), name: string)
    requires pair.0 == name
    ensures Delete(p + [pair], name) == Delete(p, name)
  {
    if p == [] {
      assert p + [pair] == [pair];
    } else {
      assert (p + [pair])[0] == p[0];
      assert (p + [pair])[1..] == p[1..] + [pair];
      AppendedDelete(p[1..], pair, name);
    }
  }

  /** Deleting two names gives the same list in either order. */
  lemma {:induction false} DeleteCommutes(p: Params, a: string, b: string)
    ensures Delete(Delete(p, a), b) == Delete(Delete(p, b), a)
  {
    if p != [] {
      DeleteCommutes(p[1..], a, b);
    }
  }

  // ---------------------------------------------------------------------
  // createQueryString (src/components/PropertSearchComponent.tsx:71-86 and
  // src/components/PropertiesList.tsx:89-104)
  // ---------------------------------------------------------------------

  /** One entry of an update record: an empty value deletes the key, anything else sets it. */
  function Step(p: Params, update: (string, string)): Params
  {
    if update.1 == "" then Delete(p, update.0) else Set(p, update.0, update.1)
  }

  /** The entries of an update record applied in order. */
  function ApplyUpdates(p: Params, updates: seq<(string, string)>): Params
    decreases |updates|
  {
    if updates == [] then p else ApplyUpdates(Step(p, updates[0]), updates[1..])
  }

  /** The keys of a JavaScript record are distinct. */
  predicate DistinctKeys(updates: seq<(string, string)>)
  {
    forall i, j :: 0 <= i < j < |updates| ==> updates[i].0 != updates[j].0
  }

  predicate Updated(updates: seq<(string, string)>, name: string)
  {
    exists i :: 0 <= i < |updates| && updates[i].0 == name
  }

  /** What the updated list holds under one name. */
  predicate Reflects(r: Params, p: Params, updates: seq<(string, string)>, name: string)
  {
    && (forall i :: 0 <= i < |updates| && updates[i].0 == name && updates[i].1 == "" ==> ValuesOf(r, name) == [])
    && (forall i :: 0 <= i < |updates| && updates[i].0 == name && updates[i].1 != "" ==> ValuesOf(r, name) == [updates[i].1])
    && (!Updated(updates, name) ==> ValuesOf(r, name) == ValuesOf(p, name))
  }

  /**
   * createQueryString: copies the current parameters and, for each entry of
   * the update record, deletes the key when the value is empty and sets it
   * otherwise.
   */
  method CreateQueryString(current: Params, updates: seq<(string, string)>) returns (params: Params)
    requires DistinctKeys(updates)
    ensures params == ApplyUpdates(current, updates)
    ensures forall name :: Reflects(params, current, updates, name)
  {
    params := current;
    var i := 0;
    while i < |updates|
      invariant 0 <= i <= |updates|
      invariant ApplyUpdates(params, updates[i..]) == ApplyUpdates(current, updates)
    {
      assert updates[i..][0] == updates[i] && updates[i..][1..] == updates[i + 1..];
      var (key, value) := updates[i];
      if value == "" {
        params := Delete(params, key);
      } else {
        params := Set(params, key, value);
      }
      i := i + 1;
    }
    assert updates[i..] == [];
    forall name ensures Reflects(params, current, updates, name) {
      UpdatesMeaning(current, updates, name);
    }
  }

  /** After the updates, each updated key holds its new value (or nothing), and every other key is as before. */
  lemma {:induction false} UpdatesMeaning(p: Params, updates: seq<(string, string)>, name: string)
    requires DistinctKeys(updates)
    ensures Reflects(ApplyUpdates(p, updates), p, updates, name)
    decreases |updates|
  {
    if updates != [] {
      var rest := updates[1..];
      var q := Step(p, updates[0]);
      assert DistinctKeys(rest);
      UpdatesMeaning(q, rest, name);
      var r := ApplyUpdates(p, updates);
      assert r == ApplyUpdates(q, rest);
      if updates[0].0 == name {
        assert !Updated(rest, name) by {
          forall i | 0 <= i < |rest| ensures rest[i].0 != name {
            assert rest[i] == updates[i + 1];
          }
        }
      } else {
        forall i | 0 <= i < |updates| && updates[i].0 == name && updates[i].1 == ""
          ensures ValuesOf(r, name) == []
        {
          assert rest[i - 1] == updates[i];
        }
        forall i | 0 <= i < |updates| && updates[i].0 == name && updates[i].1 != ""
          ensures ValuesOf(r, name) == [updates[i].1]
        {
          assert rest[i - 1] == updates[i];
        }
        if !Updated(updates, name) {
          assert !Updated(rest, name) by {
            forall i | 0 <= i < |rest| ensures rest[i].0 != name {
              assert rest[i] == updates[i + 1];
            }
          }
        }
      }
    }
  }

  /** `get` on the updated list returns an entry's value, or nothing when the entry deleted its key. */
  lemma UpdatedGet(p: Params, updates: seq<(string, string)>, i: int)
    requires DistinctKeys(updates) && 0 <= i < |updates|
    ensures Get(ApplyUpdates(p, updates), updates[i].0) == if updates[i].1 == "" then None else Some(updates[i].1)
  {
    UpdatesMeaning(p, updates, updates[i].0);
  }

  /** The values a listed name holds afterwards: none for an empty entry, the entry's value otherwise. */
  lemma UpdatedValues(p: Params, updates: seq<(string, string)>, i: int)
    requires DistinctKeys(updates) && 0 <= i < |updates|
    ensures ValuesOf(ApplyUpdates(p, updates), updates[i].0) == if updates[i].1 == "" then [] else [updates[i].1]
  {
    UpdatesMeaning(p, updates, updates[i].0);
  }

  /** A list that already reflects every entry is left exactly as it is. */
  lemma {:induction false} UpdatesFixpoint(r: Params, updates: seq<(string, string)>)
    requires forall i :: 0 <= i < |updates| ==>
      ValuesOf(r, updates[i].0) == (if updates[i].1 == "" then [] else [updates[i].1])
    ensures ApplyUpdates(r, updates) == r
    decreases |updates|
  {
    if updates != [] {
      assert Step(r, updates[0]) == r;
      forall i | 0 <= i < |updates[1..]|
        ensures ValuesOf(r, updates[1..][i].0) == (if updates[1..][i].1 == "" then [] else [updates[1..][i].1])
      {
        assert updates[1..][i] == updates[i + 1];
      }
      UpdatesFixpoint(r, updates[1..]);
    }
  }

  /** Applying the same update record twice gives the same list as applying it once. */
  lemma UpdatesIdempotent(p: Params, updates: seq<(string, string)>)
    requires DistinctKeys(updates)
    ensures ApplyUpdates(ApplyUpdates(p, updates), updates) == ApplyUpdates(p, updates)
  {
    var r := ApplyUpdates(p, updates);
    forall i | 0 <= i < |updates|
      ensures ValuesOf(r, updates[i].0) == (if updates[i].1 == "" then [] else [updates[i].1])
    {
      UpdatesMeaning(p, updates, updates[i].0);
    }
    UpdatesFixpoint(r, updates);
  }
}
