/** The name → engine dictionary shared by AIEngineManager and
    AudioEngineManager: a Dictionary with StringComparer.OrdinalIgnoreCase,
    kept as entries in insertion order (the order Keys lists them in). */
module EngineRegistry {
  import opened Wrappers
  import opened Strings

  datatype Entry<E> = Entry(key: string, engine: E)

  /** No two keys are equal ignoring case. */
  predicate DistinctKeys<E>(entries: seq<Entry<E>>)
  {
    forall i, j :: 0 <= i < j < |entries| ==> !EqualsIgnoreCase(entries[i].key, entries[j].key)
  }

  lemma EqualsIgnoreCaseTransitive(a: string, b: string, c: string)
    requires EqualsIgnoreCase(a, b)
    ensures EqualsIgnoreCase(b, c) <==> EqualsIgnoreCase(a, c)
  {
  }

  /** The first entry whose key equals `name` ignoring case. */
  function FindKey<E>(entries: seq<Entry<E>>, name: string): (r: Option<nat>)
    ensures r.Some? ==> r.value < |entries| && EqualsIgnoreCase(entries[r.value].key, name)
    ensures r.Some? ==> forall j :: 0 <= j < r.value ==> !EqualsIgnoreCase(entries[j].key, name)
    ensures r.None? ==> forall j :: 0 <= j < |entries| ==> !EqualsIgnoreCase(entries[j].key, name)
  {
    if entries == [] then None
    else if EqualsIgnoreCase(entries[0].key, name) then Some(0)
    else
      var r := FindKey(entries[1..], name);
      if r.Some? then Some(r.value + 1) else None
  }

  /** FindKey looks at the keys only, and finds the one equal key when keys are distinct. */
  lemma FindKeyUnique<E>(entries: seq<Entry<E>>, name: string, k: nat)
    requires DistinctKeys(entries) && k < |entries| && EqualsIgnoreCase(entries[k].key, name)
    ensures FindKey(entries, name) == Some(k)
  {
    var r := FindKey(entries, name);
    if r.Some? && r.value != k {
      EqualsIgnoreCaseTransitive(entries[r.value].key, name, entries[k].key);
      assert false;
    }
  }

  function Keys<E>(entries: seq<Entry<E>>): (keys: seq<string>)
    ensures |keys| == |entries| && forall i :: 0 <= i < |entries| ==> keys[i] == entries[i].key
  {
    if entries == [] then [] else [entries[0].key] + Keys(entries[1..])
  }

  /** Dictionary.TryGetValue. */
  function TryGetValue<E>(entries: seq<Entry<E>>, name: string): (r: Option<E>)
    ensures r.Some? <==> exists i :: 0 <= i < |entries| && EqualsIgnoreCase(entries[i].key, name)
  {
    match FindKey(entries, name)
    case None => None
    case Some(i) => Some(entries[i].engine)
  }

  /** The indexer `dict[name] = engine`: an existing key equal ignoring case
      keeps its spelling and place and takes the new engine; otherwise the
      pair is added at the end. */
  function Set<E>(entries: seq<Entry<E>>, name: string, engine: E): (r: seq<Entry<E>>)
    ensures DistinctKeys(entries) ==> DistinctKeys(r)
    ensures Keys(r) == if FindKey(entries, name).Some? then Keys(entries) else Keys(entries) + [name]
  {
    match FindKey(entries, name)
    case Some(i) =>
      var r := entries[i := Entry(entries[i].key, engine)];
      SameKeys(entries, r);
      r
    case None =>
      var r := entries + [Entry(name, engine)];
      assert DistinctKeys(entries) ==> DistinctKeys(r) by {
        assert forall i :: 0 <= i < |entries| ==> r[i] == entries[i];
      }
      assert Keys(r) == Keys(entries) + [name];
      r
  }

  /** Entry lists with the same keys in the same places. */
  lemma SameKeys<E>(a: seq<Entry<E>>, b: seq<Entry<E>>)
    requires |a| == |b| && forall j :: 0 <= j < |a| ==> a[j].key == b[j].key
    ensures Keys(a) == Keys(b) && (DistinctKeys(a) ==> DistinctKeys(b))
  {
  }

  /** After `dict[name] = engine`, a lookup equal to `name` ignoring case
      finds `engine`; every other lookup is unchanged. */
  lemma SetThenGet<E>(entries: seq<Entry<E>>, name: string, engine: E, query: string)
    requires DistinctKeys(entries)
    ensures TryGetValue(Set(entries, name, engine), query)
      == if EqualsIgnoreCase(name, query) then Some(engine) else TryGetValue(entries, query)
  {
    var r := Set(entries, name, engine);
    match FindKey(entries, name)
    case Some(i) =>
      EqualsIgnoreCaseTransitive(entries[i].key, name, query);
      if EqualsIgnoreCase(name, query) {
        FindKeyUnique(r, query, i);
      } else if FindKey(entries, query).Some? {
        FindKeyUnique(r, query, FindKey(entries, query).value);
      } else {
        assert forall j :: 0 <= j < |r| ==> r[j].key == entries[j].key;
      }
    case None =>
      if EqualsIgnoreCase(name, query) {
        forall j | 0 <= j < |entries| ensures !EqualsIgnoreCase(r[j].key, query) {
          EqualsIgnoreCaseTransitive(name, query, entries[j].key);
        }
        FindKeyUnique(r, query, |entries|);
      } else if FindKey(entries, query).Some? {
        FindKeyUnique(r, query, FindKey(entries, query).value);
      } else {
        assert !EqualsIgnoreCase(r[|entries|].key, query);
      }
  }

  /** The constructor's loop over its (name, engine) pairs. */
  function RegisterAll<E>(pairs: seq<Entry<E>>): (entries: seq<Entry<E>>)
    ensures DistinctKeys(entries)
  {
    if pairs == [] then []
    else
      var last := pairs[|pairs| - 1];
      Set(RegisterAll(pairs[..|pairs| - 1]), last.key, last.engine)
  }

  /** The engine of the last pair whose name equals `name` ignoring case. */
  function LastMatch<E>(pairs: seq<Entry<E>>, name: string): Option<E>
  {
    if pairs == [] then None
    else if EqualsIgnoreCase(pairs[|pairs| - 1].key, name) then Some(pairs[|pairs| - 1].engine)
    else LastMatch(pairs[..|pairs| - 1], name)
  }

  /** Every pair is registered, and of names equal ignoring case the last
      one's engine wins. */
  lemma {:induction false} RegisterAllLookup<E>(pairs: seq<Entry<E>>, name: string)
    ensures TryGetValue(RegisterAll(pairs), name) == LastMatch(pairs, name)
  {
    if pairs != [] {
      var last := pairs[|pairs| - 1];
      RegisterAllLookup(pairs[..|pairs| - 1], name);
      SetThenGet(RegisterAll(pairs[..|pairs| - 1]), last.key, last.engine, name);
    }
  }

  /** Lookups that differ only in case find the same engine. */
  lemma LookupIgnoresCase<E>(entries: seq<Entry<E>>, a: string, b: string)
    requires EqualsIgnoreCase(a, b)
    ensures TryGetValue(entries, a) == TryGetValue(entries, b)
  {
    forall j | 0 <= j < |entries| ensures EqualsIgnoreCase(entries[j].key, a) <==> EqualsIgnoreCase(entries[j].key, b) {
      assert EqualsIgnoreCase(b, a);
    }
  }

  function NotFoundMessage(name: string, keys: seq<string>): string
  {
    "Engine '" + name + "' not found. Available engines: " + Join(", ", keys)
  }

  /** `engineName ??= _defaultEngine`, then the lookup; a miss is the
      InvalidOperationException naming the engine and listing every key. */
  function Resolve<E>(entries: seq<Entry<E>>, defaultEngine: string, engineName: Option<string>): (r: Result<E, string>)
    ensures var n := engineName.GetOr(defaultEngine);
      && (r.Success? <==> TryGetValue(entries, n).Some?)
      && (r.Success? ==> Some(r.value) == TryGetValue(entries, n))
      && (r.Failure? ==> r.error == NotFoundMessage(n, Keys(entries)))
  {
    var n := engineName.GetOr(defaultEngine);
    match TryGetValue(entries, n)
    case None => Failure(NotFoundMessage(n, Keys(entries)))
    case Some(e) => Success(e)
  }
}
