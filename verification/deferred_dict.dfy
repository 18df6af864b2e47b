/** The two-level variable lookup used for variable inheritance: a task's own
    variables are searched first, the document's shared variables second. */
module DeferredDicts {

  /** A read-only view over a task-local map (`data`) and a document-level map
      (`parentData`). Both fields are set once, at construction. */
  datatype DeferredDict<K, V> = DeferredDict(data: map<K, V>, parentData: map<K, V>)

  /** The outcome of a lookup: the value found, or a `KeyError` naming the key. */
  datatype Lookup<K, V> = Found(value: V) | KeyNotFound(key: K)

  /** `DeferredDict.__getitem__`: the local map wins; otherwise the parent map is
      indexed, and its failure is the failure of the whole lookup. */
  function Get<K, V>(d: DeferredDict<K, V>, key: K): (r: Lookup<K, V>)
    ensures key in d.data ==> r == Found(d.data[key])
    ensures key !in d.data && key in d.parentData ==> r == Found(d.parentData[key])
    ensures r.KeyNotFound? <==> key !in d.data && key !in d.parentData
    ensures r.KeyNotFound? ==> r.key == key
  {
    if key in d.data then Found(d.data[key])
    else if key in d.parentData then Found(d.parentData[key])
    else KeyNotFound(key)
  }

  /** The keys a lookup succeeds on. */
  function Keys<K, V>(d: DeferredDict<K, V>): set<K> {
    d.data.Keys + d.parentData.Keys
  }

  /** An independent reference for the lookup: the single map obtained by laying the
      local map over the parent map (Dafny's `+` on maps keeps the right operand's
      value on a shared key). Every lookup agrees with it, on success and failure. */
  lemma GetIsMergedLookup<K, V>(d: DeferredDict<K, V>, key: K)
    ensures key in Keys(d) <==> Get(d, key).Found?
    ensures key in d.parentData + d.data <==> Get(d, key).Found?
    ensures key in d.parentData + d.data ==> Get(d, key) == Found((d.parentData + d.data)[key])
  {
  }

  /** Local variables shadow shared ones: whatever the parent maps a local key to,
      even when it has the same key, the lookup returns the local value. */
  lemma LocalShadowsParent<K, V>(data: map<K, V>, parent1: map<K, V>, parent2: map<K, V>, key: K)
    requires key in data
    ensures Get(DeferredDict(data, parent1), key) == Get(DeferredDict(data, parent2), key) == Found(data[key])
  {
  }

  /** With no local variables the view is exactly the parent map, failures included. */
  lemma EmptyLocalIsParent<K, V>(parent: map<K, V>, key: K)
    ensures Get(DeferredDict(map[], parent), key) ==
            if key in parent then Found(parent[key]) else KeyNotFound(key)
  {
  }
}
