/** The entity store seen by the event handlers: one keyed table per entity
    type, each with two tiers. `confirmed` holds what was committed with the
    last finalized block; `inBlock` holds what handlers wrote earlier while
    processing the current block. Every write goes to the in-block tier. */
module EntityStore {

  datatype Option<+T> = None | Some(value: T)

  datatype Table<K(==,!new), V> = Table(confirmed: map<K, V>, inBlock: map<K, V>) {

    /** `Entity.load(id)`: a lookup in the confirmed tier only. */
    function Load(k: K): (r: Option<V>)
      ensures r.Some? <==> k in confirmed
      ensures r.Some? ==> r.value == confirmed[k]
    {
      if k in confirmed then Some(confirmed[k]) else None
    }

    /** `Entity.loadInBlock(id)`: a lookup in the in-block tier only. */
    function LoadInBlock(k: K): (r: Option<V>)
      ensures r.Some? <==> k in inBlock
      ensures r.Some? ==> r.value == inBlock[k]
    {
      if k in inBlock then Some(inBlock[k]) else None
    }

    /** The two-tier lookup: the confirmed tier first, then the in-block tier. */
    function Get(k: K): (r: Option<V>)
      ensures r.Some? <==> Has(k)
      ensures k in confirmed ==> r == Load(k)
      ensures k !in confirmed ==> r == LoadInBlock(k)
    {
      match Load(k)
      case Some(v) => Some(v)
      case None => LoadInBlock(k)
    }

    /** True when either tier holds an entity under `k`. */
    predicate Has(k: K) {
      k in confirmed || k in inBlock
    }

    /** `entity.save()`: an upsert into the in-block tier. */
    function Save(k: K, v: V): (t: Table<K, V>)
      ensures t.confirmed == confirmed
      ensures k in t.inBlock && t.inBlock[k] == v
      ensures forall k' :: k' != k ==> (k' in t.inBlock <==> k' in inBlock)
      ensures forall k' :: k' in inBlock && k' != k ==> t.inBlock[k'] == inBlock[k']
    {
      Table(confirmed, inBlock[k := v])
    }
  }

  function EmptyTable<K(==,!new), V>(): Table<K, V> {
    Table(map[], map[])
  }

  /** Reading back a write: the in-block value is seen only when the confirmed
      tier does not shadow it. */
  lemma GetAfterSave<K(!new), V>(t: Table<K, V>, k: K, v: V)
    ensures t.Save(k, v).Get(k) == if k in t.confirmed then Some(t.confirmed[k]) else Some(v)
  {
  }
}
