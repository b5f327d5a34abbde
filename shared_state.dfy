/**
 * shared_state.py: a store of values by request id, shared by every module
 * that imports it. `SharedState()` always yields the one instance, and its
 * `__init__` creates the map only the first time. The `asyncio.Lock` taken
 * around each operation only serialises them; here they run one at a time.
 */
module SharedStateStore {
  import opened Wrappers

  /** `self._data.get(requestId)`: the stored value, or nothing for an absent key. */
  function Lookup<V>(data: map<string, V>, requestId: string): (r: Option<V>)
    ensures r.Some? <==> requestId in data
    ensures r.Some? ==> r.value == data[requestId]
  {
    if requestId in data then Some(data[requestId]) else None
  }

  /** After storing `value` under `requestId`, that key yields `value` and every other key is as before. */
  lemma LookupAfterSet<V>(data: map<string, V>, requestId: string, value: V, other: string)
    ensures Lookup(data[requestId := value], requestId) == Some(value)
    ensures other != requestId ==> Lookup(data[requestId := value], other) == Lookup(data, other)
  {
  }

  /** After removing `requestId`, that key yields nothing and every other key is as before. */
  lemma LookupAfterReset<V>(data: map<string, V>, requestId: string, other: string)
    ensures Lookup(data - {requestId}, requestId) == None
    ensures other != requestId ==> Lookup(data - {requestId}, other) == Lookup(data, other)
  {
  }

  /** Removing a key that is not there changes nothing. */
  lemma ResetAbsent<V>(data: map<string, V>, requestId: string)
    requires requestId !in data
    ensures data - {requestId} == data
  {
  }

  class SharedState<V> {
    /** `_data`, valid once `initialized` holds. */
    var data: map<string, V>
    /** `_initialized`. */
    var initialized: bool

    /** The fresh object `__new__` makes the first time: not yet initialised. */
    constructor ()
      ensures !initialized
    {
      initialized := false;
    }

    /** `__init__`: the map is created, empty, only by the first call. */
    method Init()
      modifies this
      ensures initialized
      ensures !old(initialized) ==> data == map[]
      ensures old(initialized) ==> data == old(data)
    {
      if !initialized {
        data := map[];
        initialized := true;
      }
    }

    /** `set_data`: stores `value` under `requestId`, overwriting any earlier value. */
    method SetData(requestId: string, value: V)
      requires initialized
      modifies this`data
      ensures data == old(data)[requestId := value]
      ensures Lookup(data, requestId) == Some(value)
      ensures forall k :: k != requestId ==> Lookup(data, k) == Lookup(old(data), k)
    {
      data := data[requestId := value];
    }

    /** `get_data`: the value stored under `requestId`, or `None`; the store is not changed. */
    method GetData(requestId: string) returns (r: Option<V>)
      requires initialized
      ensures r == Lookup(data, requestId)
    {
      if requestId in data {
        r := Some(data[requestId]);
      } else {
        r := None;
      }
    }

    /** `reset`: removes `requestId` when it is present, and otherwise does nothing. */
    method Reset(requestId: string)
      requires initialized
      modifies this`data
      ensures data == old(data) - {requestId}
      ensures requestId !in old(data) ==> data == old(data)
      ensures forall k :: k != requestId ==> Lookup(data, k) == Lookup(old(data), k)
    {
      if requestId in data {
        data := data - {requestId};
      }
    }
  }

  /** The class object: its `_instance` attribute, shared by every `SharedState()` call. */
  class SharedStateClass<V> {
    var instance: SharedState?<V>

    /** Before the first `SharedState()` call there is no instance. */
    constructor ()
      ensures instance == null
    {
      instance := null;
    }

    /** `__new__`: makes the instance the first time and returns that same one on every later call. */
    method New() returns (s: SharedState<V>)
      modifies this
      ensures instance == s
      ensures old(instance) == null ==> fresh(s) && !s.initialized
      ensures old(instance) != null ==> s == old(instance)
    {
      if instance == null {
        instance := new SharedState();
      }
      s := instance;
    }

    /**
     * `SharedState()`: `__new__` followed by `__init__`. A second call returns
     * the same instance with its stored values intact.
     */
    method Construct() returns (s: SharedState<V>)
      modifies this, instance
      ensures instance == s && s.initialized
      ensures old(instance) == null ==> fresh(s) && s.data == map[]
      ensures old(instance) != null ==> s == old(instance)
      ensures old(instance) != null && old(instance.initialized) ==> s.data == old(instance.data)
    {
      s := New();
      s.Init();
    }
  }
}
