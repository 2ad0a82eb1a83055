/** The TTL lock behind the scheduled enqueue: SetNX over a store of expiring keys. */
module Cache {
  import opened Wrappers
  import opened Model

  /** A key's expiry; None never expires. */
  type Keys = map<string, Option<Time>>

  const SCHEDULED_ENQUEUE_DEDUP := "scheduled_enqueue:"

  function PrefixedKey(serviceName: string, key: string): string {
    serviceName + ":" + key
  }

  /** The Redis key that guards the scheduled enqueue of one notification. */
  function DedupKey(c: Config, id: Id): string {
    PrefixedKey(c.serviceName, SCHEDULED_ENQUEUE_DEDUP + id)
  }

  /** Distinct notifications never share a dedup key. */
  lemma DedupKeyInjective(c: Config, a: Id, b: Id)
    ensures DedupKey(c, a) == DedupKey(c, b) <==> a == b
    ensures DedupKey(c, a) == c.serviceName + ":scheduled_enqueue:" + a
  {
    var n := |c.serviceName| + 1 + |SCHEDULED_ENQUEUE_DEDUP|;
    assert DedupKey(c, a)[n..] == a;
    assert DedupKey(c, b)[n..] == b;
  }

  predicate Live(keys: Keys, key: string, now: Time) {
    key in keys && (keys[key].None? || now < keys[key].value)
  }

  /** Redis takes a zero TTL as no expiry and refuses a negative one. */
  function Expiry(now: Time, ttl: Time): Option<Time> {
    if ttl == 0 then None else Some(now + ttl)
  }

  class AppCache {
    const serviceName: string
    var keys: Keys

    constructor (serviceName: string)
      ensures this.serviceName == serviceName && keys == map[]
    {
      this.serviceName := serviceName;
      keys := map[];
    }

    /** Sets an absent key; Err is the command failing, by itself or because the TTL is negative. */
    method SetNX(key: string, ttl: Time, now: Time, reachable: bool) returns (r: Result<bool, ()>)
      modifies this
      ensures r.Err? <==> !reachable || ttl < 0
      ensures r.Ok? ==> r.value == !old(Live(keys, PrefixedKey(serviceName, key), now))
      ensures keys == if r == Ok(true) then old(keys)[PrefixedKey(serviceName, key) := Expiry(now, ttl)] else old(keys)
    {
      var rKey := PrefixedKey(serviceName, key);
      if !reachable || ttl < 0 {
        return Err(());
      }
      if Live(keys, rKey, now) {
        return Ok(false);
      }
      keys := keys[rKey := Expiry(now, ttl)];
      return Ok(true);
    }
  }
}
