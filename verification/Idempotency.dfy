/** The notification service's idempotency repository, and the worker that uses it. */
module Idempotency {
  import opened Common
  import Redis

  const OTP_REQUESTED := "notification:processed:otp-requested"
  const USER_LOGGED_IN := "notification:processed:user-logged-in"

  datatype Marker = Processing | Processed

  type Keys = map<string, Redis.Entry<Marker>>

  datatype Settings = Settings(processingLeaseSeconds: int, processedTtlSeconds: int) {
    predicate Valid() {
      processingLeaseSeconds > 0 && processedTtlSeconds > 0
    }
  }

  function BuildKey(keyspace: string, eventId: string): string {
    keyspace + ":" + eventId
  }

  lemma KeysAreSpelled(eventId: string)
    ensures BuildKey(OTP_REQUESTED, eventId) == "notification:processed:otp-requested:" + eventId
    ensures BuildKey(USER_LOGGED_IN, eventId) == "notification:processed:user-logged-in:" + eventId
  {
  }

  /** Two events never share a key, within one keyspace or across the two keyspaces. */
  lemma KeysAreDistinct(keyspace: string, other: string, eventId: string, otherId: string)
    requires keyspace in {OTP_REQUESTED, USER_LOGGED_IN} && other in {OTP_REQUESTED, USER_LOGGED_IN}
    ensures BuildKey(keyspace, eventId) == BuildKey(other, otherId) <==> keyspace == other && eventId == otherId
  {
    assert |"notification:processed:"| == 23;
    assert BuildKey(keyspace, eventId)[23] == (if keyspace == OTP_REQUESTED then 'o' else 'u');
    assert BuildKey(other, otherId)[23] == (if other == OTP_REQUESTED then 'o' else 'u');
    if keyspace == other {
      assert BuildKey(keyspace, eventId)[|keyspace| + 1..] == eventId;
      assert BuildKey(other, otherId)[|other| + 1..] == otherId;
    }
  }

  /** SET NX EX: claims the key unless somebody holds it. */
  function Reserve(keys: Keys, key: string, c: Settings, now: int): (Keys, bool) {
    if Redis.Has(keys, key, now) then (keys, false)
    else (keys[key := Redis.Entry(Processing, Redis.Ttl(now, c.processingLeaseSeconds))], true)
  }

  function Mark(keys: Keys, key: string, c: Settings, now: int): Keys {
    keys[key := Redis.Entry(Processed, Redis.Ttl(now, c.processedTtlSeconds))]
  }

  /** The release script: deletes the key only while it reads PROCESSING. */
  function Release(keys: Keys, key: string, now: int): Keys {
    if Redis.Get(keys, key, now) == Some(Processing) then keys - {key} else keys
  }

  /** The Redis server the workers share. */
  class Server {
    var keys: Keys

    constructor ()
      ensures keys == map[]
    {
      keys := map[];
    }
  }

  class IdempotencyRepository {
    const redis: Server
    const settings: Settings
    const keyspace: string

    constructor (redis: Server, settings: Settings, keyspace: string)
      requires settings.Valid()
      ensures this.redis == redis && this.settings == settings && this.keyspace == keyspace
    {
      this.redis, this.settings, this.keyspace := redis, settings, keyspace;
    }

    method ReserveIfNew(eventId: string, now: int) returns (won: bool)
      modifies redis
      ensures (redis.keys, won) == Reserve(old(redis.keys), BuildKey(keyspace, eventId), settings, now)
    {
      var key := BuildKey(keyspace, eventId);
      won := !Redis.Has(redis.keys, key, now);
      if won {
        redis.keys := redis.keys[key := Redis.Entry(Processing, Redis.Ttl(now, settings.processingLeaseSeconds))];
      }
    }

    method MarkProcessed(eventId: string, now: int)
      modifies redis
      ensures redis.keys == Mark(old(redis.keys), BuildKey(keyspace, eventId), settings, now)
    {
      var key := BuildKey(keyspace, eventId);
      redis.keys := redis.keys[key := Redis.Entry(Processed, Redis.Ttl(now, settings.processedTtlSeconds))];
    }

    method ReleaseReservation(eventId: string, now: int)
      modifies redis
      ensures redis.keys == Release(old(redis.keys), BuildKey(keyspace, eventId), now)
    {
      var key := BuildKey(keyspace, eventId);
      if Redis.Has(redis.keys, key, now) && redis.keys[key].value == Processing {
        redis.keys := redis.keys - {key};
      }
    }
  }

  /** How `process` reports an event it did not throw on. */
  datatype Status = Delivered | Duplicate | Invalid

  datatype SendError = SendError

  /** Both notification services run this worker, each on its own keyspace. */
  class NotificationService {
    const idempotency: IdempotencyRepository

    constructor (idempotency: IdempotencyRepository)
      ensures this.idempotency == idempotency
    {
      this.idempotency := idempotency;
    }

    /**
     * One call that nothing interleaves with. `parsed` is the validated event's id; `sent` is the provider's
     * answer; the call reserves at `start` and marks or releases at `end`; `releaseWorks` says whether
     * the release reaches Redis.
     */
    method Process(parsed: Option<string>, sent: bool, releaseWorks: bool, start: int, end: int)
      returns (r: Result<Status, SendError>)
      requires start <= end
      modifies idempotency.redis
      ensures parsed.None? ==> r == Ok(Invalid) && idempotency.redis.keys == old(idempotency.redis.keys)
      ensures parsed.Some? ==>
        var key := BuildKey(idempotency.keyspace, parsed.value);
        var before, after := old(idempotency.redis.keys), idempotency.redis.keys;
        var lease, ttl := idempotency.settings.processingLeaseSeconds, idempotency.settings.processedTtlSeconds;
        && (r == Ok(Duplicate) <==> Redis.Has(before, key, start))
        && (r == Ok(Duplicate) ==> after == before)
        && (r == Ok(Delivered) <==> !Redis.Has(before, key, start) && sent)
        && (r == Ok(Delivered) ==> after == before[key := Redis.Entry(Processed, Redis.Ttl(end, ttl))])
        && (r.Err? <==> !Redis.Has(before, key, start) && !sent)
        && (r.Err? ==> after == if releaseWorks && end <= start + 1000 * lease then before - {key}
                                else before[key := Redis.Entry(Processing, Redis.Ttl(start, lease))])
    {
      if parsed.None? {
        return Ok(Invalid);
      }
      var eventId := parsed.value;
      var reserved := idempotency.ReserveIfNew(eventId, start);
      if !reserved {
        return Ok(Duplicate);
      }
      if !sent {
        if releaseWorks {
          idempotency.ReleaseReservation(eventId, end);
        }
        return Err(SendError);
      }
      idempotency.MarkProcessed(eventId, end);
      r := Ok(Delivered);
    }
  }
}
