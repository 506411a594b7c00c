/**
 `InMemoryIdempotencyStore` in its own form, with the check and the middleware's handling of the
 response on top of it. The methods refine `Idempotency`.
 */
module IdempotencyStore {
  import opened Wrappers
  import I = Idempotency
  import opened Idempotency

  class InMemoryIdempotencyStore {
    const ttl: real
    var data: Store

    constructor (ttl: real)
      ensures this.ttl == ttl && data == map[]
    {
      this.ttl := ttl;
      data := map[];
    }

    method Get(key: string, now: real) returns (record: Option<Record>)
      modifies this
      ensures data == AfterGet(old(data), key, now)
      ensures record == if key in data then Some(data[key]) else None
    {
      if key in data && Expired(data[key], now) {
        data := data - {key};
        return None;
      }
      record := if key in data then Some(data[key]) else None;
    }

    /** `set`: only a key that is not taken, with the store's own time to live. */
    method Set(key: string, submitted: Record, now: real) returns (created: bool)
      modifies this
      ensures created == (key !in old(data))
      ensures data == if created then old(data)[key := if submitted.expiresAt.None? then submitted.(expiresAt := Some(now + ttl)) else submitted]
                      else old(data)
    {
      if key in data {
        return false;
      }
      var record := submitted;
      if record.expiresAt.None? {
        record := record.(expiresAt := Some(now + ttl));
      }
      data := data[key := record];
      created := true;
    }

    method Update(key: string, response: Response, phase: Phase, now: real) returns (updated: bool)
      modifies this
      ensures updated == (key in old(data)) && data == Save(old(data), key, response, phase, now)
    {
      updated := key in data;
      if updated {
        var record := data[key];
        record := record.(response := Some(response));
        record := record.(phase := phase, completedAt := Some(now));
        data := data[key := record];
      }
    }

    method Delete(key: string) returns (deleted: bool)
      modifies this
      ensures deleted == (key in old(data)) && data == I.Delete(old(data), key)
    {
      deleted := key in data;
      if deleted {
        data := data - {key};
      } else {
        assert data - {key} == data;
      }
    }

    /** `cleanup_expired`: the expired keys are collected first and deleted one by one. */
    method CleanupExpired(now: real) returns (removed: nat)
      modifies this
      ensures data == Sweep(old(data), now)
      ensures removed == |set k | k in old(data) && Expired(old(data)[k], now)|
    {
      var expired := set k | k in data && Expired(data[k], now);
      var left := expired;
      removed := 0;
      while left != {}
        invariant left <= expired && data == old(data) - (expired - left) && removed == |expired| - |left|
        decreases |left|
      {
        var k :| k in left;
        data := data - {k};
        left := left - {k};
        removed := removed + 1;
      }
    }

    /** `check_idempotency`; a failed record is deleted and the check starts over. */
    method CheckIdempotency(q: Request, now: real) returns (answer: Answer)
      modifies this
      ensures Outcome(data, answer) == Check(old(data), q, ttl, now)
      decreases if q.key in data && data[q.key].phase == Failed then 1 else 0
    {
      var found := Get(q.key, now);
      if found.None? {
        var created := Set(q.key, Record(q.caller, q.operation, q.hash, q.body, None, Processing, now, None, None), now);
        return Granted;
      }
      var record := found.value;
      if record.hash != q.hash {
        return Conflict(record.operation);
      }
      match record.phase {
        case Processing =>
          answer := StillProcessing;
        case Completed =>
          if record.response.None? {
            answer := Replayed(None);
          } else {
            var response := record.response.value;
            var headers := response.headers[REPLAY := "true"];
            if response.headers != map[] {
              data := data[q.key := record.(response := Some(response.(headers := headers)))];
            }
            answer := Replayed(Some(response.(headers := headers)));
          }
          assert data == AfterGet(old(data), q.key, now)[q.key := AfterReplay(record)];
        case Failed =>
          var deleted := Delete(q.key);
          answer := CheckIdempotency(q, now);
          assert (AfterGet(old(data), q.key, now) - {q.key})[q.key := Pending(q, ttl, now)]
              == AfterGet(old(data), q.key, now)[q.key := Pending(q, ttl, now)];
      }
    }

    /** The middleware's handling of the response of a granted request. */
    method SettleResponse(key: string, response: Response, now: real)
      modifies this
      ensures data == Settle(old(data), key, response, now)
    {
      if response.status < 500 {
        var phase := if response.status < 400 then Completed else Failed;
        var updated := Update(key, response, phase, now);
      } else {
        var deleted := Delete(key);
      }
    }
  }
}
