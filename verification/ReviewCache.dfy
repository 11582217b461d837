// The cache as an object: each method is one atomic step.
module ReviewCache {
  import opened Basics
  import opened CacheSpec
  import opened Scans
  import Spec = CacheSpec

  class MemoryCache {
    const rules: Rules
    var records: Records

    ghost predicate Valid()
      reads this
    {
      UniqueIDs(records)
    }

    constructor (rules: Rules)
      ensures this.rules == rules && records == map[] && Valid()
    {
      this.rules := rules;
      records := map[];
    }

    method Lookup(slot: Slot, now: Time) returns (r: Outcome<CacheRecord>)
      ensures r == Spec.Lookup(records, slot, now)
    {
      var key := MapKey(slot);
      if key !in records {
        return Err(CacheNotFound);
      }
      var v := records[key];
      if v.owner != slot.owner || v.status != CacheReady || now >= v.validUntil {
        return Err(CacheNotFound);
      }
      return Ok(v);
    }

    // The token is drawn by the caller of the model: random, so it names no record.
    method Claim(slot: Slot, now: Time, lease: int, token: string) returns (r: Outcome<Claimed>)
      requires Valid()
      requires forall key :: key in records ==> records[key].id != token
      modifies this
      ensures Valid()
      ensures (records, r) == Spec.Claim(old(records), slot, now, lease, token)
    {
      if !ValidOwner(slot.owner) || slot.logical == "" || slot.source == "" || lease <= 0 {
        return Err(InvalidInvocation);
      }
      var key := MapKey(slot);
      if key in records && records[key].status == CacheReady && now < records[key].validUntil {
        return Ok(Claimed(records[key], false));
      }
      if key in records && records[key].status == CacheGenerating && now < records[key].leaseUntil {
        return Ok(Claimed(records[key], false));
      }
      var v;
      if key in records {
        v := records[key];
      } else {
        v := CacheRecord(token, slot.owner, slot.logical, slot.source, CacheGenerating, "", ZERO_TIME, ZERO_TIME, NO_RESULT, "", now, now);
      }
      v := v.(status := CacheGenerating, claimToken := token, leaseUntil := now + lease, updatedAt := now);
      records := records[key := v];
      return Ok(Claimed(v, true));
    }

    // The map is searched in no particular order; unique ids make the order irrelevant.
    method Find(owner: Owner, id: string) returns (r: Option<string>)
      requires Valid()
      ensures r == KeyOf(records, owner, id)
    {
      var keys := records.Keys;
      while keys != {}
        invariant keys <= records.Keys
        invariant forall key :: Names(records, key, owner, id) ==> key in keys
      {
        var key :| key in keys;
        if records[key].id == id && records[key].owner == owner {
          assert Names(records, key, owner, id);
          return Some(key);
        }
        keys := keys - {key};
      }
      return None;
    }

    method CommitReady(owner: Owner, id: string, token: string, result: CachedResult, validUntil: Time, now: Time)
      returns (r: Outcome<CacheRecord>)
      requires Valid()
      modifies this
      ensures Valid()
      ensures (records, r) == Spec.CommitReady(rules, old(records), owner, id, token, result, validUntil, now)
    {
      if !rules.accepts(result, MAX_RESULT_BYTES) {
        return Err(OutputLimit);
      }
      var found := Find(owner, id);
      if found.None? {
        return Err(CacheNotFound);
      }
      var v := records[found.value];
      if v.status != CacheGenerating || v.claimToken != token || now > v.leaseUntil {
        return Err(ClaimLost);
      }
      v := v.(status := CacheReady, result := result, validUntil := validUntil, claimToken := "", updatedAt := now);
      records := records[found.value := v];
      return Ok(v);
    }

    method FailClaim(owner: Owner, id: string, token: string, code: string, now: Time) returns (error: Option<CacheError>)
      requires Valid()
      modifies this
      ensures Valid()
      ensures (records, error) == Spec.FailClaim(rules, old(records), owner, id, token, code, now)
    {
      var found := Find(owner, id);
      if found.None? {
        return Some(CacheNotFound);
      }
      var v := records[found.value];
      if v.status != CacheGenerating || v.claimToken != token {
        return Some(ClaimLost);
      }
      v := v.(status := CacheFailed, errorCode := rules.bounded(code), claimToken := "", updatedAt := now);
      records := records[found.value := v];
      return None;
    }

    method CleanupExpired(now: Time, limit: int) returns (count: nat, ghost swept: set<string>)
      requires Valid()
      modifies this
      ensures Valid()
      ensures IsSweep(old(records), now, limit, swept)
      ensures records == old(records) - swept && count == |swept|
    {
      hide UniqueIDs, ExpiredKeys, Expired, Scanned, Chosen;
      ghost var before := records;
      ghost var expired := ExpiredKeys(before, now);
      SweepNone(before, now);
      count, swept := 0, {};
      var keys := records.Keys;
      while keys != {} && count != limit
        invariant Scanned(before.Keys, expired, swept, keys)
        invariant count == |swept| && (0 <= limit ==> count <= limit)
        invariant records == before - swept
        decreases keys
      {
        var key :| key in keys;
        SweepStep(before, now, swept, keys, key);
        var v := records[key];
        if (v.status == CacheReady || v.status == CacheFailed) && now >= v.validUntil && now >= v.leaseUntil {
          records := records - {key};
          swept := swept + {key};
          count := count + 1;
        }
        keys := keys - {key};
      }
      Enough(before.Keys, expired, swept, keys, limit);
      SweepKeepsUnique(before, swept);
    }
  }

  lemma SweepNone(m: Records, now: Time)
    ensures Scanned(m.Keys, ExpiredKeys(m, now), {}, m.Keys) && m - {} == m
  {
  }

  // One step of the sweep, whether the record it meets has expired or not.
  lemma SweepStep(m: Records, now: Time, swept: set<string>, rest: set<string>, key: string)
    requires Scanned(m.Keys, ExpiredKeys(m, now), swept, rest) && key in rest
    ensures key in m - swept && (m - swept)[key] == m[key] && |swept + {key}| == |swept| + 1
    ensures (m - swept) - {key} == m - (swept + {key})
    ensures if (m[key].status == CacheReady || m[key].status == CacheFailed) && now >= m[key].validUntil && now >= m[key].leaseUntil
            then Scanned(m.Keys, ExpiredKeys(m, now), swept + {key}, rest - {key})
            else Scanned(m.Keys, ExpiredKeys(m, now), swept, rest - {key})
  {
  }

  lemma SweepKeepsUnique(m: Records, swept: set<string>)
    requires UniqueIDs(m)
    ensures UniqueIDs(m - swept)
  {
  }
}
