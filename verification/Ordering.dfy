// The orders in which batches are taken: by a time and then by id, ids as strings.
module Ordering {
  import opened Basics

  // String comparison of Go.
  predicate Less(a: string, b: string) {
    b != [] && (a == [] || a[0] < b[0] || (a[0] == b[0] && Less(a[1..], b[1..])))
  }

  lemma LessTotal(a: string, b: string)
    ensures a == b || Less(a, b) || Less(b, a)
    ensures !(Less(a, b) && Less(b, a)) && !Less(a, a)
  {
  }

  lemma {:induction false} LessTransitive(a: string, b: string, c: string)
    requires Less(a, b) && Less(b, c)
    ensures Less(a, c)
  {
    if a != [] && a[0] == b[0] == c[0] {
      LessTransitive(a[1..], b[1..], c[1..]);
    }
  }

  // Earlier time first, then smaller id.
  predicate Precedes(at: map<string, Time>, a: string, b: string)
    requires a in at && b in at
  {
    at[a] < at[b] || (at[a] == at[b] && Less(a, b))
  }

  lemma PrecedesOrders(at: map<string, Time>, a: string, b: string, c: string)
    requires a in at && b in at && c in at
    ensures a == b || Precedes(at, a, b) || Precedes(at, b, a)
    ensures !(Precedes(at, a, b) && Precedes(at, b, a))
    ensures Precedes(at, a, b) && Precedes(at, b, c) ==> Precedes(at, a, c)
  {
    LessTotal(a, b);
    if Less(a, b) && Less(b, c) {
      LessTransitive(a, b, c);
    }
  }

  // `ids` are the first `limit` candidates in order.
  ghost predicate IsBatch(candidates: set<string>, at: map<string, Time>, limit: nat, ids: seq<string>)
    requires candidates <= at.Keys
  {
    && (forall i :: 0 <= i < |ids| ==> ids[i] in candidates)
    && (forall i, j :: 0 <= i < j < |ids| ==> Precedes(at, ids[i], ids[j]))
    && (forall i, c :: 0 <= i < |ids| && c in candidates && c !in ids ==> Precedes(at, ids[i], c))
    && |ids| <= limit
    && (|ids| < limit ==> forall c :: c in candidates ==> c in ids)
  }

  lemma BatchDistinct(candidates: set<string>, at: map<string, Time>, limit: nat, ids: seq<string>)
    requires candidates <= at.Keys && IsBatch(candidates, at, limit, ids)
    ensures forall i, j :: 0 <= i < j < |ids| ==> ids[i] != ids[j]
  {
    forall i, j | 0 <= i < j < |ids|
      ensures ids[i] != ids[j]
    {
      PrecedesOrders(at, ids[i], ids[j], ids[j]);
    }
  }

  // A batch is determined by its candidates, their times and the limit.
  lemma {:induction false} BatchUnique(candidates: set<string>, at: map<string, Time>, limit: nat, ids: seq<string>, others: seq<string>)
    requires candidates <= at.Keys && IsBatch(candidates, at, limit, ids) && IsBatch(candidates, at, limit, others)
    ensures ids == others
    decreases limit
  {
    if ids != [] && others != [] {
      SameFirst(candidates, at, limit, ids, others);
      BatchRest(candidates, at, limit, ids);
      BatchRest(candidates, at, limit, others);
      BatchUnique(candidates - {ids[0]}, at, limit - 1, ids[1..], others[1..]);
      assert ids == [ids[0]] + ids[1..] && others == [others[0]] + others[1..];
    } else {
      BatchEmpty(candidates, at, limit, ids);
      BatchEmpty(candidates, at, limit, others);
    }
  }

  lemma BatchEmpty(candidates: set<string>, at: map<string, Time>, limit: nat, ids: seq<string>)
    requires candidates <= at.Keys && IsBatch(candidates, at, limit, ids)
    ensures ids == [] <==> candidates == {} || limit == 0
  {
    if ids != [] {
      assert ids[0] in candidates;
    }
  }

  lemma SameFirst(candidates: set<string>, at: map<string, Time>, limit: nat, ids: seq<string>, others: seq<string>)
    requires candidates <= at.Keys && IsBatch(candidates, at, limit, ids) && IsBatch(candidates, at, limit, others)
    requires ids != [] && others != []
    ensures ids[0] == others[0]
  {
    PrecedesOrders(at, ids[0], others[0], others[0]);
    if ids[0] != others[0] {
      FirstPrecedes(candidates, at, limit, ids, others[0]);
      FirstPrecedes(candidates, at, limit, others, ids[0]);
    }
  }

  lemma FirstPrecedes(candidates: set<string>, at: map<string, Time>, limit: nat, ids: seq<string>, c: string)
    requires candidates <= at.Keys && IsBatch(candidates, at, limit, ids) && ids != [] && c in candidates && c != ids[0]
    ensures Precedes(at, ids[0], c)
  {
    if c in ids {
      var i :| 0 <= i < |ids| && ids[i] == c;
    }
  }

  lemma BatchRest(candidates: set<string>, at: map<string, Time>, limit: nat, ids: seq<string>)
    requires candidates <= at.Keys && IsBatch(candidates, at, limit, ids) && ids != []
    ensures IsBatch(candidates - {ids[0]}, at, limit - 1, ids[1..])
  {
    var rest := ids[1..];
    forall i | 0 <= i < |rest|
      ensures rest[i] in candidates - {ids[0]}
    {
      PrecedesOrders(at, ids[0], ids[i + 1], ids[i + 1]);
      assert rest[i] == ids[i + 1];
    }
    forall c | c in candidates - {ids[0]} && c !in rest
      ensures c !in ids
    {
    }
    forall i, c | 0 <= i < |rest| && c in candidates - {ids[0]} && c !in rest
      ensures Precedes(at, rest[i], c)
    {
      assert rest[i] == ids[i + 1] && c !in ids;
    }
    if |rest| < limit - 1 {
      forall c | c in candidates - {ids[0]}
        ensures c in rest
      {
        assert c in ids;
      }
    }
  }

  method First(candidates: set<string>, at: map<string, Time>) returns (first: string)
    requires candidates != {} && candidates <= at.Keys
    ensures first in candidates
    ensures forall c :: c in candidates && c != first ==> Precedes(at, first, c)
  {
    first :| first in candidates;
    var rest := candidates - {first};
    while rest != {}
      invariant first in candidates && rest <= candidates
      invariant forall c :: c in candidates - rest && c != first ==> Precedes(at, first, c)
      decreases |rest|
    {
      var next :| next in rest;
      PrecedesOrders(at, first, next, next);
      if Precedes(at, next, first) {
        forall c | c in candidates && c !in rest && c != first
          ensures Precedes(at, next, c)
        {
          PrecedesOrders(at, next, first, c);
        }
        first := next;
      }
      rest := rest - {next};
    }
  }

  // The first `limit` candidates, in order.
  method TakeBatch(candidates: set<string>, at: map<string, Time>, limit: nat) returns (ids: seq<string>)
    requires candidates <= at.Keys
    ensures IsBatch(candidates, at, limit, ids)
  {
    ids := [];
    var rest := candidates;
    while rest != {} && |ids| < limit
      invariant rest <= candidates && |ids| <= limit
      invariant forall i :: 0 <= i < |ids| ==> ids[i] in candidates && ids[i] !in rest
      invariant forall i, j :: 0 <= i < j < |ids| ==> Precedes(at, ids[i], ids[j])
      invariant forall i, c :: 0 <= i < |ids| && c in rest ==> Precedes(at, ids[i], c)
      invariant forall c :: c in candidates ==> c in rest || c in ids
      decreases |rest|
    {
      var first := First(rest, at);
      ids := ids + [first];
      rest := rest - {first};
    }
  }

  // There always is a batch.
  lemma {:induction false} BatchExists(candidates: set<string>, at: map<string, Time>, limit: nat) returns (ids: seq<string>)
    requires candidates <= at.Keys
    ensures IsBatch(candidates, at, limit, ids)
    decreases limit
  {
    if candidates == {} || limit == 0 {
      ids := [];
    } else {
      var first := Earliest(candidates, at);
      var rest := BatchExists(candidates - {first}, at, limit - 1);
      ids := [first] + rest;
      forall i, j | 0 <= i < j < |ids|
        ensures Precedes(at, ids[i], ids[j])
      {
        assert ids[j] in candidates - {first};
      }
    }
  }

  lemma {:induction false} Earliest(candidates: set<string>, at: map<string, Time>) returns (first: string)
    requires candidates != {} && candidates <= at.Keys
    ensures first in candidates && forall c :: c in candidates && c != first ==> Precedes(at, first, c)
    decreases candidates
  {
    var c :| c in candidates;
    var rest := candidates - {c};
    assert forall k :: k in candidates ==> k == c || k in rest;
    first := c;
    if rest != {} {
      var other := Earliest(rest, at);
      PrecedesOrders(at, c, other, other);
      if Precedes(at, c, other) {
        forall k | k in rest
          ensures Precedes(at, c, k)
        {
          PrecedesOrders(at, c, other, k);
        }
      } else {
        first := other;
      }
    }
  }
}
