// Recall is a function of what was added, not of the order of adding, and its cut loses
// nothing uncounted.
module RecallTheorems {
  import opened Basics
  import opened Ordering
  import opened MemorySpec
  import opened RecallSpec

  // ---- The order is total ----

  lemma BeforeOrders(a: Item, b: Item, c: Item)
    ensures a.memory.id != b.memory.id ==> Before(a, b) || Before(b, a)
    ensures !(Before(a, b) && Before(b, a)) && !Before(a, a)
    ensures Before(a, b) && Before(b, c) ==> Before(a, c)
  {
    LessTotal(a.memory.id, b.memory.id);
    LessTotal(a.memory.id, a.memory.id);
    if Less(a.memory.id, b.memory.id) && Less(b.memory.id, c.memory.id) {
      LessTransitive(a.memory.id, b.memory.id, c.memory.id);
    }
  }

  lemma RankedDistinct(c: Candidates, items: seq<Item>, i: nat, j: nat)
    requires Ranked(c, items) && i < j < |items|
    ensures items[i].memory.id != items[j].memory.id
  {
    BeforeOrders(items[i], items[j], items[j]);
  }

  lemma FirstIsFirst(c: Candidates, xs: seq<Item>, ys: seq<Item>)
    requires OwnIDs(c) && Ranked(c, xs) && Ranked(c, ys) && xs != [] && ys != []
    ensures xs[0] == ys[0]
  {
    assert c[xs[0].memory.id] in ys && c[ys[0].memory.id] in xs;
    var i :| 0 <= i < |ys| && ys[i] == xs[0];
    var j :| 0 <= j < |xs| && xs[j] == ys[0];
    BeforeOrders(xs[0], ys[0], ys[0]);
  }

  lemma RankedRest(c: Candidates, xs: seq<Item>)
    requires OwnIDs(c) && Ranked(c, xs) && xs != []
    ensures OwnIDs(c - {xs[0].memory.id}) && Ranked(c - {xs[0].memory.id}, xs[1..])
  {
    var rest := c - {xs[0].memory.id};
    forall i | 0 <= i < |xs[1..]|
      ensures xs[1..][i].memory.id in rest && rest[xs[1..][i].memory.id] == xs[1..][i]
    {
      RankedDistinct(c, xs, 0, i + 1);
    }
    forall id | id in rest
      ensures rest[id] in xs[1..]
    {
      assert c[id] in xs;
      var i :| 0 <= i < |xs| && xs[i] == c[id];
      assert i != 0;
      assert xs[1..][i - 1] == c[id];
    }
  }

  // The ranked list is determined by the candidates alone.
  lemma {:induction false} RankedUnique(c: Candidates, xs: seq<Item>, ys: seq<Item>)
    requires OwnIDs(c) && Ranked(c, xs) && Ranked(c, ys)
    ensures xs == ys
    decreases |xs|
  {
    if xs != [] {
      assert xs[0].memory.id in c;
      assert c[xs[0].memory.id] in ys;
      FirstIsFirst(c, xs, ys);
      RankedRest(c, xs);
      RankedRest(c, ys);
      RankedUnique(c - {xs[0].memory.id}, xs[1..], ys[1..]);
      assert xs == [xs[0]] + xs[1..] && ys == [ys[0]] + ys[1..];
    }
  }

  lemma {:induction false} RankedSize(c: Candidates, items: seq<Item>)
    requires OwnIDs(c) && Ranked(c, items)
    ensures |items| == |c|
    decreases |items|
  {
    if items != [] {
      var id := items[0].memory.id;
      RankedRest(c, items);
      RankedSize(c - {id}, items[1..]);
      assert (c - {id}).Keys == c.Keys - {id};
      assert c.Keys == (c.Keys - {id}) + {id};
      assert |c.Keys| == |c|;
    }
  }

  // ---- The merge ----

  // What an entry stands for: the record, the best source and the best score among
  // the additions that named it.
  ghost predicate Best(adds: seq<Addition>, id: string, item: Item) {
    && (exists a :: a in adds && a.value.id == id && a.source == item.source)
    && (exists a :: a in adds && a.value.id == id && a.score == item.score)
    && (exists a :: a in adds && a.value.id == id && a.value == item.memory)
    && (forall a :: a in adds && a.value.id == id ==> Priority(a.source) <= Priority(item.source) && a.score <= item.score)
    && item.exact == !item.source.MatchSemantic?
  }

  ghost predicate Named(adds: seq<Addition>, id: string) {
    exists a :: a in adds && a.value.id == id
  }

  lemma BestGrows(adds: seq<Addition>, a: Addition, id: string, item: Item)
    requires Best(adds, id, item)
    ensures a.value.id != id ==> Best(adds + [a], id, item)
    ensures a.value.id == id ==> Best(adds + [a], id, Merged(item, a))
  {
    var more := adds + [a];
    var x :| x in adds && x.value.id == id && x.source == item.source;
    var y :| y in adds && y.value.id == id && y.score == item.score;
    var z :| z in adds && z.value.id == id && z.value == item.memory;
    assert x in more && y in more && z in more && a in more;
  }

  lemma BestOfOne(adds: seq<Addition>, a: Addition)
    requires !Named(adds, a.value.id)
    ensures Best(adds + [a], a.value.id, Item(a.value, a.source, a.score, !a.source.MatchSemantic?))
  {
    assert a in adds + [a];
  }

  lemma {:induction false} MergeIsBest(adds: seq<Addition>, id: string)
    ensures id in AddAll(map[], adds) <==> Named(adds, id)
    ensures id in AddAll(map[], adds) ==> Best(adds, id, AddAll(map[], adds)[id])
    decreases |adds|
  {
    hide Best, Merged;
    if adds != [] {
      var last := |adds| - 1;
      var before, a := adds[..last], adds[last];
      assert adds == before + [a];
      MergeIsBest(before, id);
      if Named(before, id) {
        BestGrows(before, a, id, AddAll(map[], before)[id]);
      } else if a.value.id == id {
        BestOfOne(before, a);
      }
    }
  }

  // The same additions, in whatever order and however often.
  ghost predicate SameAdditions(xs: seq<Addition>, ys: seq<Addition>) {
    forall a :: a in xs <==> a in ys
  }

  lemma BestUnique(xs: seq<Addition>, ys: seq<Addition>, id: string, x: Item, y: Item)
    requires SameAdditions(xs, ys) && Agree(xs) && Best(xs, id, x) && Best(ys, id, y)
    ensures x == y
  {
    SamePriority(x.source, y.source);
  }

  lemma SamePriority(a: MatchSource, b: MatchSource)
    ensures Priority(a) == Priority(b) ==> a == b
  {
  }

  // As long as they saw the same value of each record, the same additions make the
  // same candidates.
  lemma MergeOrderIndependent(xs: seq<Addition>, ys: seq<Addition>)
    requires SameAdditions(xs, ys) && Agree(xs)
    ensures AddAll(map[], xs) == AddAll(map[], ys)
  {
    hide Best, AddAll, Agree;
    var c, d := AddAll(map[], xs), AddAll(map[], ys);
    forall id
      ensures (id in c <==> id in d) && (id in c ==> c[id] == d[id])
    {
      MergeIsBest(xs, id);
      MergeIsBest(ys, id);
      if id in c {
        BestUnique(xs, ys, id, c[id], d[id]);
      }
    }
  }

  // The first value met of a record is the one kept.
  lemma {:induction false} FirstIsKept(a: Addition, xs: seq<Addition>)
    ensures a.value.id in AddAll(map[], [a] + xs) && AddAll(map[], [a] + xs)[a.value.id].memory == a.value
    decreases |xs|
  {
    var all := [a] + xs;
    if xs == [] {
      assert all[..0] == [] && all[0] == a;
    } else {
      assert all[..|all| - 1] == [a] + xs[..|xs| - 1];
      FirstIsKept(a, xs[..|xs| - 1]);
    }
  }

  // Any addition of a list can be met first.
  lemma MovedFirst(xs: seq<Addition>, a: Addition) returns (rest: seq<Addition>)
    requires a in xs
    ensures multiset([a] + rest) == multiset(xs)
  {
    var i :| 0 <= i < |xs| && xs[i] == a;
    rest := xs[..i] + xs[i + 1..];
    assert xs == xs[..i] + [a] + xs[i + 1..];
  }

  lemma PermutedSame(xs: seq<Addition>, ys: seq<Addition>)
    requires multiset(xs) == multiset(ys)
    ensures SameAdditions(xs, ys)
  {
    forall a
      ensures a in xs <==> a in ys
    {
      assert a in xs <==> a in multiset(xs);
      assert a in ys <==> a in multiset(ys);
    }
  }

  // The order of adding is irrelevant exactly when the additions saw the same value of
  // each record: then no order and no repetition matters, otherwise two of their
  // permutations make different candidates.
  lemma OrderIrrelevantExactly(xs: seq<Addition>)
    ensures Agree(xs) <==> forall ys :: SameAdditions(xs, ys) ==> AddAll(map[], ys) == AddAll(map[], xs)
    ensures Agree(xs) <==> forall ys :: multiset(ys) == multiset(xs) ==> AddAll(map[], ys) == AddAll(map[], xs)
  {
    hide AddAll;
    forall ys | multiset(ys) == multiset(xs)
      ensures SameAdditions(xs, ys)
    {
      PermutedSame(xs, ys);
    }
    if Agree(xs) {
      forall ys | SameAdditions(xs, ys)
        ensures AddAll(map[], ys) == AddAll(map[], xs)
      {
        MergeOrderIndependent(xs, ys);
      }
    } else {
      var a, b :| a in xs && b in xs && a.value.id == b.value.id && a.value != b.value;
      var withoutA := MovedFirst(xs, a);
      var withoutB := MovedFirst(xs, b);
      FirstIsKept(a, withoutA);
      FirstIsKept(b, withoutB);
    }
  }

  // The whole ranked list depends only on the set of additions.
  lemma RankingOrderIndependent(xs: seq<Addition>, ys: seq<Addition>, ranked: seq<Item>, other: seq<Item>)
    requires SameAdditions(xs, ys) && Agree(xs)
    requires Ranked(AddAll(map[], xs), ranked) && Ranked(AddAll(map[], ys), other)
    ensures ranked == other
  {
    hide AddAll, Ranked, Agree;
    MergeOrderIndependent(xs, ys);
    MergeOwnIDs(xs);
    RankedUnique(AddAll(map[], xs), ranked, other);
  }

  lemma MergeOwnIDs(adds: seq<Addition>)
    ensures OwnIDs(AddAll(map[], adds))
  {
    hide AddAll;
    forall id | id in AddAll(map[], adds)
      ensures AddAll(map[], adds)[id].memory.id == id
    {
      MergeIsBest(adds, id);
    }
  }

  lemma {:induction false} FirstOf(c: Candidates) returns (best: string)
    requires c != map[] && OwnIDs(c)
    ensures best in c && forall id :: id in c && id != best ==> Before(c[best], c[id])
    decreases c.Keys
  {
    hide Before;
    var id :| id in c;
    var rest := c - {id};
    best := id;
    if rest != map[] {
      var other := FirstOf(rest);
      BeforeOrders(c[id], c[other], c[other]);
      best := if Before(c[id], c[other]) then id else other;
      forall k | k in c && k != best
        ensures Before(c[best], c[k])
      {
        if k != id {
          assert rest[k] == c[k];
          BeforeOrders(c[id], c[other], c[k]);
        }
      }
    } else {
      assert forall k :: k in c && k != id ==> k in rest;
    }
  }

  // Any candidates can be ranked.
  lemma {:induction false} RankedExists(c: Candidates) returns (items: seq<Item>)
    requires OwnIDs(c)
    ensures Ranked(c, items)
    decreases c.Keys
  {
    hide Before;
    if c == map[] {
      items := [];
    } else {
      var best := FirstOf(c);
      var rest := RankedExists(c - {best});
      items := [c[best]] + rest;
      forall id | id in c
        ensures c[id] in items
      {
        if id != best {
          assert (c - {best})[id] in rest;
        }
      }
    }
  }

  lemma RankedDetermines(c: Candidates, d: Candidates, items: seq<Item>)
    requires OwnIDs(c) && OwnIDs(d) && Ranked(c, items) && Ranked(d, items)
    ensures c == d
  {
    hide Before;
    forall id
      ensures (id in c <==> id in d) && (id in c ==> c[id] == d[id])
    {
      if id in c {
        assert c[id] in items;
      }
      if id in d {
        assert d[id] in items;
      }
    }
  }

  // The order of adding is irrelevant to the ranked list under exactly the same condition.
  lemma RankingOrderIrrelevantExactly(xs: seq<Addition>)
    ensures Agree(xs) <==>
              forall ys, ranked, other ::
                SameAdditions(xs, ys) && Ranked(AddAll(map[], xs), ranked) && Ranked(AddAll(map[], ys), other) ==> ranked == other
  {
    hide AddAll, Ranked, Agree, SameAdditions, OwnIDs;
    if Agree(xs) {
      forall ys, ranked, other | SameAdditions(xs, ys) && Ranked(AddAll(map[], xs), ranked) && Ranked(AddAll(map[], ys), other)
        ensures ranked == other
      {
        RankingOrderIndependent(xs, ys, ranked, other);
      }
    } else {
      OrderIrrelevantExactly(xs);
      var ys :| SameAdditions(xs, ys) && AddAll(map[], ys) != AddAll(map[], xs);
      MergeOwnIDs(xs);
      MergeOwnIDs(ys);
      var ranked := RankedExists(AddAll(map[], xs));
      var other := RankedExists(AddAll(map[], ys));
      assert ranked != other by {
        if ranked == other {
          RankedDetermines(AddAll(map[], xs), AddAll(map[], ys), ranked);
        }
      }
      assert SameAdditions(xs, ys) && Ranked(AddAll(map[], xs), ranked) && Ranked(AddAll(map[], ys), other);
    }
  }

  // ---- The cut ----

  lemma {:induction false} FittingAll(items: seq<Item>, budget: nat)
    ensures |Fitting(items, budget)| == |items| <==> Fitting(items, budget) == items
    ensures forall item :: item in Fitting(items, budget) ==> item in items
  {
    if items != [] {
      FittingAll(items[..|items| - 1], budget);
      assert items == items[..|items| - 1] + [items[|items| - 1]];
    }
  }

  // An item left out would not have fitted behind those taken before it.
  lemma {:induction false} LeftOutDidNotFit(items: seq<Item>, budget: nat, i: nat)
    requires i < |items| && items[i] !in Fitting(items, budget)
    ensures Used(Fitting(items[..i], budget)) + |PromptOf(items[i].memory)| > budget
    decreases |items|
  {
    hide PromptOf, Decimal;
    var last := |items| - 1;
    if i < last {
      assert items[..last][..i] == items[..i];
      LeftOutDidNotFit(items[..last], budget, i);
    }
  }

  // Whatever a recall returns is the owner's, active and in scope, and every gathered
  // record it returns was gathered.
  lemma ItemsAdmissible(request: Request, plan: Option<Plan>, now: Time, adds: seq<Addition>, ranked: seq<Item>, target: nat, budget: nat, item: Item)
    requires forall a :: a in adds ==> Admissible(request, plan, now, a)
    requires Ranked(AddAll(map[], adds), ranked) && item in Fitting(Top(ranked, target), budget)
    ensures item.memory.owner == request.owner && ActiveAt(item.memory, now) && InScope(request, plan, item.memory)
    ensures Best(adds, item.memory.id, item)
  {
    hide AddAll, Fitting, PromptOf, InScope, ActiveAt;
    FittingAll(Top(ranked, target), budget);
    assert item in ranked;
    var i :| 0 <= i < |ranked| && ranked[i] == item;
    MergeIsBest(adds, item.memory.id);
    var a :| a in adds && a.value.id == item.memory.id && a.value == item.memory;
  }
}
