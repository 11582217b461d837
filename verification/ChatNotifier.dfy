// Who waits for a run: a list of channels per run, each closed by the next notification.
module ChatNotifierSpec {

  type Channel = nat
  type Waiters = map<string, seq<Channel>>

  function Waiting(w: Waiters, runID: string): seq<Channel> {
    if runID in w then w[runID] else []
  }

  function Subscribed(w: Waiters, runID: string, ch: Channel): Waiters {
    w[runID := Waiting(w, runID) + [ch]]
  }

  function Without(list: seq<Channel>, ch: Channel): (r: seq<Channel>)
    ensures forall c :: c in r ==> c in list
  {
    if list == [] then []
    else if list[0] == ch then list[1..]
    else [list[0]] + Without(list[1..], ch)
  }

  function Unsubscribed(w: Waiters, runID: string, ch: Channel): Waiters {
    var rest := Without(Waiting(w, runID), ch);
    if ch !in Waiting(w, runID) then w
    else if rest == [] then w - {runID}
    else w[runID := rest]
  }

  // Every channel is in at most one place of at most one list.
  ghost predicate Distinct(list: seq<Channel>) {
    forall i, j :: 0 <= i < j < |list| ==> list[i] != list[j]
  }

  lemma {:induction false} WithoutSplits(list: seq<Channel>, k: nat, ch: Channel)
    requires k < |list| && list[k] == ch && ch !in list[..k]
    ensures Without(list, ch) == list[..k] + list[k + 1..]
  {
    if k > 0 {
      assert list[0] in list[..k];
      assert list[1..][..k - 1] == list[..k][1..];
      WithoutSplits(list[1..], k - 1, ch);
      assert list[..k] == [list[0]] + list[1..][..k - 1];
    }
  }

  // Removing a channel of a distinct list removes it and nothing else.
  lemma {:induction false} WithoutRemoves(list: seq<Channel>, ch: Channel)
    requires Distinct(list)
    ensures Distinct(Without(list, ch))
    ensures forall c :: c in Without(list, ch) <==> c in list && c != ch
  {
    if list != [] {
      var rest := list[1..];
      assert list == [list[0]] + rest;
      assert list[0] !in rest;
      WithoutRemoves(rest, ch);
      if list[0] != ch {
        ConsDistinct(list[0], Without(rest, ch));
      }
    }
  }

  lemma ConsDistinct(ch: Channel, list: seq<Channel>)
    requires Distinct(list) && ch !in list
    ensures Distinct([ch] + list)
  {
  }

  // Waiting channels are open, known, and each waits once and for one run.
  ghost predicate Consistent(w: Waiters, next: Channel, closed: set<Channel>) {
    && (forall run :: run in w ==> w[run] != [])
    && (forall run :: Distinct(Waiting(w, run)))
    && (forall run, ch :: ch in Waiting(w, run) ==> ch < next)
    && (forall run, ch :: ch in Waiting(w, run) ==> ch !in closed)
    && (forall a, b, ch :: ch in Waiting(w, a) && ch in Waiting(w, b) ==> a == b)
    && (forall ch :: ch in closed ==> ch < next)
  }

  lemma SubscribedWaiting(w: Waiters, runID: string, ch: Channel, run: string)
    ensures Waiting(Subscribed(w, runID, ch), run) == if run == runID then Waiting(w, run) + [ch] else Waiting(w, run)
  {
  }

  lemma UnsubscribedWaiting(w: Waiters, runID: string, ch: Channel, run: string)
    requires Distinct(Waiting(w, runID))
    ensures Distinct(Waiting(Unsubscribed(w, runID, ch), runID))
    ensures run != runID ==> Waiting(Unsubscribed(w, runID, ch), run) == Waiting(w, run)
    ensures forall c :: c in Waiting(Unsubscribed(w, runID, ch), runID) <==> c in Waiting(w, runID) && c != ch
  {
    WithoutRemoves(Waiting(w, runID), ch);
  }

  lemma SubscribedConsistent(w: Waiters, next: Channel, closed: set<Channel>, runID: string)
    requires Consistent(w, next, closed)
    ensures Consistent(Subscribed(w, runID, next), next + 1, closed)
  {
    var t := Subscribed(w, runID, next);
    forall run
      ensures Distinct(Waiting(t, run))
      ensures forall ch :: ch in Waiting(t, run) <==> ch in Waiting(w, run) || (ch == next && run == runID)
    {
      SubscribedWaiting(w, runID, next, run);
      assert Distinct(Waiting(w, run)) && next !in Waiting(w, run);
    }
    forall a, b, ch | ch in Waiting(t, a) && ch in Waiting(t, b)
      ensures a == b
    {
    }
  }

  // Taking a run's list and closing all of it keeps the rest consistent.
  lemma TakenConsistent(w: Waiters, next: Channel, closed: set<Channel>, runID: string)
    requires Consistent(w, next, closed)
    ensures Consistent(w - {runID}, next, closed + set ch | ch in Waiting(w, runID))
  {
    var t := w - {runID};
    forall run
      ensures Waiting(t, run) == if run == runID then [] else Waiting(w, run)
    {
    }
  }

  lemma UnsubscribedConsistent(w: Waiters, next: Channel, closed: set<Channel>, runID: string, ch: Channel)
    requires Consistent(w, next, closed)
    ensures Consistent(Unsubscribed(w, runID, ch), next, closed)
  {
    var t := Unsubscribed(w, runID, ch);
    forall run
      ensures Distinct(Waiting(t, run))
      ensures forall c :: c in Waiting(t, run) ==> c in Waiting(w, run)
    {
      UnsubscribedWaiting(w, runID, ch, run);
    }
  }
}

module ChatNotifier {
  import opened ChatNotifierSpec

  // Closing a closed channel panics, so every close must find its channel open.
  class Notifier {
    var waiters: Waiters
    var next: Channel
    var closed: set<Channel>

    ghost predicate Valid()
      reads this
    {
      Consistent(waiters, next, closed)
    }

    constructor ()
      ensures Valid() && waiters == map[] && closed == {} && next == 0
    {
      waiters, next, closed := map[], 0, {};
    }

    method Subscribe(runID: string) returns (ch: Channel)
      requires Valid()
      modifies this
      ensures Valid()
      ensures ch == old(next) && next == ch + 1 && closed == old(closed)
      ensures waiters == Subscribed(old(waiters), runID, ch)
    {
      SubscribedConsistent(waiters, next, closed, runID);
      ch := next;
      next := next + 1;
      waiters := waiters[runID := (if runID in waiters then waiters[runID] else []) + [ch]];
    }

    method Unsubscribe(runID: string, ch: Channel)
      requires Valid()
      modifies `waiters
      ensures Valid()
      ensures waiters == Unsubscribed(old(waiters), runID, ch)
      ensures ch !in Waiting(waiters, runID)
    {
      var list := if runID in waiters then waiters[runID] else [];
      UnsubscribedConsistent(waiters, next, closed, runID, ch);
      UnsubscribedWaiting(waiters, runID, ch, runID);
      for i := 0 to |list|
        invariant ch !in list[..i]
      {
        if list[i] == ch {
          WithoutSplits(list, i, ch);
          var rest := list[..i] + list[i + 1..];
          waiters := waiters[runID := rest];
          if rest == [] {
            waiters := waiters - {runID};
            assert waiters == old(waiters) - {runID};
          }
          assert waiters == Unsubscribed(old(waiters), runID, ch);
          return;
        }
      }
    }

    // The list is taken under the lock and its channels are closed afterwards.
    method Notify(runID: string)
      requires Valid()
      modifies this
      ensures Valid()
      ensures next == old(next) && waiters == old(waiters) - {runID}
      ensures closed == old(closed) + set ch | ch in Waiting(old(waiters), runID)
    {
      var list := if runID in waiters then waiters[runID] else [];
      TakenConsistent(waiters, next, closed, runID);
      waiters := waiters - {runID};
      for i := 0 to |list|
        invariant closed == old(closed) + set ch | ch in list[..i]
        invariant waiters == old(waiters) - {runID} && next == old(next)
      {
        assert list[i] !in closed;
        closed := closed + {list[i]};
        assert list[..i + 1] == list[..i] + [list[i]];
      }
      assert list[..|list|] == list;
    }
  }
}
