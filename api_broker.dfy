/** The HTTP API's `EventBroker`: per job, the list of subscriber queues
    that progress events are fanned out to. A queue is named by a handle;
    its contents are the events put into it so far. */
module ApiBroker {
  import opened Basics
  import opened JsonValues

  /** `list.remove(x)`: drops the first occurrence of `x`. */
  function RemoveFirst(s: seq<nat>, x: nat): (r: seq<nat>)
    ensures x !in s ==> r == s
    ensures x in s ==> |r| == |s| - 1 && multiset(r) == multiset(s) - multiset{x}
    ensures forall y :: y in r ==> y in s
  {
    if s == [] then []
    else
      assert s == [s[0]] + s[1..];
      if s[0] == x then s[1..] else [s[0]] + RemoveFirst(s[1..], x)
  }

  lemma {:induction false} RemoveFirstNoDup(s: seq<nat>, x: nat)
    requires NoDup(s)
    ensures NoDup(RemoveFirst(s, x)) && x !in RemoveFirst(s, x)
  {
    if s != [] && s[0] != x {
      RemoveFirstNoDup(s[1..], x);
      var r := RemoveFirst(s, x);
      assert s[0] !in s[1..];
      assert r == [s[0]] + RemoveFirst(s[1..], x);
    }
  }

  /** The subscriber map after `unsubscribe(job_id, queue)`: nothing for an
      unknown job; otherwise the queue is removed from the job's list and
      the job's entry is dropped once its list is empty. */
  function Unsubscribed(subs: map<string, seq<nat>>, jobId: string, q: nat): (r: map<string, seq<nat>>)
    ensures jobId !in subs || subs[jobId] == [] ==> r == subs
    ensures forall j :: j != jobId ==> (j in r <==> j in subs) && (j in r ==> r[j] == subs[j])
    ensures jobId in subs && subs[jobId] != [] ==>
      (jobId in r <==> RemoveFirst(subs[jobId], q) != []) && (jobId in r ==> r[jobId] == RemoveFirst(subs[jobId], q))
  {
    if jobId !in subs || subs[jobId] == [] then subs
    else
      var rest := RemoveFirst(subs[jobId], q);
      if rest == [] then subs - {jobId} else subs[jobId := rest]
  }

  /** Subscriber lists never hold an empty list nor the same queue twice,
      and no queue serves two jobs. */
  ghost predicate WellFormed(subs: map<string, seq<nat>>) {
    && (forall j :: j in subs ==> subs[j] != [] && NoDup(subs[j]))
    && (forall j1, j2, q :: j1 in subs && j2 in subs && q in subs[j1] && q in subs[j2] ==> j1 == j2)
  }

  /** Unsubscribing keeps the lists well formed and the queue is gone from
      its job's list. */
  lemma UnsubscribeKeepsWellFormed(subs: map<string, seq<nat>>, jobId: string, q: nat)
    requires WellFormed(subs)
    ensures WellFormed(Unsubscribed(subs, jobId, q))
    ensures jobId in Unsubscribed(subs, jobId, q) ==> q !in Unsubscribed(subs, jobId, q)[jobId]
  {
    if jobId in subs {
      RemoveFirstNoDup(subs[jobId], q);
    }
  }

  /** Unsubscribing the queue that was subscribed last restores the
      subscriber map: `unsubscribe` undoes `subscribe`. */
  lemma SubscribeUnsubscribe(subs: map<string, seq<nat>>, jobId: string, q: nat)
    requires WellFormed(subs)
    requires jobId in subs ==> q !in subs[jobId]
    ensures var prior := if jobId in subs then subs[jobId] else [];
      Unsubscribed(subs[jobId := prior + [q]], jobId, q) == subs
  {
    if jobId in subs {
      UnsubscribeLast(subs, jobId, q);
    } else {
      UnsubscribeOnly(subs, jobId, q);
    }
  }

  lemma UnsubscribeOnly(subs: map<string, seq<nat>>, jobId: string, q: nat)
    requires jobId !in subs
    ensures Unsubscribed(subs[jobId := [q]], jobId, q) == subs
  {
    var after := subs[jobId := [q]];
    assert RemoveFirst([q], q) == [];
    var r := Unsubscribed(after, jobId, q);
    assert r == after - {jobId};
    assert forall j :: j in r <==> j in subs;
  }

  lemma UnsubscribeLast(subs: map<string, seq<nat>>, jobId: string, q: nat)
    requires jobId in subs && subs[jobId] != [] && q !in subs[jobId]
    ensures Unsubscribed(subs[jobId := subs[jobId] + [q]], jobId, q) == subs
  {
    var prior := subs[jobId];
    RemoveFirstLast(prior, q);
    var after := subs[jobId := prior + [q]];
    assert Unsubscribed(after, jobId, q) == after[jobId := prior];
    assert after[jobId := prior] == subs[jobId := prior];
  }

  /** Removing a queue that was appended last restores the list. */
  lemma {:induction false} RemoveFirstLast(s: seq<nat>, q: nat)
    requires q !in s
    ensures RemoveFirst(s + [q], q) == s
  {
    if s != [] {
      assert (s + [q])[1..] == s[1..] + [q];
      RemoveFirstLast(s[1..], q);
    }
  }

  class EventBroker {
    /** `_subscribers`: job id to the handles of its queues, in
        subscription order. */
    var subscribers: map<string, seq<nat>>
    /** Contents of every queue created so far. */
    var queues: map<nat, seq<Fields>>
    /** The handle the next `subscribe` creates. */
    var nextQueue: nat

    ghost predicate Valid()
      reads this
    {
      && WellFormed(subscribers)
      && (forall j, q :: j in subscribers && q in subscribers[j] ==> q in queues)
      && (forall q :: q in queues ==> q < nextQueue)
    }

    constructor()
      ensures Valid()
      ensures subscribers == map[] && queues == map[]
    {
      subscribers := map[];
      queues := map[];
      nextQueue := 0;
    }

    /** `subscribe`: a new empty queue is appended to the job's list. */
    method Subscribe(jobId: string) returns (q: nat)
      requires Valid()
      modifies this
      ensures Valid()
      ensures q !in old(queues) && queues == old(queues)[q := []]
      ensures subscribers == old(subscribers)[jobId := old(if jobId in subscribers then subscribers[jobId] else []) + [q]]
    {
      q := nextQueue;
      assert q !in queues;
      assert forall j :: j in subscribers ==> q !in subscribers[j];
      var current := if jobId in subscribers then subscribers[jobId] else [];
      nextQueue := nextQueue + 1;
      queues := queues[q := []];
      subscribers := subscribers[jobId := current + [q]];
    }

    /** `unsubscribe`: see `Unsubscribed`; queue contents are untouched. */
    method Unsubscribe(jobId: string, q: nat)
      requires Valid()
      modifies this
      ensures Valid()
      ensures subscribers == Unsubscribed(old(subscribers), jobId, q)
      ensures queues == old(queues) && nextQueue == old(nextQueue)
    {
      UnsubscribeKeepsWellFormed(subscribers, jobId, q);
      subscribers := Unsubscribed(subscribers, jobId, q);
    }

    /** `publish`: the event is put into every queue registered for the job
        at the time of the call, and into no other queue. */
    method Publish(jobId: string, event: Fields)
      requires Valid()
      modifies this
      ensures Valid()
      ensures subscribers == old(subscribers) && nextQueue == old(nextQueue)
      ensures queues.Keys == old(queues).Keys
      ensures forall q :: q in queues ==>
        queues[q] == old(queues)[q] + (if jobId in subscribers && q in subscribers[jobId] then [event] else [])
    {
      var targets := if jobId in subscribers then subscribers[jobId] else [];
      var i := 0;
      while i < |targets|
        invariant 0 <= i <= |targets|
        invariant subscribers == old(subscribers) && nextQueue == old(nextQueue)
        invariant queues.Keys == old(queues).Keys
        invariant forall q :: q in queues ==>
          queues[q] == old(queues)[q] + (if q in targets[..i] then [event] else [])
      {
        var q := targets[i];
        assert q in queues;
        assert q !in targets[..i] by {
          assert forall k :: 0 <= k < i ==> targets[k] != targets[i];
        }
        queues := queues[q := queues[q] + [event]];
        assert targets[..i + 1] == targets[..i] + [q];
        i := i + 1;
      }
      assert targets[..i] == targets;
    }
  }
}
