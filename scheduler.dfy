/**
 * The deferred-event store of event.py: a module-level dictionary from an
 * (even) time bucket to the list of events due in that bucket. Every event
 * carries one type tag and the participants that share it; `emit` files a
 * participant under its bucket, joining the event of the same type when the
 * bucket already has one, and `get` removes and returns a whole bucket.
 *
 * The participants are left generic: event.py stores whatever object it is
 * handed (an agent in its demo).
 */
module Scheduler {

  // The event type tags of event.py.
  const AgentGoWork: int := 0
  const AgentTraverse: int := 1
  const AgentGoHome: int := 2
  const AgentInfected: int := 3
  const AgentRemoved: int := 4

  /** One pending event: a type tag and the participants that share it. */
  datatype Event<A> = Event(kind: int, agents: seq<A>)

  /** The store: time bucket to the events due then, in insertion order. */
  type Store<A> = map<int, seq<Event<A>>>

  /**
   * The bucket `emit` files a target time under. Python's `%` floors and
   * Dafny's is Euclidean; for the divisor 2 both give 0 or 1, so negative
   * times round up to the next even number as well.
   */
  function Bucket(t: int): (b: int)
    ensures b % 2 == 0
    ensures t <= b <= t + 1
  {
    t + t % 2
  }

  /** Within a bucket no two events share a type. */
  predicate UniqueKinds<A>(bucket: seq<Event<A>>)
  {
    forall i, j :: 0 <= i < j < |bucket| ==> bucket[i].kind != bucket[j].kind
  }

  /** The type tags of a bucket, in bucket order. */
  function Kinds<A>(bucket: seq<Event<A>>): (ks: seq<int>)
    ensures |ks| == |bucket|
    ensures forall i :: 0 <= i < |bucket| ==> ks[i] == bucket[i].kind
  {
    if bucket == [] then [] else [bucket[0].kind] + Kinds(bucket[1..])
  }

  /** The participants of the event of type `kind` in a bucket (none if absent). */
  function AgentsOf<A>(bucket: seq<Event<A>>, kind: int): seq<A>
  {
    if bucket == [] then []
    else if bucket[0].kind == kind then bucket[0].agents
    else AgentsOf(bucket[1..], kind)
  }

  /**
   * Reference definition of what `emit` does to one bucket: the first event
   * of the same type gets the participant appended to its list; when there
   * is none, a new single-participant event goes to the end.
   */
  function Coalesce<A>(bucket: seq<Event<A>>, kind: int, agent: A): (r: seq<Event<A>>)
    ensures |r| == |bucket| || |r| == |bucket| + 1
    ensures r != []
  {
    if bucket == [] then [Event(kind, [agent])]
    else if bucket[0].kind == kind then [Event(kind, bucket[0].agents + [agent])] + bucket[1..]
    else [bucket[0]] + Coalesce(bucket[1..], kind, agent)
  }

  /** What `emit(t, kind, agent)` makes of the whole store. */
  function Emitted<A>(events: Store<A>, t: int, kind: int, agent: A): (r: Store<A>)
    ensures r.Keys == events.Keys + {Bucket(t)}
    ensures forall b :: b in events && b != Bucket(t) ==> r[b] == events[b]
    ensures r[Bucket(t)] != []
  {
    var b := Bucket(t);
    events[b := Coalesce(if b in events then events[b] else [], kind, agent)]
  }

  /** The store invariant `emit` and `get` keep. */
  ghost predicate Valid<A>(events: Store<A>)
  {
    forall b :: b in events ==>
      b % 2 == 0 && events[b] != [] && UniqueKinds(events[b]) &&
      forall i :: 0 <= i < |events[b]| ==> events[b][i].agents != []
  }

  /** When `kind` first occurs at index i, coalescing rewrites exactly that event. */
  lemma {:induction false} CoalesceAtMatch<A>(bucket: seq<Event<A>>, kind: int, agent: A, i: nat)
    requires i < |bucket| && bucket[i].kind == kind
    requires forall j :: 0 <= j < i ==> bucket[j].kind != kind
    ensures Coalesce(bucket, kind, agent) == bucket[i := Event(kind, bucket[i].agents + [agent])]
  {
    if i > 0 {
      CoalesceAtMatch(bucket[1..], kind, agent, i - 1);
      assert bucket[1..][i - 1 := Event(kind, bucket[i].agents + [agent])]
          == bucket[i := Event(kind, bucket[i].agents + [agent])][1..];
    }
  }

  /** Without an event of type `kind`, coalescing appends one new event. */
  lemma {:induction false} CoalesceNoMatch<A>(bucket: seq<Event<A>>, kind: int, agent: A)
    requires forall j :: 0 <= j < |bucket| ==> bucket[j].kind != kind
    ensures Coalesce(bucket, kind, agent) == bucket + [Event(kind, [agent])]
  {
    if bucket != [] {
      CoalesceNoMatch(bucket[1..], kind, agent);
      assert [bucket[0]] + (bucket[1..] + [Event(kind, [agent])]) == bucket + [Event(kind, [agent])];
    }
  }

  /**
   * Coalescing appends the participant to the event of its type, duplicates
   * included, and leaves the participants of every other type alone.
   */
  lemma {:induction false} CoalesceAgents<A>(bucket: seq<Event<A>>, kind: int, agent: A, other: int)
    ensures AgentsOf(Coalesce(bucket, kind, agent), kind) == AgentsOf(bucket, kind) + [agent]
    ensures other != kind ==> AgentsOf(Coalesce(bucket, kind, agent), other) == AgentsOf(bucket, other)
  {
    if bucket != [] && bucket[0].kind != kind {
      CoalesceAgents(bucket[1..], kind, agent, other);
    }
  }

  /**
   * Types keep the order of their first emission: a type already present
   * keeps its place (and the bucket its length), a new one goes last.
   */
  lemma {:induction false} CoalesceKinds<A>(bucket: seq<Event<A>>, kind: int, agent: A)
    ensures kind in Kinds(bucket) ==> Kinds(Coalesce(bucket, kind, agent)) == Kinds(bucket)
    ensures kind !in Kinds(bucket) ==> Kinds(Coalesce(bucket, kind, agent)) == Kinds(bucket) + [kind]
  {
    if bucket != [] && bucket[0].kind != kind {
      CoalesceKinds(bucket[1..], kind, agent);
      assert Kinds(bucket) == [bucket[0].kind] + Kinds(bucket[1..]);
      assert kind in Kinds(bucket) <==> kind in Kinds(bucket[1..]);
    }
  }

  /** The index of the first event of type `kind`, or |bucket| when there is none. */
  function FirstOfKind<A>(bucket: seq<Event<A>>, kind: int): (i: nat)
    ensures i <= |bucket|
    ensures i < |bucket| ==> bucket[i].kind == kind
    ensures forall j :: 0 <= j < i ==> bucket[j].kind != kind
  {
    if bucket == [] then 0
    else if bucket[0].kind == kind then 0
    else 1 + FirstOfKind(bucket[1..], kind)
  }

  /** Coalescing keeps at most one event per type and only non-empty events. */
  lemma CoalesceUnique<A>(bucket: seq<Event<A>>, kind: int, agent: A)
    requires UniqueKinds(bucket)
    requires forall i :: 0 <= i < |bucket| ==> bucket[i].agents != []
    ensures UniqueKinds(Coalesce(bucket, kind, agent))
    ensures forall i :: 0 <= i < |Coalesce(bucket, kind, agent)| ==> Coalesce(bucket, kind, agent)[i].agents != []
  {
    var k := FirstOfKind(bucket, kind);
    var r := Coalesce(bucket, kind, agent);
    if k < |bucket| {
      CoalesceAtMatch(bucket, kind, agent, k);
      assert |r| == |bucket| && forall i :: 0 <= i < |r| ==> r[i].kind == bucket[i].kind;
    } else {
      CoalesceNoMatch(bucket, kind, agent);
      assert |r| == |bucket| + 1 && r[|bucket|] == Event(kind, [agent]);
      assert forall i :: 0 <= i < |bucket| ==> r[i] == bucket[i];
    }
  }

  /** `emit` keeps the store invariant and touches only the target bucket. */
  lemma EmitKeepsValid<A>(events: Store<A>, t: int, kind: int, agent: A)
    requires Valid(events)
    ensures Valid(Emitted(events, t, kind, agent))
    ensures Emitted(events, t, kind, agent).Keys == events.Keys + {Bucket(t)}
    ensures forall b :: b in events && b != Bucket(t) ==> Emitted(events, t, kind, agent)[b] == events[b]
  {
    var b := Bucket(t);
    CoalesceUnique(if b in events then events[b] else [], kind, agent);
  }

  /** In a valid store no bucket is odd, so `get` at an odd time finds nothing. */
  lemma OddTimeHasNoBucket<A>(events: Store<A>, t: int)
    requires Valid(events) && t % 2 == 1
    ensures t !in events
  {
  }

  /**
   * The demo at the bottom of event.py: two emits at time 1 of different
   * types and one at time 2 of the first type all land in bucket 2; the
   * traverse event then carries the agent twice.
   */
  lemma DemoTrace<A>(agent: A)
    ensures var s := Emitted(Emitted(Emitted(map[], 1, AgentTraverse, agent), 1, AgentGoHome, agent), 2, AgentTraverse, agent);
      s.Keys == {2} &&
      s[2] == [Event(AgentTraverse, [agent, agent]), Event(AgentGoHome, [agent])]
  {
    var s1 := Emitted(map[], 1, AgentTraverse, agent);
    assert s1 == map[2 := [Event(AgentTraverse, [agent])]];
    var s2 := Emitted(s1, 1, AgentGoHome, agent);
    CoalesceNoMatch(s1[2], AgentGoHome, agent);
    assert s2[2] == [Event(AgentTraverse, [agent])] + [Event(AgentGoHome, [agent])];
    assert s2.Keys == {2};
    assert s2[2] == [Event(AgentTraverse, [agent]), Event(AgentGoHome, [agent])];
    var s3 := Emitted(s2, 2, AgentTraverse, agent);
    CoalesceAtMatch(s2[2], AgentTraverse, agent, 0);
    assert [agent] + [agent] == [agent, agent];
    assert s3[2] == s2[2][0 := Event(AgentTraverse, [agent, agent])];
  }

  /** The module-level `_events` dictionary of event.py. */
  class EventStore<A> {
    var events: Store<A>

    /** Python starts with an empty `_events`. */
    constructor ()
      ensures events == map[]
    {
      events := map[];
    }

    /** `get(time)`: pop the bucket at exactly `time`, or `[]` when there is none. */
    method Get(time: int) returns (r: seq<Event<A>>)
      modifies this
      ensures r == if time in old(events) then old(events)[time] else []
      ensures events == old(events) - {time}
      ensures Valid(old(events)) ==> Valid(events)
    {
      if time in events {
        r := events[time];
        events := events - {time};
      } else {
        r := [];
      }
    }

    /**
     * `emit(target_time, event_type, agent)`: round the time up to its even
     * bucket, then search the bucket for an event of the same type.
     */
    method Emit(targetTime: int, kind: int, agent: A)
      modifies this
      ensures events == Emitted(old(events), targetTime, kind, agent)
      ensures Valid(old(events)) ==> Valid(events)
    {
      if Valid(events) {
        EmitKeepsValid(events, targetTime, kind, agent);
      }
      var t := targetTime + targetTime % 2;
      if t in events {
        var bucket := events[t];
        var i := 0;
        while i < |bucket|
          invariant 0 <= i <= |bucket|
          invariant forall j :: 0 <= j < i ==> bucket[j].kind != kind
        {
          if bucket[i].kind == kind {
            CoalesceAtMatch(bucket, kind, agent, i);
            events := events[t := bucket[i := Event(kind, bucket[i].agents + [agent])]];
            return;
          }
          i := i + 1;
        }
        CoalesceNoMatch(bucket, kind, agent);
        events := events[t := bucket + [Event(kind, [agent])]];
      } else {
        events := events[t := [Event(kind, [agent])]];
      }
    }
  }
}
