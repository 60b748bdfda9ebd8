/** The Redis side: keys, sorted sets, the queue operations, and the order in
    which the queues are drained. */
module RedisQueues {
  import opened Prelude
  import opened Timing
  import opened Jobs
  import opened Protocol

  // --------------------------------------------------------------- key space

  // A key holds a sorted set or a list; Redis deletes a key that becomes empty.
  datatype Value = Sorted(z: ZSet) | Listed(l: seq<JobId>)
  type Store = map<string, Value>

  datatype QueueError = WrongType | ContextDone | CommandFailed

  const RETRIES_KEY: string := "scheduled:retries"
  const DEAD_KEY: string := "queue:dead-letter"

  function QueueKey(name: string): string { "queue:" + name }

  /** Distinct queues have distinct keys, none of them the retry set; but one
      queue name yields the key of the dead-letter list. */
  lemma KeysApart(a: string, b: string)
    ensures QueueKey(a) == QueueKey(b) <==> a == b
    ensures QueueKey(a) != RETRIES_KEY && RETRIES_KEY != DEAD_KEY
    ensures QueueKey(a) == DEAD_KEY <==> a == DEAD_LETTER
    ensures QueueKey(a) == "queue:" + a && RETRIES_KEY == "scheduled:retries" && DEAD_LETTER == "dead-letter"
  {
    assert QueueKey(a)[6..] == a && QueueKey(b)[6..] == b;
    assert QueueKey(a)[0] == 'q' && RETRIES_KEY[0] == 's';
    assert DEAD_KEY[6..] == DEAD_LETTER && QueueKey(DEAD_LETTER) == DEAD_KEY;
  }

  predicate HoldsList(store: Store, key: string) { key in store && store[key].Listed? }

  predicate HoldsSorted(store: Store, key: string) { key in store && store[key].Sorted? }

  function SortedAt(store: Store, key: string): ZSet {
    if HoldsSorted(store, key) then store[key].z else map[]
  }

  function ListAt(store: Store, key: string): seq<JobId> {
    if HoldsList(store, key) then store[key].l else []
  }

  function PutSorted(store: Store, key: string, z: ZSet): Store {
    if z == map[] then store - {key} else store[key := Sorted(z)]
  }

  lemma PutThenGet(store: Store, key: string, z: ZSet, other: string)
    requires !HoldsList(store, key)
    ensures SortedAt(PutSorted(store, key, z), other) == if other == key then z else SortedAt(store, other)
    ensures HoldsList(PutSorted(store, key, z), other) == HoldsList(store, other)
    ensures ListAt(PutSorted(store, key, z), other) == ListAt(store, other)
  {
  }

  // ------------------------------------------------------------ drain order

  datatype Item = Item(queue: string, id: JobId, score: int)

  /** The member ZPOPMIN removes. */
  ghost function Least(z: ZSet): (id: JobId)
    requires z != map[]
    ensures IsMin(z, id)
  {
    LeastExists(z);
    var id :| IsMin(z, id);
    id
  }

  /** The first queue of the list that is not empty, at or after `from`. */
  function FirstBusy(store: Store, names: seq<string>, from: nat): (i: nat)
    requires from <= |names|
    ensures from <= i <= |names|
    ensures forall k :: from <= k < i ==> SortedAt(store, QueueKey(names[k])) == map[]
    ensures i < |names| ==> SortedAt(store, QueueKey(names[i])) != map[]
    decreases |names| - from
  {
    if from == |names| || SortedAt(store, QueueKey(names[from])) != map[] then from
    else FirstBusy(store, names, from + 1)
  }

  /** A key that holds a list comes before the first queue that is not empty. */
  ghost predicate Blocked(store: Store, names: seq<string>) {
    exists k :: 0 <= k < FirstBusy(store, names, 0) && HoldsList(store, QueueKey(names[k]))
  }

  function Remaining(store: Store, names: seq<string>): nat {
    if names == [] then 0 else |SortedAt(store, QueueKey(names[0]))| + Remaining(store, names[1..])
  }

  function PopFrom(store: Store, name: string, id: JobId): Store {
    PutSorted(store, QueueKey(name), SortedAt(store, QueueKey(name)) - {id})
  }

  lemma MembersAfterPop(store: Store, name: string, id: JobId, other: string)
    requires id in SortedAt(store, QueueKey(name))
    ensures SortedAt(PopFrom(store, name, id), QueueKey(other)) ==
      if other == name then SortedAt(store, QueueKey(other)) - {id} else SortedAt(store, QueueKey(other))
  {
    KeysApart(name, other);
    PutThenGet(store, QueueKey(name), SortedAt(store, QueueKey(name)) - {id}, QueueKey(other));
  }

  lemma PopShrinks(store: Store, names: seq<string>, name: string, id: JobId)
    requires id in SortedAt(store, QueueKey(name))
    ensures Remaining(PopFrom(store, name, id), names) <= Remaining(store, names)
    ensures name in names ==> Remaining(PopFrom(store, name, id), names) < Remaining(store, names)
  {
    if names != [] {
      MembersAfterPop(store, name, id, names[0]);
      var z := SortedAt(store, QueueKey(names[0]));
      if names[0] == name {
        assert (z - {id}).Keys == z.Keys - {id};
        assert |(z - {id}).Keys| < |z.Keys|;
        assert |z - {id}| == |(z - {id}).Keys|;
      }
      PopShrinks(store, names[1..], name, id);
    }
  }

  /** What repeated Dequeue calls return when nothing is enqueued meanwhile. */
  ghost function Drain(store: Store, names: seq<string>): seq<Item>
    decreases Remaining(store, names)
  {
    var i := FirstBusy(store, names, 0);
    if i == |names| then [] else
    var z := SortedAt(store, QueueKey(names[i]));
    var id := Least(z);
    PopShrinks(store, names, names[i], id);
    [Item(names[i], id, z[id])] + Drain(PopFrom(store, names[i], id), names)
  }

  /** The position of a queue in the list of the worker. */
  function Position(names: seq<string>, name: string): nat {
    if names == [] || names[0] == name then 0 else 1 + Position(names[1..], name)
  }

  ghost predicate Waiting(store: Store, names: seq<string>, item: Item) {
    && item.queue in names
    && item.id in SortedAt(store, QueueKey(item.queue))
    && SortedAt(store, QueueKey(item.queue))[item.id] == item.score
  }

  predicate Before(names: seq<string>, a: Item, b: Item) {
    var p, q := Position(names, a.queue), Position(names, b.queue);
    p < q || (p == q && (a.score < b.score || (a.score == b.score && a.id < b.id)))
  }

  lemma {:induction false} PositionAt(names: seq<string>, name: string)
    requires name in names
    ensures Position(names, name) < |names| && names[Position(names, name)] == name
    ensures forall k :: 0 <= k < Position(names, name) ==> names[k] != name
  {
    if names[0] != name {
      PositionAt(names[1..], name);
      forall k | 0 <= k < Position(names, name) ensures names[k] != name {
        if k > 0 { assert names[k] == names[1..][k - 1]; }
      }
    }
  }

  lemma PositionOfFirstBusy(store: Store, names: seq<string>)
    requires FirstBusy(store, names, 0) < |names|
    ensures Position(names, names[FirstBusy(store, names, 0)]) == FirstBusy(store, names, 0)
  {
    var i := FirstBusy(store, names, 0);
    PositionAt(names, names[i]);
  }

  /** Draining returns exactly what the listed queues hold. */
  lemma {:induction false} DrainReturns(store: Store, names: seq<string>, item: Item)
    ensures item in Drain(store, names) <==> Waiting(store, names, item)
    decreases Remaining(store, names)
  {
    var i := FirstBusy(store, names, 0);
    if i == |names| {
      if item.queue in names { PositionAt(names, item.queue); }
    } else {
      var z := SortedAt(store, QueueKey(names[i]));
      var id := Least(z);
      PopShrinks(store, names, names[i], id);
      DrainReturns(PopFrom(store, names[i], id), names, item);
      MembersAfterPop(store, names[i], id, item.queue);
    }
  }

  /** The head of the drain is before everything else that waits. */
  lemma HeadIsFirst(store: Store, names: seq<string>, item: Item)
    requires FirstBusy(store, names, 0) < |names|
    requires var i := FirstBusy(store, names, 0);
      Waiting(PopFrom(store, names[i], Least(SortedAt(store, QueueKey(names[i])))), names, item)
    ensures Before(names, Drain(store, names)[0], item)
  {
    var i := FirstBusy(store, names, 0);
    var id := Least(SortedAt(store, QueueKey(names[i])));
    MembersAfterPop(store, names[i], id, item.queue);
    PositionOfFirstBusy(store, names);
    PositionAt(names, item.queue);
  }

  /** Drain order: queue by queue in the order of the list, inside a queue by
      score and then by id. With `DrainReturns`, every id of the listed queues
      comes out exactly once. */
  lemma {:induction false} DrainIsOrdered(store: Store, names: seq<string>, j: nat, k: nat)
    requires j < k < |Drain(store, names)|
    ensures Before(names, Drain(store, names)[j], Drain(store, names)[k])
    ensures Drain(store, names)[j] != Drain(store, names)[k]
    ensures Drain(store, names)[j].queue == Drain(store, names)[k].queue ==>
      Drain(store, names)[j].score < Drain(store, names)[k].score
      || (Drain(store, names)[j].score == Drain(store, names)[k].score && Drain(store, names)[j].id < Drain(store, names)[k].id)
    decreases Remaining(store, names)
  {
    hide PopFrom;
    var rest := DrainUnfolds(store, names);
    if j > 0 {
      DrainIsOrdered(rest, names, j - 1, k - 1);
    } else {
      var item := Drain(rest, names)[k - 1];
      assert item in Drain(rest, names);
      DrainReturns(rest, names, item);
      HeadIsFirst(store, names, item);
      NotBeforeItself(names, item);
    }
  }

  lemma NotBeforeItself(names: seq<string>, item: Item)
    ensures !Before(names, item, item)
  {
  }

  /** A drain that is not empty: its head, then the drain of what is left. */
  lemma DrainUnfolds(store: Store, names: seq<string>) returns (rest: Store)
    requires Drain(store, names) != []
    ensures FirstBusy(store, names, 0) < |names|
    ensures var i := FirstBusy(store, names, 0);
      rest == PopFrom(store, names[i], Least(SortedAt(store, QueueKey(names[i]))))
    ensures Drain(store, names) == [Drain(store, names)[0]] + Drain(rest, names)
    ensures Remaining(rest, names) < Remaining(store, names)
  {
    var i := FirstBusy(store, names, 0);
    var id := Least(SortedAt(store, QueueKey(names[i])));
    PopShrinks(store, names, names[i], id);
    rest := PopFrom(store, names[i], id);
  }

  /** The key space after draining. */
  ghost function Drained(store: Store, names: seq<string>): Store
    decreases Remaining(store, names)
  {
    var i := FirstBusy(store, names, 0);
    if i == |names| then store else
    var id := Least(SortedAt(store, QueueKey(names[i])));
    PopShrinks(store, names, names[i], id);
    Drained(PopFrom(store, names[i], id), names)
  }

  /** Draining empties the listed queues and touches no other key: not the other
      queues, nor the retry set, nor the dead-letter list. */
  lemma {:induction false} DrainTouchesOnlyListed(store: Store, names: seq<string>, key: string)
    ensures SortedAt(Drained(store, names), key) == map[] || key !in KeysOf(names)
    ensures key !in KeysOf(names) ==> (key in Drained(store, names) <==> key in store)
    ensures key !in KeysOf(names) && key in store ==> Drained(store, names)[key] == store[key]
    decreases Remaining(store, names)
  {
    var i := FirstBusy(store, names, 0);
    if i < |names| {
      var id := Least(SortedAt(store, QueueKey(names[i])));
      PopShrinks(store, names, names[i], id);
      DrainTouchesOnlyListed(PopFrom(store, names[i], id), names, key);
      assert QueueKey(names[i]) in KeysOf(names);
    }
  }

  function KeysOf(names: seq<string>): set<string> { set i | 0 <= i < |names| :: QueueKey(names[i]) }

  /** In one queue, with exact scores, a waiting job of priority q written at u is
      overtaken only by jobs of priority p written by u + (p - q) * 10^9 ms. */
  lemma OvertakenOnlyByAge(z: ZSet, a: JobId, b: JobId, p: int, t: int, q: int, u: int)
    requires a in z && b in z && InExactRange(p, t) && InExactRange(q, u)
    requires z[a] == PriorityScore(p, t) && z[b] == PriorityScore(q, u)
    requires IsMin(z, a)
    ensures t - u <= (p - q) * 1_000_000_000
  {
    ScoreOrderIff(p, t, q, u);
    ScoreOrderIff(q, u, p, t);
  }

  // --------------------------------------------------------------- due ids

  function DueEntries(z: ZSet, now: Time): ZSet { map id | id in z && z[id] <= Unix(now) :: z[id] }

  /** The members of a sorted set in its order. */
  ghost function InOrder(z: ZSet): seq<JobId>
    decreases |z|
  {
    if z == map[] then [] else
    var id := Least(z);
    assert z.Keys == (z - {id}).Keys + {id};
    [id] + InOrder(z - {id})
  }

  predicate Ahead(z: ZSet, a: JobId, b: JobId)
    requires a in z && b in z
  {
    z[a] < z[b] || (z[a] == z[b] && a < b)
  }

  lemma InOrderUnfolds(z: ZSet)
    requires z != map[]
    ensures Least(z) in z && |z - {Least(z)}| < |z|
    ensures InOrder(z) == [Least(z)] + InOrder(z - {Least(z)})
  {
    assert z.Keys == (z - {Least(z)}).Keys + {Least(z)};
  }

  lemma InOrderFrom(z: ZSet, id: JobId, before: seq<JobId>)
    requires id in z && IsMin(z, id)
    ensures |z - {id}| < |z| && before + InOrder(z) == (before + [id]) + InOrder(z - {id})
  {
    hide InOrder;
    InOrderUnfolds(z);
    assert id == Least(z);
    assert before + ([id] + InOrder(z - {id})) == (before + [id]) + InOrder(z - {id});
  }

  lemma {:induction false} InOrderMembers(z: ZSet, id: JobId)
    ensures id in InOrder(z) <==> id in z
    decreases |z|
  {
    hide InOrder, IsMin;
    if z != map[] {
      InOrderUnfolds(z);
      InOrderMembers(z - {Least(z)}, id);
    } else {
      assert InOrder(z) == [] by { NothingInOrder(); }
    }
  }

  lemma NothingInOrder()
    ensures InOrder(map[]) == []
  {
  }

  /** The members, each once, by score and then by id. */
  lemma {:induction false} InOrderIsOrdered(z: ZSet, i: nat, j: nat)
    requires i < j < |InOrder(z)|
    ensures InOrder(z)[i] in z && InOrder(z)[j] in z && Ahead(z, InOrder(z)[i], InOrder(z)[j])
    decreases |z|
  {
    hide InOrder, IsMin, Ahead;
    if z == map[] {
      NothingInOrder();
    } else {
      var id := Least(z);
      var rest := InOrder(z - {id});
      InOrderUnfolds(z);
      assert rest[j - 1] in rest;
      InOrderMembers(z - {id}, rest[j - 1]);
      if i == 0 {
        LeastIsAhead(z, rest[j - 1]);
      } else {
        InOrderIsOrdered(z - {id}, i - 1, j - 1);
        AheadStays(z, id, rest[i - 1], rest[j - 1]);
      }
    }
  }

  /** An entry is due when its second has begun. */
  lemma DueIsDue(z: ZSet, now: Time)
    ensures forall id :: id in InOrder(DueEntries(z, now)) <==> id in z && z[id] * 1_000_000_000 <= now
  {
    hide InOrder;
    ClockReadings(now);
    forall id ensures id in InOrder(DueEntries(z, now)) <==> id in z && z[id] * 1_000_000_000 <= now {
      InOrderMembers(DueEntries(z, now), id);
    }
  }

  lemma LeastIsAhead(z: ZSet, other: JobId)
    requires other in z && other != Least(z)
    ensures Ahead(z, Least(z), other)
  {
  }

  lemma AheadStays(z: ZSet, id: JobId, a: JobId, b: JobId)
    requires a in z - {id} && b in z - {id} && Ahead(z - {id}, a, b)
    ensures Ahead(z, a, b)
  {
  }

  // ------------------------------------------------------------- operations

  class RedisQueue {
    var store: Store

    constructor ()
      ensures store == map[]
    {
      store := map[];
    }

    method Enqueue(job: Job, now: Time) returns (r: Result<(), QueueError>)
      modifies this
      ensures r == EnqueueSpec(old(store), job, now).1 && store == EnqueueSpec(old(store), job, now).0
      ensures r.Ok? && InExactRange(job.priority, now / 1_000_000) ==>
        && job.id in SortedAt(store, "queue:" + job.queue)
        && var millis := SortedAt(store, "queue:" + job.queue)[job.id] + job.priority * 1_000_000_000;
           millis * 1_000_000 <= now < (millis + 1) * 1_000_000
    {
      var key := QueueKey(job.queue);
      if HoldsList(store, key) { return Err(WrongType); }
      var score := PriorityScore(job.priority, UnixMilli(now));
      ClockReadings(now);
      if InExactRange(job.priority, now / 1_000_000) { ScoreIsExact(job.priority, now / 1_000_000); }
      store := store[key := Sorted(SortedAt(store, key)[job.id := score])];
      return Ok(());
    }

    method EnqueueAfter(job: Job, delay: int, now: Time) returns (r: Result<(), QueueError>)
      modifies this
      ensures r.Ok? <==> !HoldsList(old(store), RETRIES_KEY)
      ensures store == if r.Ok? then AddRetry(old(store), job.id, Unix(now + delay)) else old(store)
      ensures r.Ok? ==>
        && job.id in SortedAt(store, "scheduled:retries")
        && var score := SortedAt(store, "scheduled:retries")[job.id];
           score * 1_000_000_000 <= now + delay < (score + 1) * 1_000_000_000
    {
      if HoldsList(store, RETRIES_KEY) { return Err(WrongType); }
      ClockReadings(now + delay);
      store := store[RETRIES_KEY := Sorted(SortedAt(store, RETRIES_KEY)[job.id := Unix(now + delay)])];
      return Ok(());
    }

    /** ZRANGEBYSCORE on the retry set: the due ids by score, then id. */
    method Due(now: Time) returns (r: Result<seq<JobId>, QueueError>)
      ensures r.Err? <==> HoldsList(store, RETRIES_KEY)
      ensures r.Err? ==> r.error == WrongType
      ensures r.Ok? ==> r.value == InOrder(DueEntries(SortedAt(store, RETRIES_KEY), now))
      ensures r.Ok? ==> forall id :: id in r.value <==>
        id in SortedAt(store, "scheduled:retries") && SortedAt(store, "scheduled:retries")[id] * 1_000_000_000 <= now
    {
      hide InOrder;
      if HoldsList(store, RETRIES_KEY) { return Err(WrongType); }
      var left := DueEntries(SortedAt(store, RETRIES_KEY), now);
      ghost var due := left;
      var ids := [];
      while left != map[]
        invariant ids + InOrder(left) == InOrder(due)
        decreases |left|
      {
        LeastExists(left);
        var id :| id in left && IsMin(left, id);
        InOrderFrom(left, id, ids);
        left, ids := left - {id}, ids + [id];
      }
      NothingInOrder();
      assert ids + InOrder(left) == ids;
      DueIsDue(SortedAt(store, RETRIES_KEY), now);
      return Ok(ids);
    }

    /** ZREM on the retry set. */
    method RemoveRetry(id: JobId)
      modifies this
      ensures store == if HoldsList(old(store), RETRIES_KEY) then old(store)
                       else PutSorted(old(store), RETRIES_KEY, SortedAt(old(store), RETRIES_KEY) - {id})
    {
      if !HoldsList(store, RETRIES_KEY) {
        store := PutSorted(store, RETRIES_KEY, SortedAt(store, RETRIES_KEY) - {id});
      }
    }

    /** LPUSH fails exactly when a queue of that name took the key first. */
    method DeadLetter(job: Job) returns (r: Result<(), QueueError>)
      modifies this
      ensures r.Ok? <==> !HoldsSorted(old(store), DEAD_KEY)
      ensures store == if r.Ok? then AddDead(old(store), job.id) else old(store)
      ensures r.Ok? ==> ListAt(store, "queue:dead-letter") == [job.id] + ListAt(old(store), "queue:dead-letter")
    {
      if HoldsSorted(store, DEAD_KEY) { return Err(WrongType); }
      store := store[DEAD_KEY := Listed([job.id] + ListAt(store, DEAD_KEY))];
      return Ok(());
    }

    /** Polls the queues in order, again and again until one is not empty or the
        context is done, here after `polls` further rounds. `failsAt` is the number
        of the command, if any, that fails because the context is done already or
        the connection is broken: an entry may be waiting then. */
    method Dequeue(names: seq<string>, polls: nat, failsAt: Option<nat>) returns (r: Result<Item, QueueError>)
      modifies this
      ensures r == Err(CommandFailed) <==> failsAt.Some? && failsAt.value < Commands(old(store), names, polls)
      ensures r != Err(CommandFailed) ==> (r == Err(WrongType) <==> Blocked(old(store), names))
      ensures r != Err(CommandFailed) ==> (r == Err(ContextDone) <==> !Blocked(old(store), names) && Drain(old(store), names) == [])
      ensures r.Ok? ==> Drain(old(store), names) != [] && r.value == Drain(old(store), names)[0]
      ensures r.Ok? ==> store == PopFrom(old(store), r.value.queue, r.value.id)
                        && Drain(store, names) == Drain(old(store), names)[1..]
      ensures r.Err? ==> store == old(store)
    {
      var round := 0;
      while true
        invariant 0 <= round <= polls && store == old(store)
        invariant round > 0 ==> FirstStop(store, names, 0) == |names|
        invariant failsAt.Some? ==> round * |names| <= failsAt.value
        decreases polls - round
      {
        for k := 0 to |names|
          invariant store == old(store)
          invariant forall j :: 0 <= j < k ==> !Stops(store, names[j])
          invariant failsAt.Some? ==> round * |names| + k <= failsAt.value
        {
          RoundsOfCommands(round, polls, k, |names|);
          StopComesLater(store, names, k);
          if failsAt == Some(round * |names| + k) { return Err(CommandFailed); }
          var key := QueueKey(names[k]);
          if HoldsList(store, key) { return Err(WrongType); }
          var z := SortedAt(store, key);
          if z != map[] {
            LeastExists(z);
            var id :| id in z && IsMin(z, id);
            assert FirstBusy(store, names, 0) == k && id == Least(z);
            store := PopFrom(store, names[k], id);
            return Ok(Item(names[k], id, z[id]));
          }
        }
        MulDistributes(round, |names|);
        StopComesLater(store, names, |names|);
        if round == polls { return Err(ContextDone); }
        round := round + 1;
      }
    }
  }

  /** ZPOPMIN on this queue ends the search: an entry, or a key of the wrong type. */
  predicate Stops(store: Store, name: string) {
    HoldsList(store, QueueKey(name)) || SortedAt(store, QueueKey(name)) != map[]
  }

  function FirstStop(store: Store, names: seq<string>, from: nat): (i: nat)
    requires from <= |names|
    ensures from <= i <= |names|
    ensures forall k :: from <= k < i ==> !Stops(store, names[k])
    ensures i < |names| ==> Stops(store, names[i])
    decreases |names| - from
  {
    if from == |names| || Stops(store, names[from]) then from else FirstStop(store, names, from + 1)
  }

  /** The commands a Dequeue sends when none of them fails. */
  function Commands(store: Store, names: seq<string>, polls: nat): nat {
    if FirstStop(store, names, 0) < |names| then FirstStop(store, names, 0) + 1 else (polls + 1) * |names|
  }

  lemma StopComesLater(store: Store, names: seq<string>, k: nat)
    requires k <= |names| && forall j :: 0 <= j < k ==> !Stops(store, names[j])
    ensures k <= FirstStop(store, names, 0)
    ensures k < |names| && Stops(store, names[k]) ==> FirstStop(store, names, 0) == k
  {
  }

  lemma RoundsOfCommands(round: nat, polls: nat, k: nat, n: nat)
    requires round <= polls && k < n
    ensures round * n + k < (polls + 1) * n && (round == 0 ==> round * n + k == k)
  {
    MulDistributes(round, n);
    MulAtMost(round + 1, polls + 1, n);
  }

  function EnqueueSpec(store: Store, job: Job, now: Time): (Store, Result<(), QueueError>) {
    var key := QueueKey(job.queue);
    if HoldsList(store, key) then (store, Err(WrongType))
    else (store[key := Sorted(SortedAt(store, key)[job.id := PriorityScore(job.priority, UnixMilli(now))])], Ok(()))
  }

  lemma EnqueuedIsWaiting(store: Store, job: Job, now: Time, names: seq<string>)
    requires !HoldsList(store, QueueKey(job.queue)) && job.queue in names
    ensures var next := EnqueueSpec(store, job, now).0; var score := PriorityScore(job.priority, UnixMilli(now));
      && Waiting(next, names, Item(job.queue, job.id, score)) && !HoldsList(next, QueueKey(job.queue))
    ensures forall name, id, score :: name in names && (name != job.queue || id != job.id) ==>
      (Waiting(store, names, Item(name, id, score)) <==> Waiting(EnqueueSpec(store, job, now).0, names, Item(name, id, score)))
  {
    forall name ensures QueueKey(name) == QueueKey(job.queue) <==> name == job.queue { KeysApart(name, job.queue); }
  }

  /** Priority with ageing, end to end: of two jobs enqueued in one queue, the one
      ahead by (p - q) * 10^9 ms of waiting or more urgency comes out first,
      whichever was enqueued first and whatever else waits. */
  lemma UrgentComesOutFirst(store: Store, names: seq<string>, a: Job, t: Time, b: Job, u: Time, j: nat, k: nat)
    requires a.queue == b.queue && a.queue in names && a.id != b.id && !HoldsList(store, QueueKey(a.queue))
    requires InExactRange(a.priority, t / 1_000_000) && InExactRange(b.priority, u / 1_000_000)
    requires t / 1_000_000 - u / 1_000_000 < (a.priority - b.priority) * 1_000_000_000
    ensures var both := EnqueueSpec(EnqueueSpec(store, a, t).0, b, u).0; var order := Drain(both, names);
      && (exists i :: 0 <= i < |order| && order[i].queue == a.queue && order[i].id == a.id)
      && (exists i :: 0 <= i < |order| && order[i].queue == b.queue && order[i].id == b.id)
      && ((j < |order| && k < |order| && order[j].queue == a.queue && order[j].id == a.id
           && order[k].queue == b.queue && order[k].id == b.id) ==> j < k)
  {
    var one := EnqueueSpec(store, a, t).0;
    var both := EnqueueSpec(one, b, u).0;
    var x := Item(a.queue, a.id, PriorityScore(a.priority, UnixMilli(t)));
    var y := Item(b.queue, b.id, PriorityScore(b.priority, UnixMilli(u)));
    EnqueuedIsWaiting(store, a, t, names);
    EnqueuedIsWaiting(one, b, u, names);
    assert Waiting(both, names, x) && Waiting(both, names, y);
    hide EnqueueSpec, PriorityScore;
    DrainReturns(both, names, x);
    DrainReturns(both, names, y);
    var order := Drain(both, names);
    if j < |order| && k < |order| && order[j].queue == a.queue && order[j].id == a.id
       && order[k].queue == b.queue && order[k].id == b.id {
      DrainReturns(both, names, order[j]);
      DrainReturns(both, names, order[k]);
      ScoreOrderIff(a.priority, UnixMilli(t), b.priority, UnixMilli(u));
      if k < j { DrainIsOrdered(both, names, k, j); }
    }
  }

  /** The collision of keys: enqueuing makes the dead-letter list unusable exactly
      when the queue is called "dead-letter" and no job died before. */
  lemma EnqueueBlocksDeadLettersIff(store: Store, job: Job, now: Time)
    requires !HoldsSorted(store, DEAD_KEY)
    ensures HoldsSorted(EnqueueSpec(store, job, now).0, DEAD_KEY) <==> job.queue == DEAD_LETTER && !HoldsList(store, DEAD_KEY)
  {
    KeysApart(job.queue, DEAD_LETTER);
  }

  function AddRetry(store: Store, id: JobId, score: int): Store {
    store[RETRIES_KEY := Sorted(SortedAt(store, RETRIES_KEY)[id := score])]
  }

  function AddDead(store: Store, id: JobId): Store {
    store[DEAD_KEY := Listed([id] + ListAt(store, DEAD_KEY))]
  }
}
