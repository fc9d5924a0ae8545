/** The bounded work queue shared by producer and consumer threads. The mutex makes each section
    between lock and unlock (or wait) one atomic step; the steps of all threads interleave freely.
    Waiting threads may also wake up for no reason. */
module WorkQueues {

  type Thread = nat

  /** Where a thread is that has begun an operation. Producers carry what they are about to push. */
  datatype Place<T> = PopWaiting | PopWoken | PushWaiting(data: T) | PushWoken(data: T) | Notifying

  datatype Kind = Consumer | WokenConsumer | Producer | WokenProducer | Notifier

  function KindOf<T>(p: Place<T>): Kind {
    match p
    case PopWaiting => Consumer
    case PopWoken => WokenConsumer
    case PushWaiting(_) => Producer
    case PushWoken(_) => WokenProducer
    case Notifying => Notifier
  }

  /** `pushed` and `popped` record everything that has gone in and out. */
  datatype State<T> = State(limit: nat, queue: seq<T>, at: map<Thread, Place<T>>, pushed: seq<T>, popped: seq<T>) {
    function Count(k: Kind): nat {
      |Threads(at, k)|
    }

    predicate Is(t: Thread, k: Kind) {
      t in at && KindOf(at[t]) == k
    }

    predicate Full() {
      limit > 0 && |queue| >= limit
    }
  }

  function Threads<T>(at: map<Thread, Place<T>>, k: Kind): set<Thread> {
    set t | t in at && KindOf(at[t]) == k
  }

  /** One atomic step. `woken` is the thread that a condition variable chooses to wake. */
  datatype Step<T> =
    | Push(t: Thread, data: T)         // a producer enters push
    | RetryPush(t: Thread)             // a woken producer has the lock again
    | Notify(t: Thread, woken: Thread) // a producer that has unlocked notifies the consumers
    | Pop(t: Thread, woken: Thread)    // a consumer enters wait_and_pop
    | RetryPop(t: Thread, woken: Thread)
    | TryPop(t: Thread, woken: Thread)
    | Spurious(t: Thread)

  function Init<T>(limit: nat): State<T> {
    State(limit, [], map[], [], [])
  }

  /** The locked section of push. */
  function PushSection<T>(s: State<T>, t: Thread, data: T): State<T> {
    if s.Full() then s.(at := s.at[t := PushWaiting(data)])
    else s.(queue := s.queue + [data], pushed := s.pushed + [data], at := s.at[t := Notifying])
  }

  /** Wake a waiting thread. */
  function Wake<T>(s: State<T>, t: Thread): State<T> {
    if s.Is(t, Consumer) then s.(at := s.at[t := PopWoken])
    else if s.Is(t, Producer) then s.(at := s.at[t := PushWoken(s.at[t].data)])
    else s
  }

  /** Take the front element and tell a producer that there is room. */
  function TakeFront<T>(s: State<T>, t: Thread, woken: Thread): State<T>
    requires s.queue != []
  {
    var taken := s.(queue := s.queue[1..], popped := s.popped + [s.queue[0]], at := s.at - {t});
    if s.limit > 0 && |taken.queue| < s.limit && s.Is(woken, Producer) then Wake(taken, woken) else taken
  }

  /** The locked section of wait_and_pop. */
  function PopSection<T>(s: State<T>, t: Thread, woken: Thread): State<T> {
    if s.queue == [] then s.(at := s.at[t := PopWaiting]) else TakeFront(s, t, woken)
  }

  /** A notification reaches one of the waiting threads of the kind, if there are any. */
  predicate Chosen<T>(s: State<T>, woken: Thread, k: Kind) {
    s.Count(k) > 0 ==> s.Is(woken, k)
  }

  predicate Enabled<T>(s: State<T>, step: Step<T>) {
    match step
    case Push(t, _) => t !in s.at
    case RetryPush(t) => s.Is(t, WokenProducer)
    case Notify(t, woken) => s.Is(t, Notifier) && Chosen(s, woken, Consumer)
    case Pop(t, woken) => t !in s.at && Chosen(s, woken, Producer)
    case RetryPop(t, woken) => s.Is(t, WokenConsumer) && Chosen(s, woken, Producer)
    case TryPop(t, woken) => t !in s.at && Chosen(s, woken, Producer)
    case Spurious(t) => s.Is(t, Consumer) || s.Is(t, Producer)
  }

  function Next<T>(s: State<T>, step: Step<T>): State<T>
    requires Enabled(s, step)
  {
    match step
    case Push(t, data) => PushSection(s, t, data)
    case RetryPush(t) => PushSection(s, t, s.at[t].data)
    case Notify(t, woken) =>
      var done := s.(at := s.at - {t});
      if s.Is(woken, Consumer) then Wake(done, woken) else done
    case Pop(t, woken) => PopSection(s, t, woken)
    case RetryPop(t, woken) => PopSection(s, t, woken)
    case TryPop(t, woken) => if s.queue == [] then s else TakeFront(s, t, woken)
    case Spurious(t) => Wake(s, t)
  }

  // ------------------------------------------------------------ what every step keeps

  /** First in, first out; nothing is lost, duplicated or made up; never more than the limit. */
  predicate Orderly<T(==)>(s: State<T>) {
    s.pushed == s.popped + s.queue && (s.limit > 0 ==> |s.queue| <= s.limit)
  }

  /** No wake-up is lost. While a consumer is blocked, every item is spoken for by a consumer that has been woken or
      by a notification still to come; while a producer is blocked, every free slot by a producer that has been woken. */
  predicate NoLostWakeup<T>(s: State<T>) {
    && (s.Count(Consumer) > 0 ==> |s.queue| <= s.Count(WokenConsumer) + s.Count(Notifier))
    && (s.limit > 0 && s.Count(Producer) > 0 ==> s.limit - |s.queue| <= s.Count(WokenProducer))
    && (s.limit == 0 ==> s.Count(Producer) == 0)
  }

  predicate Inv<T(==)>(s: State<T>) {
    Orderly(s) && NoLostWakeup(s)
  }

  function One(b: bool): nat {
    if b then 1 else 0
  }

  /** The number of threads of a kind when thread `t` goes to place `p`. */
  lemma Goes<T>(s: State<T>, t: Thread, p: Place<T>, k: Kind)
    ensures |Threads(s.at[t := p], k)| == s.Count(k) - One(s.Is(t, k)) + One(KindOf(p) == k)
  {
    var after := s.at[t := p];
    if KindOf(p) == k {
      assert Threads(after, k) == Threads(s.at, k) - {t} + {t};
    } else {
      assert Threads(after, k) == Threads(s.at, k) - {t};
    }
  }

  lemma Leaves<T>(s: State<T>, t: Thread, k: Kind)
    ensures |Threads(s.at - {t}, k)| == s.Count(k) - One(s.Is(t, k))
  {
    assert Threads(s.at - {t}, k) == Threads(s.at, k) - {t};
  }

  /** The numbers of threads in `at` are those of `s`, except that thread `t` has moved to a place of kind `k`, if any. */
  predicate Recounted<T>(s: State<T>, t: Thread, at: map<Thread, Place<T>>, k: Kind, arrived: bool) {
    |Threads(at, k)| == s.Count(k) - One(s.Is(t, k)) + One(arrived)
  }

  predicate AllRecounted<T>(s: State<T>, t: Thread, at: map<Thread, Place<T>>, to: set<Kind>) {
    && Recounted(s, t, at, Consumer, Consumer in to) && Recounted(s, t, at, WokenConsumer, WokenConsumer in to)
    && Recounted(s, t, at, Producer, Producer in to) && Recounted(s, t, at, WokenProducer, WokenProducer in to)
    && Recounted(s, t, at, Notifier, Notifier in to)
  }

  lemma AllGo<T>(s: State<T>, t: Thread, p: Place<T>)
    ensures AllRecounted(s, t, s.at[t := p], {KindOf(p)})
  {
    Goes(s, t, p, Consumer);
    Goes(s, t, p, WokenConsumer);
    Goes(s, t, p, Producer);
    Goes(s, t, p, WokenProducer);
    Goes(s, t, p, Notifier);
  }

  lemma AllLeave<T>(s: State<T>, t: Thread)
    ensures AllRecounted(s, t, s.at - {t}, {})
  {
    Leaves(s, t, Consumer);
    Leaves(s, t, WokenConsumer);
    Leaves(s, t, Producer);
    Leaves(s, t, WokenProducer);
    Leaves(s, t, Notifier);
  }

  lemma IsCounted<T>(s: State<T>, t: Thread, k: Kind)
    requires s.Is(t, k)
    ensures s.Count(k) > 0
  {
    assert t in Threads(s.at, k);
  }

  lemma PushKeeps<T>(s: State<T>, t: Thread, data: T)
    requires Inv(s) && (t !in s.at || s.Is(t, WokenProducer))
    ensures Inv(PushSection(s, t, data))
  {
    AllGo(s, t, PushWaiting(data));
    AllGo(s, t, Notifying);
    assert s.popped + (s.queue + [data]) == s.popped + s.queue + [data];
  }

  lemma WakeKeeps<T>(s: State<T>, t: Thread)
    requires Inv(s)
    ensures Inv(Wake(s, t))
  {
    AllGo(s, t, PopWoken);
    if s.Is(t, Producer) {
      AllGo(s, t, PushWoken(s.at[t].data));
    }
  }

  /** The notifying producer has done its part: one consumer more is awake, or none was waiting. */
  lemma NotifyKeeps<T>(s: State<T>, t: Thread, woken: Thread)
    requires Inv(s) && Enabled(s, Step.Notify(t, woken))
    ensures Inv(Next(s, Step.Notify(t, woken)))
  {
    AllLeave(s, t);
    var done := s.(at := s.at - {t});
    if s.Is(woken, Consumer) {
      AllGo(done, woken, PopWoken);
    }
  }

  lemma TakeKeeps<T>(s: State<T>, t: Thread, woken: Thread)
    requires Inv(s) && s.queue != [] && (t !in s.at || s.Is(t, WokenConsumer)) && Chosen(s, woken, Producer)
    ensures Inv(TakeFront(s, t, woken))
  {
    assert s.popped + s.queue == s.popped + [s.queue[0]] + s.queue[1..];
    AllLeave(s, t);
    var taken := s.(queue := s.queue[1..], popped := s.popped + [s.queue[0]], at := s.at - {t});
    if s.Is(woken, Producer) {
      IsCounted(s, woken, Producer);
      AllGo(taken, woken, PushWoken(s.at[woken].data));
    }
  }

  lemma PopKeeps<T>(s: State<T>, t: Thread, woken: Thread)
    requires Inv(s) && (t !in s.at || s.Is(t, WokenConsumer)) && Chosen(s, woken, Producer)
    ensures Inv(PopSection(s, t, woken))
  {
    if s.queue == [] {
      AllGo(s, t, PopWaiting);
    } else {
      TakeKeeps(s, t, woken);
    }
  }

  /** Every step of every thread keeps the invariant. */
  lemma StepKeeps<T>(s: State<T>, step: Step<T>)
    requires Inv(s) && Enabled(s, step)
    ensures Inv(Next(s, step)) && Next(s, step).limit == s.limit
  {
    match step
    case Push(t, data) => PushKeeps(s, t, data);
    case RetryPush(t) => PushKeeps(s, t, s.at[t].data);
    case Notify(t, woken) => NotifyKeeps(s, t, woken);
    case Pop(t, woken) => PopKeeps(s, t, woken);
    case RetryPop(t, woken) => PopKeeps(s, t, woken);
    case TryPop(t, woken) => if s.queue != [] { TakeKeeps(s, t, woken); }
    case Spurious(t) => WakeKeeps(s, t);
  }

  // ------------------------------------------------------------ the queue itself

  datatype Result<T> = Blocked | Popped(value: T)

  /** The queue with its two condition variables; each method is one section under the lock. */
  class WorkQueue<T(==)> {
    const limit: nat
    var queue: seq<T>
    var at: map<Thread, Place<T>>
    ghost var pushed: seq<T>
    ghost var popped: seq<T>

    ghost function View(): State<T>
      reads this
    {
      State(limit, queue, at, pushed, popped)
    }

    constructor (n: nat)
      ensures View() == Init(n) && Inv(View())
    {
      limit, queue, at, pushed, popped := n, [], map[], [], [];
      new;
      assert Threads(at, Consumer) == {} && Threads(at, Producer) == {};
    }

    /** A producer holds the lock: it waits while the queue is full, and otherwise adds its data. */
    method PushLocked(t: Thread, data: T) returns (done: bool)
      requires Inv(View()) && (t !in at || at[t] == PushWoken(data))
      modifies this
      ensures View() == PushSection(old(View()), t, data) && Inv(View())
      ensures done ==> queue == old(queue) + [data]
      ensures !done ==> queue == old(queue) && old(View()).Full()
    {
      PushKeeps(View(), t, data);
      if limit > 0 && |queue| >= limit {
        at := at[t := PushWaiting(data)];
        return false;
      }
      queue := queue + [data];
      pushed := pushed + [data];
      at := at[t := Notifying];
      return true;
    }

    /** After unlocking, the producer wakes one waiting consumer. */
    method NotifyOne(t: Thread)
      requires Inv(View()) && View().Is(t, Notifier)
      modifies this`at
      ensures Inv(View()) && queue == old(queue) && !View().Is(t, Notifier)
      ensures exists woken :: Enabled(old(View()), Step.Notify(t, woken)) && View() == Next(old(View()), Step.Notify(t, woken))
    {
      var waiting := Threads(at, Consumer);
      var woken: Thread := 0;
      if waiting != {} {
        woken :| woken in waiting;
      }
      NotifyKeeps(View(), t, woken);
      ghost var step := Step.Notify(t, woken);
      assert Enabled(View(), step);
      at := at - {t};
      if waiting != {} {
        at := at[woken := PopWoken];
      }
      assert View() == Next(old(View()), step);
    }

    /** A consumer holds the lock: it waits while the queue is empty, and otherwise takes the front and, below the
        limit, wakes one waiting producer. */
    method PopLocked(t: Thread) returns (r: Result<T>)
      requires Inv(View()) && (t !in at || View().Is(t, WokenConsumer))
      modifies this
      ensures Inv(View()) && exists woken :: Chosen(old(View()), woken, Producer) && View() == PopSection(old(View()), t, woken)
      ensures r.Blocked? <==> old(queue) == []
      ensures r.Popped? ==> old(queue) == [r.value] + queue && popped == old(popped) + [r.value]
    {
      var waiting := Threads(at, Producer);
      var woken: Thread := 0;
      if waiting != {} {
        woken :| woken in waiting;
      }
      assert Chosen(View(), woken, Producer);
      PopKeeps(View(), t, woken);
      if queue == [] {
        at := at[t := PopWaiting];
        assert View() == PopSection(old(View()), t, woken);
        return Blocked;
      }
      r := Popped(queue[0]);
      queue := queue[1..];
      popped := popped + [r.value];
      at := at - {t};
      if limit > 0 && |queue| < limit && waiting != {} {
        at := at[woken := PushWoken(at[woken].data)];
      }
      assert View() == PopSection(old(View()), t, woken);
    }
  }

  // ------------------------------------------------------------ what producers bring

  /** The thread is on its way to push `v`. */
  predicate Brings<T(==)>(p: Place<T>, v: T) {
    (p.PushWaiting? || p.PushWoken?) && p.data == v
  }

  function Bringing<T(==)>(at: map<Thread, Place<T>>, v: T): set<Thread> {
    set t | t in at && Brings(at[t], v)
  }

  /** How often `v` is anywhere: already popped, in the queue, or with a producer that is blocked or has been woken. */
  function Occurrences<T(==)>(s: State<T>, v: T): nat {
    multiset(s.popped)[v] + multiset(s.queue)[v] + |Bringing(s.at, v)|
  }

  lemma BringingGoes<T>(at: map<Thread, Place<T>>, t: Thread, p: Place<T>, v: T)
    ensures |Bringing(at[t := p], v)| == |Bringing(at, v)| - One(t in at && Brings(at[t], v)) + One(Brings(p, v))
  {
    if Brings(p, v) {
      assert Bringing(at[t := p], v) == Bringing(at, v) - {t} + {t};
    } else {
      assert Bringing(at[t := p], v) == Bringing(at, v) - {t};
    }
  }

  lemma BringingLeaves<T>(at: map<Thread, Place<T>>, t: Thread, v: T)
    requires t in at ==> !Brings(at[t], v)
    ensures Bringing(at - {t}, v) == Bringing(at, v)
  {
  }

  /** A producer that is about to push `data`, whether it comes in or comes back, is counted once afterwards. */
  lemma PushOccurrences<T>(s: State<T>, t: Thread, data: T, v: T)
    requires t in s.at ==> Brings(s.at[t], data)
    ensures Occurrences(PushSection(s, t, data), v) == Occurrences(s, v) + One(t !in s.at && data == v)
  {
    BringingGoes(s.at, t, PushWaiting(data), v);
    BringingGoes(s.at, t, Notifying, v);
    assert multiset(s.queue + [data])[v] == multiset(s.queue)[v] + One(data == v);
  }

  lemma WakeOccurrences<T>(s: State<T>, t: Thread, v: T)
    ensures Occurrences(Wake(s, t), v) == Occurrences(s, v)
  {
    BringingGoes(s.at, t, PopWoken, v);
    if s.Is(t, Producer) {
      BringingGoes(s.at, t, PushWoken(s.at[t].data), v);
    }
  }

  lemma TakeOccurrences<T>(s: State<T>, t: Thread, woken: Thread, v: T)
    requires s.queue != [] && (t !in s.at || s.Is(t, WokenConsumer))
    ensures Occurrences(TakeFront(s, t, woken), v) == Occurrences(s, v)
  {
    var taken := s.(queue := s.queue[1..], popped := s.popped + [s.queue[0]], at := s.at - {t});
    BringingLeaves(s.at, t, v);
    assert s.queue == [s.queue[0]] + s.queue[1..];
    assert multiset(s.popped + [s.queue[0]])[v] + multiset(s.queue[1..])[v] == multiset(s.popped)[v] + multiset(s.queue)[v];
    WakeOccurrences(taken, woken, v);
  }

  /** A value comes in with the step by which a producer enters, and no step loses or duplicates it. */
  lemma StepOccurrences<T>(s: State<T>, step: Step<T>, v: T)
    requires Enabled(s, step)
    ensures Occurrences(Next(s, step), v) == Occurrences(s, v) + One(step.Push? && step.data == v)
  {
    match step
    case Push(t, data) => PushOccurrences(s, t, data, v);
    case RetryPush(t) => PushOccurrences(s, t, s.at[t].data, v);
    case Notify(t, woken) =>
      BringingLeaves(s.at, t, v);
      WakeOccurrences(s.(at := s.at - {t}), woken, v);
    case Pop(t, woken) => PopOccurrences(s, t, woken, v);
    case RetryPop(t, woken) => PopOccurrences(s, t, woken, v);
    case TryPop(t, woken) => if s.queue != [] { TakeOccurrences(s, t, woken, v); }
    case Spurious(t) => WakeOccurrences(s, t, v);
  }

  lemma PopOccurrences<T>(s: State<T>, t: Thread, woken: Thread, v: T)
    requires t !in s.at || s.Is(t, WokenConsumer)
    ensures Occurrences(PopSection(s, t, woken), v) == Occurrences(s, v)
  {
    if s.queue == [] {
      BringingGoes(s.at, t, PopWaiting, v);
    } else {
      TakeOccurrences(s, t, woken, v);
    }
  }

  /** What thread `t` brings after one step: what it enters with, or else what it has brought before. */
  lemma StepBrings<T>(s: State<T>, step: Step<T>, t: Thread)
    requires Enabled(s, step) && t in Next(s, step).at && (Next(s, step).at[t].PushWaiting? || Next(s, step).at[t].PushWoken?)
    ensures if step.Push? && step.t == t then Next(s, step).at[t].data == step.data
            else t in s.at && (s.at[t].PushWaiting? || s.at[t].PushWoken?) && s.at[t].data == Next(s, step).at[t].data
  {
  }

  // ------------------------------------------------------------ all interleavings

  /** A run of the queue: it starts empty, and each state follows from the one before by the next step. */
  ghost predicate Run<T(!new)>(limit: nat, steps: seq<Step<T>>, states: seq<State<T>>) {
    && |states| == |steps| + 1
    && states[0] == Init(limit)
    && forall i :: 0 <= i < |steps| ==> Enabled(states[i], steps[i]) && states[i + 1] == Next(states[i], steps[i])
  }

  lemma {:induction false} RunKeeps<T(!new)>(limit: nat, steps: seq<Step<T>>, states: seq<State<T>>, i: nat)
    requires Run(limit, steps, states) && i < |states|
    ensures Inv(states[i]) && states[i].limit == limit
  {
    if i > 0 {
      RunKeeps(limit, steps, states, i - 1);
      StepKeeps(states[i - 1], steps[i - 1]);
    } else {
      assert Threads(states[0].at, Consumer) == {} && Threads(states[0].at, Producer) == {};
    }
  }

  /** How often producers have entered with `v`. */
  function Entered<T(==)>(steps: seq<Step<T>>, v: T): nat {
    if steps == [] then 0
    else
      var last := steps[|steps| - 1];
      Entered(steps[..|steps| - 1], v) + One(last.Push? && last.data == v)
  }

  /** The data with which thread `t` has entered last. */
  predicate EnteredWith<T(==)>(steps: seq<Step<T>>, t: Thread, data: T) {
    if steps == [] then false
    else
      var last := steps[|steps| - 1];
      if last.Push? && last.t == t then last.data == data else EnteredWith(steps[..|steps| - 1], t, data)
  }

  /** Whatever producers have entered with is popped, in the queue, or still carried by a producer, each as often. */
  lemma {:induction false} NothingLost<T(!new)>(limit: nat, steps: seq<Step<T>>, states: seq<State<T>>, i: nat, v: T)
    requires Run(limit, steps, states) && i < |states|
    ensures Entered(steps[..i], v) == multiset(states[i].popped)[v] + multiset(states[i].queue)[v] + |Bringing(states[i].at, v)|
  {
    if i > 0 {
      NothingLost(limit, steps, states, i - 1, v);
      StepOccurrences(states[i - 1], steps[i - 1], v);
      assert steps[..i][..i - 1] == steps[..i - 1];
    } else {
      assert Bringing(states[0].at, v) == {};
    }
  }

  /** What a blocked or woken producer carries is what it has entered with. */
  lemma {:induction false} CarriesItsOwn<T(!new)>(limit: nat, steps: seq<Step<T>>, states: seq<State<T>>, i: nat, t: Thread)
    requires Run(limit, steps, states) && i < |states|
    requires t in states[i].at && (states[i].at[t].PushWaiting? || states[i].at[t].PushWoken?)
    ensures EnteredWith(steps[..i], t, states[i].at[t].data)
  {
    if i > 0 {
      StepBrings(states[i - 1], steps[i - 1], t);
      assert steps[..i][..i - 1] == steps[..i - 1];
      if !(steps[i - 1].Push? && steps[i - 1].t == t) {
        CarriesItsOwn(limit, steps, states, i - 1, t);
      }
    }
  }

  /** A producer that has the lock, for the first time or again, and finds room puts what it has entered with behind all
      that has been pushed before. */
  lemma PushesItsOwn<T(!new)>(limit: nat, steps: seq<Step<T>>, states: seq<State<T>>, i: nat, data: T)
    requires Run(limit, steps, states) && i < |steps| && (steps[i].Push? || steps[i].RetryPush?) && !states[i].Full()
    requires EnteredWith(steps[..i + 1], steps[i].t, data)
    ensures states[i + 1].queue == states[i].queue + [data] && states[i + 1].pushed == states[i].pushed + [data]
  {
    assert steps[..i + 1][..i] == steps[..i];
    if steps[i].RetryPush? {
      CarriesItsOwn(limit, steps, states, i, steps[i].t);
      EnteredOnce(steps[..i], steps[i].t, data, states[i].at[steps[i].t].data);
    }
  }

  lemma {:induction false} EnteredOnce<T>(steps: seq<Step<T>>, t: Thread, data: T, data': T)
    requires EnteredWith(steps, t, data) && EnteredWith(steps, t, data')
    ensures data == data'
  {
    var last := steps[|steps| - 1];
    if !(last.Push? && last.t == t) {
      EnteredOnce(steps[..|steps| - 1], t, data, data');
    }
  }

  /** A thread that can go on without anybody else: it has been woken, or it still has to notify. */
  predicate CanGoOn<T>(s: State<T>, t: Thread) {
    s.Is(t, WokenConsumer) || s.Is(t, Notifier) || s.Is(t, WokenProducer)
  }

  lemma SomeThread<T>(s: State<T>, k: Kind) returns (t: Thread)
    requires s.Count(k) > 0
    ensures s.Is(t, k)
  {
    assert Threads(s.at, k) != {};
    t :| t in Threads(s.at, k);
  }

  /** In every reachable state of every interleaving the queue is first in, first out and within its limit; what producers
      have entered with is popped, in the queue, or with a blocked or woken producer, and nothing else is; if a consumer is blocked while there is work, or a producer while there is room, some thread can go on;
      and consumers and producers are never both stuck. */
  lemma NeverStuck<T(!new)>(limit: nat, steps: seq<Step<T>>, states: seq<State<T>>, i: nat)
    requires Run(limit, steps, states) && i < |states|
    ensures forall v: T :: Entered(steps[..i], v) == Occurrences(states[i], v)
    ensures var s := states[i];
            && s.pushed == s.popped + s.queue && (limit > 0 ==> |s.queue| <= limit)
            && NoLostWakeup(s)
            && (s.Count(Consumer) > 0 && s.queue != [] ==> exists t :: CanGoOn(s, t))
            && (s.Count(Producer) > 0 && |s.queue| < limit ==> exists t :: CanGoOn(s, t))
            && (s.Count(Consumer) > 0 && s.Count(Producer) > 0 ==> exists t :: CanGoOn(s, t))
  {
    RunKeeps(limit, steps, states, i);
    forall v: T
      ensures Entered(steps[..i], v) == Occurrences(states[i], v)
    {
      NothingLost(limit, steps, states, i, v);
    }
    var s := states[i];
    if s.Count(WokenConsumer) > 0 {
      var t := SomeThread(s, WokenConsumer);
      assert CanGoOn(s, t);
    } else if s.Count(Notifier) > 0 {
      var t := SomeThread(s, Notifier);
      assert CanGoOn(s, t);
    } else if s.Count(WokenProducer) > 0 {
      var t := SomeThread(s, WokenProducer);
      assert CanGoOn(s, t);
    }
  }

  /** What a thread that can go on does is enabled. */
  lemma GoingOn<T>(s: State<T>, t: Thread) returns (step: Step<T>)
    requires CanGoOn(s, t)
    ensures Enabled(s, step) && step.t == t
  {
    if s.Is(t, WokenProducer) {
      step := RetryPush(t);
    } else if s.Is(t, WokenConsumer) {
      var woken: Thread := 0;
      if s.Count(Producer) > 0 {
        woken := SomeThread(s, Producer);
      }
      step := RetryPop(t, woken);
    } else {
      var woken: Thread := 0;
      if s.Count(Consumer) > 0 {
        woken := SomeThread(s, Consumer);
      }
      step := Step.Notify(t, woken);
    }
  }
}
