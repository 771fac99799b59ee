/** Single-flight GET: the per-key lock dictionary of `_dailyiq_get_json`, for any number of threads running it. */
module SingleFlight {
  import opened Common

  type Key = string
  type Thread = nat
  type Lock = nat

  /** Where one call stands. `lock` is the lock object the call obtained from the dictionary. */
  datatype Pc =
    | FastPath(key: Key)
    | Lookup(key: Key)
    | Waiting(key: Key, lock: Lock)
    | Recheck(key: Key, lock: Lock)
    | Fetching(key: Key, lock: Lock)
    | Popping(key: Key, lock: Lock)
    | Releasing(key: Key, lock: Lock)
    | Returned(key: Key)
  {
    predicate Holds() { Recheck? || Fetching? || Popping? || Releasing? }

    predicate HasLock() { Waiting? || Holds() }
  }

  datatype State = State(
    cache: set<Key>,
    inflight: map<Key, Lock>,
    holder: map<Lock, Thread>,
    nextLock: Lock,
    pcs: map<Thread, Pc>)

  /** What has happened so far, per key; the program does not keep this. */
  datatype History = History(
    issued: map<Key, nat>,        // requests sent
    failed: map<Key, nat>,        // requests that left nothing readable in the cache
    pops: map<Key, nat>,          // dictionary pops while the key was not cached
    created: map<Key, set<Lock>>,  // locks created while the key was not cached
    spent: map<Key, set<Lock>>)   // locks under which a request succeeded

  datatype System = System(s: State, h: History)

  /** One action of one thread between two points where the interpreter may switch threads: a cache read, one critical
      section of `_inflight_lock`, taking or releasing the key's own lock, the end of the HTTP request. The response
      cache only grows: no time-to-live lapses. A request that raises, is refused, does not
      parse, or parses to `null` (which the cache reader treats as a miss) is `FetchFails`. */
  datatype Event =
    | Call(t: Thread, key: Key)
    | ReadCache(t: Thread)
    | TakeEntry(t: Thread)
    | Acquire(t: Thread)
    | ReadAgain(t: Thread)
    | FetchSucceeds(t: Thread)
    | FetchFails(t: Thread)
    | Pop(t: Thread)
    | Release(t: Thread)

  function Count(m: map<Key, nat>, k: Key): nat {
    if k in m then m[k] else 0
  }

  function LocksOf(m: map<Key, set<Lock>>, k: Key): set<Lock> {
    if k in m then m[k] else {}
  }

  function Init(): System {
    System(State({}, map[], map[], 0, map[]), History(map[], map[], map[], map[], map[]))
  }

  predicate Enabled(s: State, e: Event) {
    match e
    case Call(t, _) => t in s.pcs ==> s.pcs[t].Returned?
    case ReadCache(t) => t in s.pcs && s.pcs[t].FastPath?
    case TakeEntry(t) => t in s.pcs && s.pcs[t].Lookup?
    case Acquire(t) => t in s.pcs && s.pcs[t].Waiting? && s.pcs[t].lock !in s.holder
    case ReadAgain(t) => t in s.pcs && s.pcs[t].Recheck?
    case FetchSucceeds(t) => t in s.pcs && s.pcs[t].Fetching?
    case FetchFails(t) => t in s.pcs && s.pcs[t].Fetching?
    case Pop(t) => t in s.pcs && s.pcs[t].Popping?
    case Release(t) => t in s.pcs && s.pcs[t].Releasing?
  }

  function Goto(s: State, t: Thread, pc: Pc): State {
    s.(pcs := s.pcs[t := pc])
  }

  /** The program's own transition. The hit after the lock returns from outside the `try`, so it does not
      pop; `finally` pops by key, whichever lock is stored there by then. */
  function Next(s: State, e: Event): State
    requires Enabled(s, e)
  {
    match e
    case Call(t, key) => Goto(s, t, FastPath(key))
    case ReadCache(t) =>
      var k := s.pcs[t].key;
      Goto(s, t, if k in s.cache then Returned(k) else Lookup(k))
    case TakeEntry(t) =>
      var k := s.pcs[t].key;
      if k in s.inflight then Goto(s, t, Waiting(k, s.inflight[k]))
      else Goto(s.(inflight := s.inflight[k := s.nextLock], nextLock := s.nextLock + 1), t, Waiting(k, s.nextLock))
    case Acquire(t) =>
      var pc := s.pcs[t];
      Goto(s.(holder := s.holder[pc.lock := t]), t, Recheck(pc.key, pc.lock))
    case ReadAgain(t) =>
      var pc := s.pcs[t];
      Goto(s, t, if pc.key in s.cache then Releasing(pc.key, pc.lock) else Fetching(pc.key, pc.lock))
    case FetchSucceeds(t) =>
      var pc := s.pcs[t];
      Goto(s.(cache := s.cache + {pc.key}), t, Popping(pc.key, pc.lock))
    case FetchFails(t) =>
      var pc := s.pcs[t];
      Goto(s, t, Popping(pc.key, pc.lock))
    case Pop(t) =>
      var pc := s.pcs[t];
      Goto(s.(inflight := s.inflight - {pc.key}), t, Releasing(pc.key, pc.lock))
    case Release(t) =>
      var pc := s.pcs[t];
      Goto(s.(holder := s.holder - {pc.lock}), t, Returned(pc.key))
  }

  function Record(s: State, h: History, e: Event): History
    requires Enabled(s, e)
  {
    if e.Call? then h else
    var k := s.pcs[e.t].key;
    match e
    case TakeEntry(_) =>
      if k in s.inflight || k in s.cache then h
      else h.(created := h.created[k := LocksOf(h.created, k) + {s.nextLock}])
    case ReadAgain(_) =>
      if k in s.cache then h else h.(issued := h.issued[k := Count(h.issued, k) + 1])
    case FetchSucceeds(t) => h.(spent := h.spent[k := LocksOf(h.spent, k) + {s.pcs[t].lock}])
    case FetchFails(_) => h.(failed := h.failed[k := Count(h.failed, k) + 1])
    case Pop(_) => if k in s.cache then h else h.(pops := h.pops[k := Count(h.pops, k) + 1])
    case _ => h
  }

  function Step(sys: System, e: Event): System
    requires Enabled(sys.s, e)
  {
    System(Next(sys.s, e), Record(sys.s, sys.h, e))
  }

  /** The outcome of one interleaving of the threads' actions, None when some action was not possible. */
  function Run(sys: System, events: seq<Event>): Option<System>
    decreases |events|
  {
    if events == [] then Some(sys)
    else if Enabled(sys.s, events[0]) then Run(Step(sys, events[0]), events[1..])
    else None
  }

  // ---------------------------------------------------------------- invariant

  function Fetchers(s: State, k: Key): set<Thread> {
    set t | t in s.pcs && s.pcs[t].Fetching? && s.pcs[t].key == k
  }

  function Poppers(s: State, k: Key): set<Thread> {
    set t | t in s.pcs && s.pcs[t].Popping? && s.pcs[t].key == k
  }

  /** A lock is held exactly by the thread that is inside its `with` block. */
  ghost predicate HoldersAgree(s: State) {
    && (forall t :: t in s.pcs && s.pcs[t].Holds() ==> s.pcs[t].lock in s.holder && s.holder[s.pcs[t].lock] == t)
    && (forall l :: l in s.holder ==>
          s.holder[l] in s.pcs && s.pcs[s.holder[l]].Holds() && s.pcs[s.holder[l]].lock == l)
  }

  ghost predicate LocksBounded(sys: System) {
    && (forall t :: t in sys.s.pcs && sys.s.pcs[t].HasLock() ==> sys.s.pcs[t].lock < sys.s.nextLock)
    && (forall k :: k in sys.s.inflight ==> sys.s.inflight[k] < sys.s.nextLock)
    && (forall k, l :: l in LocksOf(sys.h.created, k) ==> l < sys.s.nextLock)
  }

  /** While a key is not cached, every lock in use for it was created while it was not cached. */
  ghost predicate UncachedLocksCreated(sys: System) {
    && (forall t :: t in sys.s.pcs && sys.s.pcs[t].HasLock() && sys.s.pcs[t].key !in sys.s.cache ==>
          sys.s.pcs[t].lock in LocksOf(sys.h.created, sys.s.pcs[t].key))
    && (forall k :: k in sys.s.inflight && k !in sys.s.cache ==> sys.s.inflight[k] in LocksOf(sys.h.created, k))
  }

  ghost predicate SpentLocksCreated(sys: System) {
    && (forall k :: LocksOf(sys.h.spent, k) <= LocksOf(sys.h.created, k))
    && (forall k :: LocksOf(sys.h.spent, k) != {} ==> k in sys.s.cache)
  }

  /** A request runs under a lock created before the key was cached, under which none has succeeded yet. */
  ghost predicate FetchersUnspent(sys: System) {
    forall t :: t in sys.s.pcs && sys.s.pcs[t].Fetching? ==>
      && sys.s.pcs[t].lock in LocksOf(sys.h.created, sys.s.pcs[t].key)
      && sys.s.pcs[t].lock !in LocksOf(sys.h.spent, sys.s.pcs[t].key)
  }

  /** Every lock beyond the first was paid for by a failed request. */
  ghost predicate Paid(sys: System, k: Key) {
    && (if k in sys.s.cache then |LocksOf(sys.h.created, k)| <= 1 + Count(sys.h.failed, k)
        else
          && |LocksOf(sys.h.created, k)| <= Count(sys.h.pops, k) + (if k in sys.s.inflight then 1 else 0)
          && Count(sys.h.pops, k) + |Poppers(sys.s, k)| <= Count(sys.h.failed, k))
    && Count(sys.h.issued, k) == Count(sys.h.failed, k) + |LocksOf(sys.h.spent, k)| + |Fetchers(sys.s, k)|
  }

  ghost predicate Inv(sys: System) {
    && HoldersAgree(sys.s) && LocksBounded(sys)
    && UncachedLocksCreated(sys) && SpentLocksCreated(sys) && FetchersUnspent(sys)
    && forall k :: Paid(sys, k)
  }

  lemma StepKeepsHolders(s: State, e: Event)
    requires HoldersAgree(s) && Enabled(s, e)
    ensures HoldersAgree(Next(s, e))
  {
  }

  lemma StepKeepsBounds(sys: System, e: Event)
    requires LocksBounded(sys) && Enabled(sys.s, e)
    ensures LocksBounded(Step(sys, e))
  {
    var next := Step(sys, e);
    forall k, l | l in LocksOf(next.h.created, k) ensures l < next.s.nextLock {
      assert l in LocksOf(sys.h.created, k) || l == sys.s.nextLock;
    }
  }

  lemma StepGrowsCreated(sys: System, e: Event, k: Key)
    requires Enabled(sys.s, e)
    ensures LocksOf(sys.h.created, k) <= LocksOf(Step(sys, e).h.created, k)
  {
  }

  lemma StepKeepsUncachedLocks(sys: System, e: Event)
    requires UncachedLocksCreated(sys) && Enabled(sys.s, e)
    ensures UncachedLocksCreated(Step(sys, e))
  {
    forall k ensures LocksOf(sys.h.created, k) <= LocksOf(Step(sys, e).h.created, k) { StepGrowsCreated(sys, e, k); }
  }

  lemma StepKeepsSpent(sys: System, e: Event)
    requires SpentLocksCreated(sys) && FetchersUnspent(sys) && Enabled(sys.s, e)
    ensures SpentLocksCreated(Step(sys, e))
  {
    forall k ensures LocksOf(sys.h.created, k) <= LocksOf(Step(sys, e).h.created, k) { StepGrowsCreated(sys, e, k); }
  }

  lemma StepKeepsFetchers(sys: System, e: Event)
    requires HoldersAgree(sys.s) && UncachedLocksCreated(sys) && SpentLocksCreated(sys) && FetchersUnspent(sys)
    requires Enabled(sys.s, e)
    ensures FetchersUnspent(Step(sys, e))
  {
    forall k ensures LocksOf(sys.h.created, k) <= LocksOf(Step(sys, e).h.created, k) { StepGrowsCreated(sys, e, k); }
  }

  /** How one action moves a thread in and out of the counted sets. */
  lemma StepMovesThread(s: State, e: Event, k: Key)
    requires Enabled(s, e)
    ensures var s' := Next(s, e);
            && Fetchers(s', k) == (if s'.pcs[e.t].Fetching? && s'.pcs[e.t].key == k then Fetchers(s, k) + {e.t}
                else Fetchers(s, k) - {e.t})
            && Poppers(s', k) == (if s'.pcs[e.t].Popping? && s'.pcs[e.t].key == k then Poppers(s, k) + {e.t}
                else Poppers(s, k) - {e.t})
  {
  }

  lemma OtherKeysKeepHistory(sys: System, e: Event, k: Key)
    requires Enabled(sys.s, e)
    requires e.Call? || sys.s.pcs[e.t].key != k
    ensures var h, h' := sys.h, Step(sys, e).h;
            && Count(h'.issued, k) == Count(h.issued, k) && Count(h'.failed, k) == Count(h.failed, k)
            && Count(h'.pops, k) == Count(h.pops, k)
            && LocksOf(h'.created, k) == LocksOf(h.created, k) && LocksOf(h'.spent, k) == LocksOf(h.spent, k)
  {
  }

  lemma OtherKeysKeepState(s: State, e: Event, k: Key)
    requires Enabled(s, e)
    requires e.Call? || s.pcs[e.t].key != k
    ensures var s' := Next(s, e);
            && (k in s'.cache <==> k in s.cache) && (k in s'.inflight <==> k in s.inflight)
            && Fetchers(s', k) == Fetchers(s, k) && Poppers(s', k) == Poppers(s, k)
  {
    StepMovesThread(s, e, k);
  }

  /** How one action of a thread on key `k` moves the counts of `k`. */
  lemma OwnKeyHistory(sys: System, e: Event, k: Key)
    requires Enabled(sys.s, e) && !e.Call? && sys.s.pcs[e.t].key == k
    ensures var h, h', cached := sys.h, Step(sys, e).h, k in sys.s.cache;
            && Count(h'.issued, k) == Count(h.issued, k) + (if e.ReadAgain? && !cached then 1 else 0)
            && Count(h'.failed, k) == Count(h.failed, k) + (if e.FetchFails? then 1 else 0)
            && Count(h'.pops, k) == Count(h.pops, k) + (if e.Pop? && !cached then 1 else 0)
            && LocksOf(h'.spent, k) == LocksOf(h.spent, k) + (if e.FetchSucceeds? then {sys.s.pcs[e.t].lock} else {})
            && LocksOf(h'.created, k) == LocksOf(h.created, k) +
                 (if e.TakeEntry? && k !in sys.s.inflight && !cached then {sys.s.nextLock} else {})
  {
  }

  /** How it moves what is stored for `k` and who fetches or pops it. */
  lemma OwnKeyState(s: State, e: Event, k: Key)
    requires Enabled(s, e) && !e.Call? && s.pcs[e.t].key == k
    ensures var s' := Next(s, e);
            && (k in s'.cache <==> k in s.cache || e.FetchSucceeds?)
            && (k in s'.inflight <==> !e.Pop? && (k in s.inflight || e.TakeEntry?))
            && |Fetchers(s', k)| == |Fetchers(s, k)| + (if e.ReadAgain? && k !in s.cache then 1
                                                        else if e.FetchSucceeds? || e.FetchFails? then -1 else 0)
            && |Poppers(s', k)| == |Poppers(s, k)| + (if e.FetchSucceeds? || e.FetchFails? then 1
                                                      else if e.Pop? then -1 else 0)
  {
    StepMovesThread(s, e, k);
  }

  lemma GrowsByAtMostOne(locks: set<Lock>, l: Lock)
    ensures |locks| <= |locks + {l}| <= |locks| + 1
    ensures l !in locks ==> |locks + {l}| == |locks| + 1
  {
    assert l in locks ==> locks + {l} == locks;
  }

  lemma OwnKeyKeepsPaid(sys: System, e: Event, k: Key)
    requires Paid(sys, k) && Enabled(sys.s, e) && !e.Call? && sys.s.pcs[e.t].key == k
    requires e.FetchSucceeds? ==> sys.s.pcs[e.t].lock !in LocksOf(sys.h.spent, k)
    ensures Paid(Step(sys, e), k)
  {
    OwnKeyHistory(sys, e, k);
    OwnKeyState(sys.s, e, k);
    assert LocksOf(sys.h.spent, k) + {} == LocksOf(sys.h.spent, k);
    assert LocksOf(sys.h.created, k) + {} == LocksOf(sys.h.created, k);
    GrowsByAtMostOne(LocksOf(sys.h.created, k), sys.s.nextLock);
    if e.FetchSucceeds? {
      GrowsByAtMostOne(LocksOf(sys.h.spent, k), sys.s.pcs[e.t].lock);
    }
  }

  lemma StepKeepsPaid(sys: System, e: Event, k: Key)
    requires Paid(sys, k) && Enabled(sys.s, e)
    requires e.FetchSucceeds? ==> sys.s.pcs[e.t].lock !in LocksOf(sys.h.spent, sys.s.pcs[e.t].key)
    ensures Paid(Step(sys, e), k)
  {
    if e.Call? || sys.s.pcs[e.t].key != k {
      OtherKeysKeepHistory(sys, e, k);
      OtherKeysKeepState(sys.s, e, k);
    } else {
      OwnKeyKeepsPaid(sys, e, k);
    }
  }

  lemma InitInv()
    ensures Inv(Init())
  {
    forall k ensures Paid(Init(), k) {
      assert Fetchers(Init().s, k) == {} && Poppers(Init().s, k) == {};
    }
  }

  lemma StepKeepsInv(sys: System, e: Event)
    requires Inv(sys) && Enabled(sys.s, e)
    ensures Inv(Step(sys, e))
  {
    StepKeepsHolders(sys.s, e);
    StepKeepsBounds(sys, e);
    StepKeepsUncachedLocks(sys, e);
    StepKeepsSpent(sys, e);
    StepKeepsFetchers(sys, e);
    forall k ensures Paid(Step(sys, e), k) {
      assert Paid(sys, k);
      StepKeepsPaid(sys, e, k);
    }
  }

  lemma {:induction false} RunKeepsInv(sys: System, events: seq<Event>)
    requires Inv(sys) && Run(sys, events).Some?
    ensures Inv(Run(sys, events).value)
    decreases |events|
  {
    if events != [] {
      StepKeepsInv(sys, events[0]);
      RunKeepsInv(Step(sys, events[0]), events[1..]);
    }
  }

  // ---------------------------------------------------------------- counting

  lemma {:induction false} InjectiveImageFits(ts: set<Thread>, f: map<Thread, Lock>, locks: set<Lock>)
    requires forall t :: t in ts ==> t in f && f[t] in locks
    requires forall t, u :: t in ts && u in ts && f[t] == f[u] ==> t == u
    ensures |ts| <= |locks|
  {
    if ts != {} {
      var t :| t in ts;
      InjectiveImageFits(ts - {t}, f, locks - {f[t]});
    }
  }

  /** Requests in progress for one key run under distinct locks, each created before the key was cached and
      not yet used by a successful request. */
  lemma FetchersFit(sys: System, k: Key)
    requires Inv(sys)
    ensures |Fetchers(sys.s, k)| + |LocksOf(sys.h.spent, k)| <= |LocksOf(sys.h.created, k)|
  {
    var free := LocksOf(sys.h.created, k) - LocksOf(sys.h.spent, k);
    var f := map t | t in Fetchers(sys.s, k) :: sys.s.pcs[t].lock;
    InjectiveImageFits(Fetchers(sys.s, k), f, free);
    assert LocksOf(sys.h.created, k) == free + LocksOf(sys.h.spent, k);
  }

  lemma OpenedPaid(sys: System, k: Key)
    requires Inv(sys)
    ensures |LocksOf(sys.h.created, k)| <= 1 + Count(sys.h.failed, k)
  {
    assert Paid(sys, k);
  }

  // ---------------------------------------------------------------- main results

  /** For every interleaving: requests in progress for a key never exceed one more than its failures so far,
      and requests ever sent never exceed one more than twice its failures. */
  lemma FetchesBounded(events: seq<Event>, sys: System, k: Key)
    requires Run(Init(), events) == Some(sys)
    ensures |Fetchers(sys.s, k)| <= 1 + Count(sys.h.failed, k)
    ensures Count(sys.h.issued, k) <= 1 + 2 * Count(sys.h.failed, k)
  {
    InitInv();
    RunKeepsInv(Init(), events);
    FetchersFit(sys, k);
    OpenedPaid(sys, k);
    assert Paid(sys, k);
  }

  /** Single flight: while no request for the key has failed, at most one is ever sent. */
  lemma SingleFlightUntilFailure(events: seq<Event>, sys: System, k: Key)
    requires Run(Init(), events) == Some(sys)
    requires Count(sys.h.failed, k) == 0
    ensures Count(sys.h.issued, k) <= 1
  {
    FetchesBounded(events, sys, k);
  }

  /** A call for a cached key returns in two actions, without a lock: nothing else of the state changes. */
  lemma CachedCallReturns(s: State, t: Thread, k: Key)
    requires Enabled(s, Call(t, k)) && k in s.cache
    ensures var called := Next(s, Call(t, k));
            && Enabled(called, ReadCache(t))
            && Next(called, ReadCache(t)) == s.(pcs := s.pcs[t := Returned(k)])
  {
    assert s.pcs[t := FastPath(k)][t := Returned(k)] == s.pcs[t := Returned(k)];
  }

  /** Once the key is cached, no continuation of the run sends another request for it. */
  lemma {:induction false} NoFetchOnceCached(sys: System, events: seq<Event>, k: Key)
    requires k in sys.s.cache && Run(sys, events).Some?
    ensures k in Run(sys, events).value.s.cache
    ensures Count(Run(sys, events).value.h.issued, k) == Count(sys.h.issued, k)
    decreases |events|
  {
    if events != [] {
      NoFetchOnceCached(Step(sys, events[0]), events[1..], k);
    }
  }

  /** No deadlock: while some call has not returned, some thread that is inside a call can act. */
  lemma SomeCallCanMove(events: seq<Event>, sys: System, t: Thread)
    requires Run(Init(), events) == Some(sys)
    requires t in sys.s.pcs && !sys.s.pcs[t].Returned?
    ensures exists e: Event :: Enabled(sys.s, e) && !e.Call?
  {
    InitInv();
    RunKeepsInv(Init(), events);
    var pc := sys.s.pcs[t];
    var u := if pc.Waiting? && pc.lock in sys.s.holder then sys.s.holder[pc.lock] else t;
    var e := match sys.s.pcs[u]
      case FastPath(_) => ReadCache(u)
      case Lookup(_) => TakeEntry(u)
      case Waiting(_, _) => Acquire(u)
      case Recheck(_, _) => ReadAgain(u)
      case Fetching(_, _) => FetchFails(u)
      case Popping(_, _) => Pop(u)
      case _ => Release(u);
    assert Enabled(sys.s, e) && !e.Call?;
  }

  // ---------------------------------------------------------------- the bounds are tight

  ghost predicate Reachable(sys: System) {
    exists events :: Run(Init(), events) == Some(sys)
  }

  lemma {:induction false} RunOneMore(start: System, events: seq<Event>, sys: System, e: Event)
    requires Run(start, events) == Some(sys) && Enabled(sys.s, e)
    ensures Run(start, events + [e]) == Some(Step(sys, e))
    decreases |events|
  {
    if events == [] {
      assert ([] + [e])[1..] == [];
    } else {
      assert (events + [e])[1..] == events[1..] + [e];
      RunOneMore(Step(start, events[0]), events[1..], sys, e);
    }
  }

  lemma Then(sys: System, e: Event) returns (next: System)
    requires Reachable(sys) && Enabled(sys.s, e)
    ensures Reachable(next) && next == Step(sys, e)
  {
    var events :| Run(Init(), events) == Some(sys);
    RunOneMore(Init(), events, sys, e);
    next := Step(sys, e);
  }

  /** Requests sent and failed so far. */
  predicate Counted(sys: System, k: Key, issued: nat, failed: nat) {
    Count(sys.h.issued, k) == issued && Count(sys.h.failed, k) == failed
  }

  /** A step that neither sends nor fails a request, to a state given by its value. */
  lemma ThenQuietly(sys: System, e: Event, s: State, k: Key) returns (next: System)
    requires Reachable(sys) && Enabled(sys.s, e) && Next(sys.s, e) == s && !e.ReadAgain? && !e.FetchFails?
    ensures Reachable(next) && next.s == s && Counted(next, k, Count(sys.h.issued, k), Count(sys.h.failed, k))
  {
    next := Then(sys, e);
  }

  /** The states a call passes through, up to its lock. */
  lemma CallStates(s: State, t: Thread, k: Key)
    requires t !in s.pcs && k !in s.cache
    ensures Next(Goto(s, t, FastPath(k)), ReadCache(t)) == Goto(s, t, Lookup(k))
    ensures Next(Goto(s, t, Lookup(k)), TakeEntry(t)) == Waits(s, t, k)
  {
    assert s.pcs[t := FastPath(k)][t := Lookup(k)] == s.pcs[t := Lookup(k)];
  }

  /** From its lock to the request. */
  lemma FetchStates(s: State, t: Thread, k: Key, l: Lock)
    requires t in s.pcs && s.pcs[t] == Waiting(k, l) && l !in s.holder && k !in s.cache
    ensures Enabled(s, Acquire(t)) && Next(s, Acquire(t)) == Goto(Locked(s, t, l), t, Recheck(k, l))
    ensures Next(Goto(Locked(s, t, l), t, Recheck(k, l)), ReadAgain(t)) == Goto(Locked(s, t, l), t, Fetching(k, l))
  {
    assert s.pcs[t := Recheck(k, l)][t := Fetching(k, l)] == s.pcs[t := Fetching(k, l)];
  }

  function Locked(s: State, t: Thread, l: Lock): State { s.(holder := s.holder[l := t]) }

  function PoppedOff(s: State, k: Key): State { s.(inflight := s.inflight - {k}) }

  function Freed(s: State, l: Lock): State { s.(holder := s.holder - {l}) }

  /** From a failed request to the end of the call. */
  lemma LeaveStates(s: State, t: Thread, k: Key, l: Lock)
    ensures Next(Goto(s, t, Popping(k, l)), Pop(t)) == Goto(PoppedOff(s, k), t, Releasing(k, l))
    ensures Next(Goto(PoppedOff(s, k), t, Releasing(k, l)), Release(t))
            == Goto(Freed(PoppedOff(s, k), l), t, Returned(k))
  {
    assert s.pcs[t := Popping(k, l)][t := Releasing(k, l)] == s.pcs[t := Releasing(k, l)];
    assert s.pcs[t := Releasing(k, l)][t := Returned(k)] == s.pcs[t := Returned(k)];
  }

  /** A call that misses the cache ends up waiting for the key's lock, which it creates if there is none. */
  lemma CallWaits(sys: System, t: Thread, k: Key) returns (next: System)
    requires Reachable(sys) && t !in sys.s.pcs && k !in sys.s.cache
    ensures Reachable(next) && Counted(next, k, Count(sys.h.issued, k), Count(sys.h.failed, k))
    ensures next.s == Waits(sys.s, t, k)
  {
    var s := sys.s;
    CallStates(s, t, k);
    next := ThenQuietly(sys, Call(t, k), Goto(s, t, FastPath(k)), k);
    next := ThenQuietly(next, ReadCache(t), Goto(s, t, Lookup(k)), k);
    next := ThenQuietly(next, TakeEntry(t), Waits(s, t, k), k);
  }

  function Waits(s: State, t: Thread, k: Key): State {
    if k in s.inflight then Goto(s, t, Waiting(k, s.inflight[k]))
    else Goto(s.(inflight := s.inflight[k := s.nextLock], nextLock := s.nextLock + 1), t, Waiting(k, s.nextLock))
  }

  /** A waiting call whose lock is free sends its request. */
  lemma WaiterFetches(sys: System, t: Thread, k: Key, l: Lock) returns (next: System)
    requires Reachable(sys) && t in sys.s.pcs && sys.s.pcs[t] == Waiting(k, l) && l !in sys.s.holder
             && k !in sys.s.cache
    ensures Reachable(next) && Counted(next, k, Count(sys.h.issued, k) + 1, Count(sys.h.failed, k))
    ensures next.s == Goto(Locked(sys.s, t, l), t, Fetching(k, l))
  {
    FetchStates(sys.s, t, k, l);
    next := ThenQuietly(sys, Acquire(t), Goto(Locked(sys.s, t, l), t, Recheck(k, l)), k);
    next := Then(next, ReadAgain(t));
  }

  /** A request fails; its call pops the entry and releases the lock. */
  lemma FetchFailsAndLeaves(sys: System, t: Thread, k: Key, l: Lock) returns (next: System)
    requires Reachable(sys) && t in sys.s.pcs && sys.s.pcs[t] == Fetching(k, l)
    ensures Reachable(next) && Counted(next, k, Count(sys.h.issued, k), Count(sys.h.failed, k) + 1)
    ensures next.s == Goto(Freed(PoppedOff(sys.s, k), l), t, Returned(k))
  {
    next := Then(sys, FetchFails(t));
    LeaveStates(sys.s, t, k, l);
    next := ThenQuietly(next, Pop(t), Goto(PoppedOff(sys.s, k), t, Releasing(k, l)), k);
    next := ThenQuietly(next, Release(t), Goto(Freed(PoppedOff(sys.s, k), l), t, Returned(k)), k);
  }

  /** After `n` failures: `n` requests in progress under locks no longer in the dictionary, 2n sent. */
  ghost predicate Piled(sys: System, k: Key, n: nat) {
    && Reachable(sys) && Counted(sys, k, 2 * n, n)
    && k !in sys.s.cache && k !in sys.s.inflight && sys.s.nextLock == n
    && (forall t :: t in sys.s.pcs ==> t < 2 * n)
    && (forall l :: l in sys.s.holder ==> l < n)
    && |Fetchers(sys.s, k)| == n
  }

  /** Two calls wait for a new lock. */
  function TwoWait(s: State, a: Thread, b: Thread, k: Key, l: Lock): State {
    Goto(Goto(s.(inflight := s.inflight[k := l], nextLock := l + 1), a, Waiting(k, l)), b, Waiting(k, l))
  }

  lemma TwoCallsWait(sys: System, a: Thread, b: Thread, k: Key) returns (next: System)
    requires Reachable(sys) && a !in sys.s.pcs && b !in sys.s.pcs && a != b && k !in sys.s.cache && k !in sys.s.inflight
    ensures Reachable(next) && Counted(next, k, Count(sys.h.issued, k), Count(sys.h.failed, k))
    ensures next.s == TwoWait(sys.s, a, b, k, sys.s.nextLock)
  {
    next := CallWaits(sys, a, k);
    next := CallWaits(next, b, k);
  }

  /** The first of them has fetched, failed, popped the entry and left the lock to the second. */
  lemma FirstFails(s: State, a: Thread, b: Thread, k: Key, l: Lock)
    requires a != b && k !in s.inflight && l !in s.holder
    ensures var fetching := Goto(Locked(TwoWait(s, a, b, k, l), a, l), a, Fetching(k, l));
            Goto(Freed(PoppedOff(fetching, k), l), a, Returned(k))
            == Goto(Goto(s.(nextLock := l + 1), a, Returned(k)), b, Waiting(k, l))
  {
    assert s.inflight[k := l] - {k} == s.inflight && s.holder[l := a] - {l} == s.holder;
    assert s.pcs[a := Waiting(k, l)][b := Waiting(k, l)][a := Fetching(k, l)][a := Returned(k)]
        == s.pcs[a := Returned(k)][b := Waiting(k, l)];
  }

  /** Two calls share a new lock; the first fails and leaves. */
  lemma ShareAndFail(sys: System, a: Thread, b: Thread, k: Key, l: Lock) returns (next: System)
    requires Reachable(sys) && a !in sys.s.pcs && b !in sys.s.pcs && a != b && k !in sys.s.cache && k !in sys.s.inflight
    requires sys.s.nextLock == l && l !in sys.s.holder
    ensures Reachable(next) && Counted(next, k, Count(sys.h.issued, k) + 1, Count(sys.h.failed, k) + 1)
    ensures next.s == Goto(Goto(sys.s.(nextLock := l + 1), a, Returned(k)), b, Waiting(k, l))
  {
    next := TwoCallsWait(sys, a, b, k);
    next := WaiterFetches(next, a, k, l);
    next := FetchFailsAndLeaves(next, a, k, l);
    FirstFails(sys.s, a, b, k, l);
  }

  /** One more failure leaves one more request in progress: the second call's, under the lock left to it. */
  lemma PileOne(sys: System, k: Key, n: nat) returns (next: System)
    requires Piled(sys, k, n)
    ensures Piled(next, k, n + 1)
  {
    var a, b := 2 * n, 2 * n + 1;
    next := ShareAndFail(sys, a, b, k, n);
    next := WaiterFetches(next, b, k, n);
    FetchersGrow(sys.s, next.s, a, b, k, n);
  }

  lemma FetchersGrow(s: State, s': State, a: Thread, b: Thread, k: Key, l: Lock)
    requires a !in s.pcs && b !in s.pcs && a != b
    requires s'.pcs == s.pcs[a := Returned(k)][b := Waiting(k, l)][b := Fetching(k, l)]
    ensures |Fetchers(s', k)| == |Fetchers(s, k)| + 1
  {
    assert Fetchers(s', k) == Fetchers(s, k) + {b};
  }

  lemma {:induction false} PileUp(k: Key, n: nat) returns (sys: System)
    ensures Piled(sys, k, n)
  {
    if n == 0 {
      sys := Init();
      assert Run(Init(), []) == Some(sys) && Fetchers(sys.s, k) == {};
    } else {
      sys := PileUp(k, n - 1);
      sys := PileOne(sys, k, n - 1);
    }
  }

  /** Both bounds are tight for every number of failures: since the entry is popped before the lock is released,
      after `n` failures `n + 1` requests for one key can be in progress, `2n + 1` having been sent. */
  lemma BoundsAreTight(k: Key, n: nat)
    ensures exists events ::
              && Run(Init(), events).Some?
              && var sys := Run(Init(), events).value;
                 Count(sys.h.failed, k) == n && |Fetchers(sys.s, k)| == n + 1 && Count(sys.h.issued, k) == 2 * n + 1
  {
    var piled := PileUp(k, n);
    var sys := CallWaits(piled, 2 * n, k);
    sys := WaiterFetches(sys, 2 * n, k, n);
    assert Fetchers(sys.s, k) == Fetchers(piled.s, k) + {2 * n};
    var events :| Run(Init(), events) == Some(sys);
  }
}
