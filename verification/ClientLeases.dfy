/** Leasing of TWS client ids: one lease table shared by several processes, and the connect loops that use it. */
module ClientLeases {
  import opened Common

  const LEASE_TTL_MS := 60_000

  type Owner = string
  type ClientId = int

  datatype Lease = Lease(owner: Owner, role: string, leasedAt: int, expiresAt: int)

  type Leases = map<ClientId, Lease>

  // ---------------------------------------------------------------- one transaction on the table

  function Unexpired(t: Leases, now: int): Leases {
    map id | id in t && t[id].expiresAt > now :: t[id]
  }

  /** The id is free once expired leases are gone, or already this owner's. */
  predicate CanClaim(t: Leases, owner: Owner, id: ClientId, now: int) {
    id in Unexpired(t, now) ==> t[id].owner == owner
  }

  /** `_try_claim`: purge, then insert or renew; a refused claim still purges. */
  function Claimed(t: Leases, owner: Owner, role: string, id: ClientId, now: int): Leases {
    var alive := Unexpired(t, now);
    if CanClaim(t, owner, id, now) then alive[id := Lease(owner, role, now, now + LEASE_TTL_MS)] else alive
  }

  function Released(t: Leases, owner: Owner, id: ClientId): Leases {
    if id in t && t[id].owner == owner then t - {id} else t
  }

  // ---------------------------------------------------------------- runs of all processes

  /** A transaction of some process; `now` is the machine's clock. */
  datatype Event =
    | Claim(owner: Owner, role: string, id: ClientId, now: int)
    | Release(owner: Owner, id: ClientId, now: int)

  function After(t: Leases, e: Event): Leases {
    match e
    case Claim(owner, role, id, now) => Claimed(t, owner, role, id, now)
    case Release(owner, id, _) => Released(t, owner, id)
  }

  /** The table after a run of events, from an empty one. */
  function Table(events: seq<Event>): Leases {
    if events == [] then map[] else After(Table(events[..|events| - 1]), events[|events| - 1])
  }

  /** Event `i` is a claim that succeeded. */
  predicate Granted(events: seq<Event>, i: nat)
    requires i < |events|
  {
    events[i].Claim? && CanClaim(Table(events[..i]), events[i].owner, events[i].id, events[i].now)
  }

  predicate ClockNeverGoesBack(events: seq<Event>) {
    forall i, j :: 0 <= i < j < |events| ==> events[i].now <= events[j].now
  }

  /** Between events `i` and `j`, `owner` neither claimed `id` again nor released it. */
  predicate Quiet(events: seq<Event>, owner: Owner, id: ClientId, i: nat, j: nat)
    requires i < j <= |events|
  {
    forall m :: i < m < j ==>
        !(events[m].owner == owner && events[m].id == id && (events[m].Release? || Granted(events, m)))
  }

  /** As long as a grant is not released or renewed and a full TTL has not passed, its row stays as written. */
  lemma {:induction false} GrantStands(events: seq<Event>, i: nat, j: nat, now: int)
    requires ClockNeverGoesBack(events) && i < j <= |events| && Granted(events, i)
    requires Quiet(events, events[i].owner, events[i].id, i, j)
    requires forall m :: i <= m < j ==> events[m].now <= now
    requires now < events[i].now + LEASE_TTL_MS
    ensures var e := events[i];
            e.id in Table(events[..j]) && Table(events[..j])[e.id]
                == Lease(e.owner, e.role, e.now, e.now + LEASE_TTL_MS)
    decreases j
  {
    var prefix := events[..j];
    assert prefix[..j - 1] == events[..j - 1];
    assert Table(prefix) == After(Table(events[..j - 1]), events[j - 1]);
    if j - 1 > i {
      GrantStands(events, i, j - 1, now);
    }
  }

  /** Lease safety: when two owners are granted the same id one after the other, then in between the first owner
      released it, or a full TTL has passed since the first owner's last grant of the id. */
  lemma LeaseSafety(events: seq<Event>, i: nat, j: nat)
    requires ClockNeverGoesBack(events) && i < j < |events|
    requires Granted(events, i) && Granted(events, j)
    requires events[i].id == events[j].id && events[i].owner != events[j].owner
    ensures exists m :: i <= m < j && events[m].owner == events[i].owner && events[m].id == events[i].id
              && Quiet(events, events[i].owner, events[i].id, m, j)
              && (events[m].Release? || (Granted(events, m) && events[j].now >= events[m].now + LEASE_TTL_MS))
  {
    var last := LastTouch(events, events[i].owner, events[i].id, i, j);
    if !events[last].Release? && events[j].now < events[last].now + LEASE_TTL_MS {
      GrantStands(events, last, j, events[j].now);
    }
  }

  /** The last grant or release of `id` by `owner` in a stretch that starts with one. */
  lemma {:induction false} LastTouch(events: seq<Event>, owner: Owner, id: ClientId, i: nat, j: nat) returns (m: nat)
    requires i < j <= |events| && events[i].owner == owner && events[i].id == id && Granted(events, i)
    ensures i <= m < j && events[m].owner == owner && events[m].id == id && (events[m].Release? || Granted(events, m))
    ensures Quiet(events, owner, id, m, j)
    decreases j
  {
    var e := events[j - 1];
    if e.owner == owner && e.id == id && (e.Release? || Granted(events, j - 1)) {
      m := j - 1;
    } else {
      m := LastTouch(events, owner, id, i, j - 1);
    }
  }

  // ---------------------------------------------------------------- when exactly a claim is refused

  /** What a claim comes to, from the events and their times alone: it is refused exactly when some other owner was
      granted the id less than a TTL before, and has neither released it nor been granted it again since. */
  ghost predicate Succeeds(events: seq<Event>, j: nat)
    requires j < |events|
    decreases j, 1
  {
    events[j].Claim? && forall i :: 0 <= i < j ==> !StandsInTheWay(events, i, j)
  }

  ghost predicate StandsInTheWay(events: seq<Event>, i: nat, j: nat)
    requires i < j < |events|
    decreases j, 0
  {
    && Succeeds(events, i) && events[i].id == events[j].id && events[i].owner != events[j].owner
    && events[j].now < events[i].now + LEASE_TTL_MS
    && forall m :: i < m < j && events[m].id == events[i].id && events[m].owner == events[i].owner ==>
         !events[m].Release? && !Succeeds(events, m)
  }

  /** A row of the table is that of a grant, with nothing of its owner after it. */
  lemma {:induction false} RowIsGrant(events: seq<Event>, j: nat, id: ClientId) returns (i: nat)
    requires j <= |events| && id in Table(events[..j])
    ensures i < j && Granted(events, i) && events[i].id == id && Quiet(events, events[i].owner, id, i, j)
    ensures var e := events[i]; Table(events[..j])[id] == Lease(e.owner, e.role, e.now, e.now + LEASE_TTL_MS)
    decreases j
  {
    var prefix, e := events[..j], events[j - 1];
    assert prefix[..j - 1] == events[..j - 1];
    assert Table(prefix) == After(Table(events[..j - 1]), e);
    if e.Claim? && e.id == id && Granted(events, j - 1) {
      i := j - 1;
    } else {
      i := RowIsGrant(events, j - 1, id);
      assert !(e.owner == events[i].owner && e.id == id && (e.Release? || Granted(events, j - 1)));
    }
  }

  /** The grant of another owner that stands in the way of claim `j`. */
  ghost predicate Blocks(events: seq<Event>, i: nat, j: nat)
    requires i < j < |events|
  {
    Granted(events, i) && events[i].id == events[j].id && events[i].owner != events[j].owner
    && events[j].now < events[i].now + LEASE_TTL_MS && Quiet(events, events[i].owner, events[i].id, i, j)
  }

  /** A claim is refused if and only if such a grant exists. */
  lemma RefusedIffBlocked(events: seq<Event>, j: nat)
    requires ClockNeverGoesBack(events) && j < |events| && events[j].Claim?
    ensures !Granted(events, j) <==> exists i :: 0 <= i < j && Blocks(events, i, j)
  {
    if !Granted(events, j) {
      var i := RowIsGrant(events, j, events[j].id);
      assert Blocks(events, i, j);
    } else if i :| 0 <= i < j && Blocks(events, i, j) {
      GrantStands(events, i, j, events[j].now);
    }
  }

  /** The table decides every claim of a run as the events and their times say. */
  lemma {:induction false} GrantedIffSucceeds(events: seq<Event>, j: nat)
    requires ClockNeverGoesBack(events) && j < |events|
    ensures Granted(events, j) <==> Succeeds(events, j)
    decreases j
  {
    forall i | 0 <= i < j ensures Granted(events, i) <==> Succeeds(events, i) { GrantedIffSucceeds(events, i); }
    if events[j].Claim? {
      RefusedIffBlocked(events, j);
      forall i | 0 <= i < j ensures Blocks(events, i, j) <==> StandsInTheWay(events, i, j) {}
    }
  }

  // ---------------------------------------------------------------- the shared table

  /** What a transaction decides stays decided as the run goes on. */
  lemma GrantedStays(events: seq<Event>, more: seq<Event>, i: nat)
    requires i < |events|
    ensures Granted(events + more, i) <==> Granted(events, i)
  {
    assert (events + more)[..i] == events[..i];
  }

  /** What happens before a transaction of one process: transactions of the others, and the clock afterwards. */
  datatype Turn = Turn(others: seq<Event>, now: int)

  /** The table `ibkr_client_leases`, kept as the run that made it: its rows are `Table(log)`. */
  class LeaseTable {
    var log: seq<Event>

    constructor ()
      ensures log == []
    {
      log := [];
    }

    /** `_try_claim`: whether a row of another owner is left once the expired ones are purged. As long as the clock
        never goes back, that is what the events and their times say. */
    method TryClaim(owner: Owner, role: string, id: ClientId, now: int) returns (ok: bool)
      modifies this
      ensures log == old(log) + [Claim(owner, role, id, now)]
      ensures ok <==> Granted(log, |log| - 1)
      ensures ClockNeverGoesBack(log) ==> (ok <==> Succeeds(log, |log| - 1))
      ensures ok ==> id in Table(log) && Table(log)[id] == Lease(owner, role, now, now + LEASE_TTL_MS)
      ensures !ok ==> id in Table(log) && Table(log)[id].owner != owner
    {
      assert (log + [Claim(owner, role, id, now)])[..|log|] == log;
      var alive := Unexpired(Table(log), now);
      log := log + [Claim(owner, role, id, now)];
      if ClockNeverGoesBack(log) { GrantedIffSucceeds(log, |log| - 1); }
      if id !in alive {
        return true;
      }
      return alive[id].owner == owner;
    }

    /** DELETE ... WHERE client_id = ? AND owner = ?: no row of this owner is left for the id. */
    method Delete(owner: Owner, id: ClientId, now: int)
      modifies this
      ensures log == old(log) + [Release(owner, id, now)]
      ensures id in Table(log) ==> Table(log)[id].owner != owner
    {
      assert (log + [Release(owner, id, now)])[..|log|] == log;
      log := log + [Release(owner, id, now)];
    }
  }

  // ---------------------------------------------------------------- one process

  datatype Outcome = Connected | InUse | Failed

  predicate Increasing(ids: seq<ClientId>) {
    forall i, j :: 0 <= i < j < |ids| ==> ids[i] < ids[j]
  }

  /** A claim of one process, after transactions of the others. */
  function WithClaim(log: seq<Event>, owner: Owner, role: string, id: ClientId, turn: Turn): seq<Event> {
    log + turn.others + [Claim(owner, role, id, turn.now)]
  }

  /** `acquire` from `candidate` on: claim after claim until one is granted. The result and the run after it. */
  function Acquired(log: seq<Event>, owner: Owner, role: string, candidate: ClientId, max: int, retired: set<ClientId>,
                    turns: nat -> Turn, n: nat): (Option<ClientId>, seq<Event>)
    decreases max - candidate
  {
    if candidate > max then (None, log)
    else if candidate in retired then Acquired(log, owner, role, candidate + 1, max, retired, turns, n)
    else
      var next := WithClaim(log, owner, role, candidate, turns(n));
      if Granted(next, |next| - 1) then (Some(candidate), next)
      else Acquired(next, owner, role, candidate + 1, max, retired, turns, n + 1)
  }

  /** `owner` claimed `id` in the run, at or after position `from`, and was refused. */
  ghost predicate WasRefused(log: seq<Event>, from: nat, owner: Owner, id: ClientId) {
    exists i :: from <= i < |log| && log[i].Claim? && log[i].owner == owner && log[i].id == id && !Granted(log, i)
  }

  /** The run ends with a claim of `id` by `owner` that was granted. */
  ghost predicate GrantedLast(log: seq<Event>, owner: Owner, role: string, id: ClientId) {
    log != [] && var last := |log| - 1; log[last] == Claim(owner, role, id, log[last].now) && Granted(log, last)
  }

  lemma {:induction false} AcquiredExtends(log: seq<Event>, owner: Owner, role: string, first: ClientId, max: int,
                                           retired: set<ClientId>, turns: nat -> Turn, n: nat)
    ensures log <= Acquired(log, owner, role, first, max, retired, turns, n).1
    decreases max - first
  {
    if first <= max {
      if first in retired {
        AcquiredExtends(log, owner, role, first + 1, max, retired, turns, n);
      } else {
        AcquiredExtends(WithClaim(log, owner, role, first, turns(n)), owner, role, first + 1, max, retired, turns,
            n + 1);
      }
    }
  }

  /** The result of `acquire` is not retired, and is the claim granted last in the run. */
  lemma {:induction false} AcquiredIsGranted(log: seq<Event>, owner: Owner, role: string, first: ClientId, max: int,
                                             retired: set<ClientId>, turns: nat -> Turn, n: nat)
    ensures var (result, later) := Acquired(log, owner, role, first, max, retired, turns, n);
            result.Some? ==>
              && first <= result.value <= max && result.value !in retired
              && |log| < |later| && GrantedLast(later, owner, role, result.value)
    decreases max - first
  {
    if first <= max {
      if first in retired {
        AcquiredIsGranted(log, owner, role, first + 1, max, retired, turns, n);
      } else {
        AcquiredIsGranted(WithClaim(log, owner, role, first, turns(n)), owner, role, first + 1, max, retired, turns,
            n + 1);
      }
    }
  }

  /** Every id before the result that is not retired was claimed and refused; when there is no result, every id up
      to the end. */
  lemma {:induction false} EarlierRefused(log: seq<Event>, owner: Owner, role: string, first: ClientId, max: int,
                                          retired: set<ClientId>, turns: nat -> Turn, n: nat, id: ClientId)
    requires first <= id && id !in retired
    requires var result := Acquired(log, owner, role, first, max, retired, turns, n).0;
             if result.Some? then id < result.value else id <= max
    ensures WasRefused(Acquired(log, owner, role, first, max, retired, turns, n).1, |log|, owner, id)
    decreases max - first
  {
    AcquiredIsGranted(log, owner, role, first, max, retired, turns, n);
    if first in retired {
      EarlierRefused(log, owner, role, first + 1, max, retired, turns, n, id);
    } else {
      var next := WithClaim(log, owner, role, first, turns(n));
      var later := Acquired(next, owner, role, first + 1, max, retired, turns, n + 1).1;
      if id == first {
        AcquiredExtends(next, owner, role, first + 1, max, retired, turns, n + 1);
        RefusedStays(next, later, |log|, owner, first);
      } else {
        EarlierRefused(next, owner, role, first + 1, max, retired, turns, n + 1, id);
        RefusedSince(later, |log|, |next|, owner, id);
      }
    }
  }

  lemma RefusedSince(log: seq<Event>, from: nat, since: nat, owner: Owner, id: ClientId)
    requires WasRefused(log, since, owner, id) && from <= since
    ensures WasRefused(log, from, owner, id)
  {
  }

  lemma RefusedStays(log: seq<Event>, later: seq<Event>, from: nat, owner: Owner, id: ClientId)
    requires from < |log| && log <= later && log[|log| - 1].Claim? && log[|log| - 1].owner == owner
             && log[|log| - 1].id == id
    requires !Granted(log, |log| - 1)
    ensures WasRefused(later, from, owner, id)
  {
    assert log + later[|log|..] == later;
    GrantedStays(log, later[|log|..], |log| - 1);
  }

  /** The id cannot be had: it is retired, or was refused since position `from` of the run. */
  ghost predicate PassedOver(log: seq<Event>, from: nat, owner: Owner, retired: set<ClientId>, id: ClientId) {
    id in retired || WasRefused(log, from, owner, id)
  }

  /** None of the ids from `low` up to `high` can be had. */
  ghost predicate AllPassed(log: seq<Event>, from: nat, owner: Owner, retired: set<ClientId>, low: int, high: int)
    decreases high - low
  {
    low >= high
    || (AllPassed(log, from, owner, retired, low, high - 1) && PassedOver(log, from, owner, retired, high - 1))
  }

  lemma {:induction false} AllPassedMeans(log: seq<Event>, from: nat, owner: Owner, retired: set<ClientId>, low: int,
                                          high: int)
    ensures AllPassed(log, from, owner, retired, low, high)
            <==> forall id :: low <= id < high ==> PassedOver(log, from, owner, retired, id)
    decreases high - low
  {
    if low < high { AllPassedMeans(log, from, owner, retired, low, high - 1); }
  }

  lemma RefusedPersists(log: seq<Event>, later: seq<Event>, from: nat, owner: Owner, id: ClientId)
    requires WasRefused(log, from, owner, id) && log <= later
    ensures WasRefused(later, from, owner, id)
  {
    var i :| from <= i < |log| && log[i].Claim? && log[i].owner == owner && log[i].id == id && !Granted(log, i);
    assert log + later[|log|..] == later;
    GrantedStays(log, later[|log|..], i);
  }

  /** A scan that goes on where an earlier one stopped, with more ids retired by then. */
  lemma ScanGoesOn(log: seq<Event>, later: seq<Event>, from: nat, since: nat, owner: Owner, retired: set<ClientId>,
      more: set<ClientId>, low: int, mid: int, high: int)
    requires AllPassed(log, from, owner, retired, low, mid) && AllPassed(later, since, owner, more, mid, high)
    requires log <= later && from <= since && retired <= more
    ensures AllPassed(later, from, owner, more, low, high)
  {
    AllPassedMeans(log, from, owner, retired, low, mid);
    AllPassedMeans(later, since, owner, more, mid, high);
    AllPassedMeans(later, from, owner, more, low, high);
    forall id | low <= id < high ensures PassedOver(later, from, owner, more, id) {
      if id < mid {
        assert PassedOver(log, from, owner, retired, id);
        if id !in retired { RefusedPersists(log, later, from, owner, id); }
      } else {
        assert PassedOver(later, since, owner, more, id);
        if id !in more { RefusedSince(later, from, since, owner, id); }
      }
    }
  }

  lemma ClaimsInOrder(log: seq<Event>, owner: Owner, role: string, first: ClientId, max: int, retired: set<ClientId>,
      turns: nat -> Turn)
    ensures var (result, later) := Acquired(log, owner, role, first, max, retired, turns, 0);
            && log <= later && (result.Some? ==> GrantedLast(later, owner, role, result.value))
            && AllPassed(later, |log|, owner, retired, first, if result.Some? then result.value else max + 1)
  {
    var (result, later) := Acquired(log, owner, role, first, max, retired, turns, 0);
    AcquiredExtends(log, owner, role, first, max, retired, turns, 0);
    AcquiredIsGranted(log, owner, role, first, max, retired, turns, 0);
    AllPassedMeans(later, |log|, owner, retired, first, if result.Some? then result.value else max + 1);
    forall id | first <= id < (if result.Some? then result.value else max + 1)
      ensures PassedOver(later, |log|, owner, retired, id)
    {
      if id !in retired { EarlierRefused(log, owner, role, first, max, retired, turns, 0, id); }
    }
  }

  class ClientIdManager {
    const start: int
    const max: int
    const owner: Owner
    const table: LeaseTable
    var retired: set<ClientId>
    var roles: map<string, ClientId>

    constructor (start: int, max: int, owner: Owner, table: LeaseTable)
      ensures this.start == start && this.max == max && this.owner == owner && this.table == table
      ensures retired == {} && roles == map[]
    {
      this.start, this.max, this.owner, this.table := start, max, owner, table;
      retired, roles := {}, map[];
    }

    /** Where the scan of `acquire` begins: the least id in range that is not below. */
    function FirstCandidate(role: string, preferred: Option<int>): (c: int)
      reads this
      ensures c >= start && NotBelow(role, preferred, c)
      ensures forall id :: start <= id && NotBelow(role, preferred, id) ==> c <= id
    {
      var wanted := if preferred.Some? then preferred.value else if role in roles then roles[role] else start;
      if wanted < start then start else wanted
    }

    /** The id is not below the preferred one, or, without preference, not below the one the role has. */
    predicate NotBelow(role: string, preferred: Option<int>, id: int)
      reads this
    {
      (preferred.Some? ==> preferred.value <= id) && (preferred.None? && role in roles ==> roles[role] <= id)
    }

    /** A claim, after transactions of the others. */
    method ClaimAfter(role: string, candidate: ClientId, turn: Turn) returns (ok: bool)
      modifies table
      ensures table.log == WithClaim(old(table.log), owner, role, candidate, turn)
      ensures ok <==> Granted(table.log, |table.log| - 1)
    {
      table.log := table.log + turn.others;
      ok := table.TryClaim(owner, role, candidate, turn.now);
    }

    /** Scans upward from the preferred id, skipping retired ids. `turns(n)` is what happens before the n-th
        transaction; None stands for the exception. The result is the claim granted last; every id passed over is
        retired or was claimed and refused. */
    method Acquire(role: string, preferred: Option<int>, turns: nat -> Turn) returns (result: Option<ClientId>)
      modifies this, table
      ensures (result, table.log) == Acquired(old(table.log), owner, role, old(FirstCandidate(role, preferred)), max,
              retired, turns, 0)
      ensures result.Some? ==> result.value !in retired && old(FirstCandidate(role, preferred)) <= result.value <= max
      ensures result.Some? ==> GrantedLast(table.log, owner, role, result.value)
      ensures old(table.log) <= table.log
              && AllPassed(table.log, |old(table.log)|, owner, retired, old(FirstCandidate(role, preferred)),
                           if result.Some? then result.value else max + 1)
      ensures roles == if result.Some? then old(roles)[role := result.value] else old(roles)
      ensures retired == old(retired)
    {
      var candidate := FirstCandidate(role, preferred);
      ClaimsInOrder(table.log, owner, role, candidate, max, retired, turns);
      ghost var run := Acquired(table.log, owner, role, candidate, max, retired, turns, 0);
      var used := 0;
      while candidate <= max
        invariant candidate >= old(FirstCandidate(role, preferred)) && retired == old(retired) && roles == old(roles)
        invariant Acquired(table.log, owner, role, candidate, max, retired, turns, used) == run
        decreases max - candidate
      {
        if candidate in retired {
          candidate := candidate + 1;
          continue;
        }
        var ok := ClaimAfter(role, candidate, turns(used));
        if ok {
          roles := roles[role := candidate];
          return Some(candidate);
        }
        used := used + 1;
        candidate := candidate + 1;
      }
      return None;
    }

    /** An id refused by TWS is retired and released, and the next one above it acquired. */
    method NextAfterRejection(role: string, rejected: ClientId, turn: Turn, turns: nat -> Turn)
        returns (next: Option<ClientId>)
      modifies this, table
      ensures retired == old(retired) + {rejected}
      ensures next.Some? ==> next.value !in retired && rejected < next.value <= max
      ensures old(table.log) <= table.log
              && AllPassed(table.log, |old(table.log)|, owner, retired, if rejected < start then start else rejected,
                           if next.Some? then next.value else max + 1)
    {
      MarkRejected(rejected, turn);
      ghost var log := table.log;
      next := Acquire(role, Some(rejected + 1), turns);
      AllPassedMeans(log, |old(table.log)|, owner, retired, if rejected < start then start else rejected,
          FirstCandidate(role, Some(rejected + 1)));
      ScanGoesOn(log, table.log, |old(table.log)|, |log|, owner, retired, retired,
          if rejected < start then start else rejected, FirstCandidate(role, Some(rejected + 1)),
          if next.Some? then next.value else max + 1);
    }

    /** Deletes the table row, if it is this owner's, and forgets every role that holds the id. */
    method Release(id: ClientId, turn: Turn)
      modifies this, table
      ensures table.log == old(table.log) + turn.others + [Event.Release(owner, id, turn.now)]
      ensures id in Table(table.log) ==> Table(table.log)[id].owner != owner
      ensures retired == old(retired)
      ensures roles == map role | role in old(roles) && old(roles)[role] != id :: old(roles)[role]
    {
      table.log := table.log + turn.others;
      table.Delete(owner, id, turn.now);
      roles := map role | role in roles && roles[role] != id :: roles[role];
    }

    method MarkRejected(id: ClientId, turn: Turn)
      modifies this, table
      ensures table.log == old(table.log) + turn.others + [Event.Release(owner, id, turn.now)]
      ensures id in Table(table.log) ==> Table(table.log)[id].owner != owner
      ensures retired == old(retired) + {id}
      ensures roles == map role | role in old(roles) && old(roles)[role] != id :: old(roles)[role]
    {
      retired := retired + {id};
      Release(id, turn);
    }
  }

  /** Increasing from `low` on and below `next`. */
  predicate Rising(ids: seq<ClientId>, low: ClientId, next: ClientId) {
    ids == [] ||
    var last := ids[|ids| - 1];
    Rising(ids[..|ids| - 1], low, last) && low <= last < next
  }

  lemma {:induction false} RisingMeans(ids: seq<ClientId>, low: ClientId, next: ClientId)
    requires Rising(ids, low, next)
    ensures Increasing(ids) && forall i :: 0 <= i < |ids| ==> low <= ids[i] < next
  {
    if ids != [] {
      var n := |ids| - 1;
      RisingMeans(ids[..n], low, ids[n]);
      forall i | 0 <= i < n ensures low <= ids[i] < ids[n] { assert ids[..n][i] == ids[i]; }
      forall i, j | 0 <= i < j < n ensures ids[i] < ids[j] { assert ids[..n][i] < ids[..n][j]; }
    }
  }

  lemma RisingGrows(ids: seq<ClientId>, low: ClientId, id: ClientId, next: ClientId)
    requires Rising(ids, low, id) && low <= id < next
    ensures Rising(ids + [id], low, next)
  {
    assert (ids + [id])[..|ids|] == ids;
  }

  predicate Distinct(ids: seq<ClientId>) {
    forall i, j :: 0 <= i < j < |ids| ==> ids[i] != ids[j]
  }

  const WORKER_ROLE := "watchlist-worker"

  /** What a client id gets over all ports in turn: the first answer that is not a plain failure. */
  function Verdict(answer: nat -> Outcome, ports: nat): Outcome {
    if ports == 0 then Failed else
    var earlier := Verdict(answer, ports - 1);
    if earlier != Failed then earlier else answer(ports - 1)
  }

  /** The verdicts of all attempts. */
  function Verdicts(answers: nat -> nat -> Outcome, ports: nat): nat -> Outcome {
    (i: nat) => Verdict(answers(i), ports)
  }

  /** A record of attempts: no id tried twice, none tried although retired before, exactly the rejected ones
      retired since, all but the last rejected. */
  ghost predicate Attempts(before: set<ClientId>, after: set<ClientId>, tried: seq<ClientId>, answer: nat -> Outcome) {
    && Distinct(tried)
    && (forall i :: 0 <= i < |tried| ==> tried[i] !in before && (tried[i] in after <==> answer(i) == InUse))
    && (forall i :: 0 <= i < |tried| - 1 ==> answer(i) == InUse)
    && before <= after
    && (forall x :: x in after ==> x in before || x in tried)
  }

  /** The retired ids once all of these were rejected. */
  function RetiredAfter(before: set<ClientId>, tried: seq<ClientId>): set<ClientId> {
    if tried == [] then before else RetiredAfter(before, tried[..|tried| - 1]) + {tried[|tried| - 1]}
  }

  /** A search that goes on: every id tried was neither retired nor tried before, and was rejected. */
  ghost predicate Searching(before: set<ClientId>, tried: seq<ClientId>, answer: nat -> Outcome) {
    tried == [] ||
    var n := |tried| - 1;
    Searching(before, tried[..n], answer) && tried[n] !in RetiredAfter(before, tried[..n]) && answer(n) == InUse
  }

  lemma {:induction false} RetiredMeans(before: set<ClientId>, tried: seq<ClientId>)
    ensures forall x :: x in RetiredAfter(before, tried) <==> x in before || x in tried
  {
    if tried != [] {
      RetiredMeans(before, tried[..|tried| - 1]);
      assert tried == tried[..|tried| - 1] + [tried[|tried| - 1]];
    }
  }

  /** What such a search has done. */
  lemma {:induction false} SearchingMeans(before: set<ClientId>, tried: seq<ClientId>, answer: nat -> Outcome)
    requires Searching(before, tried, answer)
    ensures Attempts(before, RetiredAfter(before, tried), tried, answer)
    ensures forall i :: 0 <= i < |tried| ==> answer(i) == InUse
  {
    if tried != [] {
      SearchingMeans(before, tried[..|tried| - 1], answer);
      AttemptsGrow(before, tried[..|tried| - 1], answer, tried[|tried| - 1]);
      assert tried == tried[..|tried| - 1] + [tried[|tried| - 1]];
    }
  }

  lemma DistinctGrows(tried: seq<ClientId>, id: ClientId)
    requires Distinct(tried) && id !in tried
    ensures Distinct(tried + [id])
  {
    forall i | 0 <= i < |tried| ensures tried[i] != id { assert tried[i] in tried; }
  }

  lemma AttemptsGrow(before: set<ClientId>, tried: seq<ClientId>, answer: nat -> Outcome, id: ClientId)
    requires Attempts(before, RetiredAfter(before, tried), tried, answer) && id !in RetiredAfter(before, tried)
    requires forall i :: 0 <= i < |tried| ==> answer(i) == InUse
    ensures var next := RetiredAfter(before, tried) + (if answer(|tried|) == InUse then {id} else {});
            Attempts(before, next, tried + [id], answer)
  {
    RetiredMeans(before, tried);
    DistinctGrows(tried, id);
    var retired := RetiredAfter(before, tried);
    AttemptsJoin(before, retired, tried, answer, id, retired + if answer(|tried|) == InUse then {id} else {});
  }

  lemma AttemptsJoin(before: set<ClientId>, retired: set<ClientId>, tried: seq<ClientId>, answer: nat -> Outcome,
      id: ClientId, next: set<ClientId>)
    requires Attempts(before, retired, tried, answer) && id !in retired && Distinct(tried + [id])
    requires forall i :: 0 <= i < |tried| ==> answer(i) == InUse
    requires next == retired + if answer(|tried|) == InUse then {id} else {}
    ensures Attempts(before, next, tried + [id], answer)
  {
    var all := tried + [id];
    forall i | 0 <= i < |all| ensures all[i] !in before && (all[i] in next <==> answer(i) == InUse) {
      if i < |tried| { assert all[i] == tried[i]; }
    }
    forall x | x in next ensures x in before || x in all {
      if x == id { assert all[|tried|] == id; } else { assert x in retired; }
    }
  }

  /** One more id is rejected: the search goes on. */
  lemma SearchGrows(before: set<ClientId>, tried: seq<ClientId>, answer: nat -> Outcome, id: ClientId)
    requires Searching(before, tried, answer) && id !in RetiredAfter(before, tried) && answer(|tried|) == InUse
    ensures Searching(before, tried + [id], answer)
    ensures RetiredAfter(before, tried + [id]) == RetiredAfter(before, tried) + {id}
  {
    assert (tried + [id])[..|tried|] == tried;
  }

  /** The search ends with one more id, accepted or not. */
  lemma SearchEnds(before: set<ClientId>, tried: seq<ClientId>, answer: nat -> Outcome, id: ClientId)
    requires Searching(before, tried, answer) && id !in RetiredAfter(before, tried)
    ensures var next := RetiredAfter(before, tried) + (if answer(|tried|) == InUse then {id} else {});
            Attempts(before, next, tried + [id], answer)
  {
    SearchingMeans(before, tried, answer);
    AttemptsGrow(before, tried, answer, id);
  }

  function Elements(ids: seq<ClientId>): set<ClientId> {
    set id | id in ids
  }

  lemma ElementsGrow(tried: seq<ClientId>, id: ClientId)
    ensures Elements(tried + [id]) == Elements(tried) + {id}
  {
    assert (tried + [id])[|tried|] == id;
  }

  /** The inner loop of `connect_ib_with_manager`: one id on all ports. */
  method TryPorts(answer: nat -> Outcome, ports: nat) returns (verdict: Outcome)
    ensures verdict == Verdict(answer, ports)
  {
    var port := 0;
    while port < ports
      invariant 0 <= port <= ports && Verdict(answer, port) == Failed
    {
      verdict := answer(port);
      port := port + 1;
      if verdict != Failed {
        VerdictStands(answer, port, ports);
        return;
      }
    }
    return Failed;
  }

  /** What goes on around a connect loop: before the n-th transaction of the i-th `acquire`, and before the release
      of the i-th id. */
  datatype Surroundings = Surroundings(acquiring: nat -> nat -> Turn, releasing: nat -> Turn)

  /** One turn of the loop of `connect_ib_with_manager`: the id on all ports, and the next id if TWS says this one
      is in use; the search ends on any other verdict and when no id is left. */
  method TryOneId(manager: ClientIdManager, candidate: ClientId, answer: nat -> Outcome, ports: nat,
                  releasing: Turn, acquiring: nat -> Turn)
    returns (verdict: Outcome, next: Option<ClientId>)
    requires manager.start <= candidate
    modifies manager, manager.table
    ensures verdict == Verdict(answer, ports)
    ensures manager.retired == if verdict == InUse then old(manager.retired) + {candidate} else old(manager.retired)
    ensures next.Some? ==> verdict == InUse && next.value !in manager.retired && candidate < next.value <= manager.max
    ensures old(manager.table.log) <= manager.table.log
    ensures verdict == InUse ==>
              AllPassed(manager.table.log, |old(manager.table.log)|, manager.owner, manager.retired, candidate,
                        if next.Some? then next.value else manager.max + 1)
  {
    verdict := TryPorts(answer, ports);
    next := None;
    if verdict == InUse {
      next := manager.NextAfterRejection(WORKER_ROLE, candidate, releasing, acquiring);
    }
  }

  /** Where a search ends: before the last id tried, unless TWS rejected that one too; then at the end of the range. */
  function SearchedUpTo(tried: seq<ClientId>, verdicts: nat -> Outcome, max: int): int {
    if tried != [] && verdicts(|tried| - 1) != InUse then tried[|tried| - 1] else max + 1
  }

  /** The loop of `connect_ib_with_manager`, from the first id acquired. */
  method ConnectFrom(manager: ClientIdManager, clientId: ClientId, first: ClientId, ports: nat,
                     answers: nat -> nat -> Outcome, around: Surroundings)
    returns (ok: bool, id: ClientId, ghost tried: seq<ClientId>)
    requires clientId <= first <= manager.max && manager.start <= first && first !in manager.retired
    modifies manager, manager.table
    ensures tried != [] && Rising(tried, clientId, manager.max + 1)
    ensures Attempts(old(manager.retired), manager.retired, tried, Verdicts(answers, ports))
    ensures ok <==> Verdict(answers(|tried| - 1), ports) == Connected
    ensures id == if Verdict(answers(|tried| - 1), ports) == InUse then clientId else tried[|tried| - 1]
    ensures old(manager.table.log) <= manager.table.log
            && AllPassed(manager.table.log, |old(manager.table.log)|, manager.owner, manager.retired, first,
                         SearchedUpTo(tried, Verdicts(answers, ports), manager.max))
  {
    tried := [];
    ghost var verdicts, retired, log := Verdicts(answers, ports), manager.retired, manager.table.log;
    var candidate, round := first, 0;
    while true
      invariant round == |tried|
      invariant Rising(tried, clientId, candidate)
      invariant first <= candidate <= manager.max && candidate !in manager.retired
      invariant manager.retired == RetiredAfter(retired, tried) && Searching(retired, tried, verdicts)
      invariant log <= manager.table.log
                && AllPassed(manager.table.log, |log|, manager.owner, manager.retired, first, candidate)
      decreases manager.max - candidate
    {
      ghost var before, earlier := manager.table.log, manager.retired;
      var verdict, next := TryOneId(manager, candidate, answers(round), ports, around.releasing(round),
          around.acquiring(round + 1));
      if verdict == InUse {
        ScanGoesOn(before, manager.table.log, |log|, |before|, manager.owner, earlier, manager.retired, first,
            candidate, if next.Some? then next.value else manager.max + 1);
      } else {
        ScanGoesOn(before, manager.table.log, |log|, |before|, manager.owner, earlier, manager.retired, first,
            candidate, candidate);
      }
      if next.None? {
        SearchEnds(retired, tried, verdicts, candidate);
        RisingGrows(tried, clientId, candidate, manager.max + 1);
        return verdict == Connected, if verdict == InUse then clientId else candidate, tried + [candidate];
      }
      SearchGrows(retired, tried, verdicts, candidate);
      RisingGrows(tried, clientId, candidate, next.value);
      tried := tried + [candidate];
      candidate := next.value;
      round := round + 1;
    }
  }

  /** `connect_ib_with_manager`. `answers(i)` is how TWS answers the i-th id tried, port by port. The ids tried
      increase strictly, so the search ends; the last one is the result exactly when TWS accepted it. The search does
      not end early: every id before its end is retired or was refused. */
  method ConnectWithManager(manager: ClientIdManager, clientId: ClientId, ports: nat,
                            answers: nat -> nat -> Outcome, around: Surroundings)
    returns (ok: bool, id: ClientId, ghost tried: seq<ClientId>)
    modifies manager, manager.table
    ensures Rising(tried, clientId, manager.max + 1)
    ensures Attempts(old(manager.retired), manager.retired, tried, Verdicts(answers, ports))
    ensures ok <==> tried != [] && Verdict(answers(|tried| - 1), ports) == Connected
    ensures id == if tried != [] && Verdict(answers(|tried| - 1), ports) != InUse then tried[|tried| - 1] else clientId
    ensures AllPassed(manager.table.log, |old(manager.table.log)|, manager.owner, manager.retired,
                      if clientId < manager.start then manager.start else clientId,
                      SearchedUpTo(tried, Verdicts(answers, ports), manager.max))
  {
    ghost var retired, low := manager.retired, manager.FirstCandidate(WORKER_ROLE, Some(clientId));
    var acquired := manager.Acquire(WORKER_ROLE, Some(clientId), around.acquiring(0));
    if acquired.None? {
      return false, clientId, [];
    }
    ghost var log := manager.table.log;
    ok, id, tried := ConnectFrom(manager, clientId, acquired.value, ports, answers, around);
    ScanGoesOn(log, manager.table.log, |old(manager.table.log)|, |log|, manager.owner, retired, manager.retired, low,
        acquired.value, SearchedUpTo(tried, Verdicts(answers, ports), manager.max));
  }

  lemma {:induction false} VerdictStands(answer: nat -> Outcome, p: nat, ports: nat)
    requires p <= ports && Verdict(answer, p) != Failed
    ensures Verdict(answer, ports) == Verdict(answer, p)
  {
    if p < ports {
      VerdictStands(answer, p, ports - 1);
    }
  }

  // ---------------------------------------------------------------- the pool's loop

  const CLIENT_ID_SCAN_LIMIT := 10_000

  /** All entries but those of these keys are the same. */
  ghost predicate SameBut<K(!new), V>(before: map<K, V>, after: map<K, V>, keys: set<K>) {
    forall k :: k !in keys ==> (k in before <==> k in after) && (k in before ==> before[k] == after[k])
  }

  lemma SameButThen<K(!new), V>(before: map<K, V>, mid: map<K, V>, after: map<K, V>, keys: set<K>, more: set<K>,
      all: set<K>)
    requires SameBut(before, mid, keys) && SameBut(mid, after, more) && all == keys + more
    ensures SameBut(before, after, all)
  {
  }

  /** One more id tried, and only its entry changed. */
  lemma SameButTried(before: map<ClientId, bool>, mid: map<ClientId, bool>, after: map<ClientId, bool>,
      tried: seq<ClientId>, id: ClientId)
    requires SameBut(before, mid, Elements(tried)) && SameBut(mid, after, {id})
    ensures SameBut(before, after, Elements(tried + [id]))
  {
    ElementsGrow(tried, id);
    SameButThen(before, mid, after, Elements(tried), {id}, Elements(tried + [id]));
  }

  /** No connection is recorded for any of these ids. */
  predicate Gone(connected: map<ClientId, bool>, ids: seq<ClientId>) {
    ids == [] || (ids[|ids| - 1] !in connected && Gone(connected, ids[..|ids| - 1]))
  }

  lemma {:induction false} GoneMeans(connected: map<ClientId, bool>, ids: seq<ClientId>)
    ensures Gone(connected, ids) <==> forall id :: id in ids ==> id !in connected
  {
    if ids != [] {
      var n := |ids| - 1;
      GoneMeans(connected, ids[..n]);
      assert forall id :: id in ids <==> id in ids[..n] || id == ids[n];
    }
  }

  /** One more id is tried, and only its entry changed. */
  lemma GoneStays(before: map<ClientId, bool>, after: map<ClientId, bool>, ids: seq<ClientId>, id: ClientId)
    requires Gone(before, ids) && SameBut(before, after, {id}) && id !in ids
    ensures Gone(after, ids) && (id !in after ==> Gone(after, ids + [id]))
  {
    GoneMeans(before, ids);
    GoneMeans(after, ids);
    assert (ids + [id])[..|ids|] == ids;
  }

  /** What a search starts from. */
  datatype SearchStart = SearchStart(
    roles: map<string, ClientId>, connections: map<ClientId, bool>, retired: set<ClientId>, log: seq<Event>,
    wanted: int)

  class ConnectionPool {
    const manager: ClientIdManager
    var roleToId: map<string, ClientId>
    var connected: map<ClientId, bool>

    constructor (manager: ClientIdManager)
      ensures this.manager == manager && roleToId == map[] && connected == map[]
    {
      this.manager := manager;
      roleToId, connected := map[], map[];
    }

    predicate IsConnected(role: string)
      reads this
    {
      role in roleToId && roleToId[role] in connected && connected[roleToId[role]]
    }

    /** The id the role is bound to, connected or not. */
    function IdsOf(role: string): set<ClientId>
      reads this
    {
      if role in roleToId then {roleToId[role]} else {}
    }

    /** Where the next `acquire` for the role begins. */
    function Wanted(role: string): int
      reads this, manager
    {
      manager.FirstCandidate(role, if role in roleToId then Some(roleToId[role]) else None)
    }

    /** One turn of the loop: an id is acquired and bound to the role, and TWS answers. An id in use elsewhere is
        given up for good, and the role starts afresh; on any failure the connection record goes. */
    method TryNextId(role: string, outcome: Outcome, turns: nat -> Turn, releasing: Turn)
        returns (bound: Option<ClientId>)
      requires !IsConnected(role)
      modifies this, manager, manager.table
      ensures SameBut(old(roleToId), roleToId, {role})
      ensures bound.None? ==> connected == old(connected) && manager.retired == old(manager.retired)
      ensures bound.Some? ==>
                && bound.value !in old(manager.retired)
                && manager.retired == old(manager.retired) + (if outcome == InUse then {bound.value} else {})
                && SameBut(old(connected), connected, {bound.value})
      ensures IsConnected(role) <==> bound.Some? && outcome == Connected
      ensures bound.Some? && outcome != InUse ==> role in roleToId && roleToId[role] == bound.value
      ensures bound.Some? && outcome == InUse ==> role !in roleToId && Wanted(role) == manager.start
      ensures bound.Some? && outcome != Connected ==> bound.value !in connected
      ensures bound.None? ==> roleToId == old(roleToId) && manager.roles == old(manager.roles)
      ensures bound.Some? ==> old(Wanted(role)) <= bound.value
      ensures old(manager.table.log) <= manager.table.log
              && AllPassed(manager.table.log, |old(manager.table.log)|, manager.owner, manager.retired,
                           old(Wanted(role)), if bound.Some? then bound.value else manager.max + 1)
    {
      bound := manager.Acquire(role, if role in roleToId then Some(roleToId[role]) else None, turns);
      if bound.None? {
        return;
      }
      var id := bound.value;
      roleToId := roleToId[role := id];
      connected := connected[id := false];
      match outcome
      case Connected =>
        connected := connected[id := true];
      case InUse =>
        connected := connected - {id};
        ghost var log, retired := manager.table.log, manager.retired;
        manager.MarkRejected(id, releasing);
        roleToId := roleToId - {role};
        ScanGoesOn(log, manager.table.log, |old(manager.table.log)|, |log|, manager.owner, retired, manager.retired,
            old(Wanted(role)), id, id);
      case Failed =>
        connected := connected - {id};
    }

    /** When the search ends without an answer that settles it and within its limit, no id could be had: from where the
        first `acquire` began, or from the start of the range once an id was rejected. */
    ghost predicate Exhausted(log: seq<Event>, wanted: int, tried: seq<ClientId>, answer: nat -> Outcome)
      reads this, manager, manager.table
    {
      (tried == [] || answer(|tried| - 1) == InUse) && |tried| < CLIENT_ID_SCAN_LIMIT ==>
        AllPassed(manager.table.log, |log|, manager.owner, manager.retired,
                  if tried == [] then wanted else manager.start, manager.max + 1)
    }

    /** What is left of the ids tried: the connection that was accepted, and the role bound to the last one unless TWS
        rejected it. */
    ghost predicate LeftBehind(role: string, result: Option<ClientId>, tried: seq<ClientId>, answer: nat -> Outcome)
      reads this
    {
      && Gone(connected, if result.Some? && tried != [] then tried[..|tried| - 1] else tried)
      && (tried != [] && answer(|tried| - 1) == InUse ==> role !in roleToId)
      && (tried != [] && answer(|tried| - 1) != InUse ==> role in roleToId && roleToId[role] == tried[|tried| - 1])
    }

    /** Nothing but this role and these ids is affected. */
    ghost predicate OthersKept(roles: map<string, ClientId>, connections: map<ClientId, bool>, role: string,
                               tried: seq<ClientId>)
      reads this
    {
      SameBut(roles, roleToId, {role}) && SameBut(connections, connected, Elements(tried))
    }

    /** A search that goes on, since the state and the run at its start: every id tried so far was rejected. */
    ghost predicate Going(role: string, tried: seq<ClientId>, answer: nat -> Outcome, start: SearchStart)
      reads this, manager, manager.table
    {
      && OthersKept(start.roles, start.connections, role, tried)
      && !IsConnected(role) && manager.retired == RetiredAfter(start.retired, tried)
      && Searching(start.retired, tried, answer)
      && start.log <= manager.table.log && LeftBehind(role, None, tried, answer)
      && (tried != [] ==> answer(|tried| - 1) == InUse)
      && Wanted(role) == if tried == [] then start.wanted else manager.start
    }

    /** One more id; what the search is then. */
    method SearchTurn(role: string, answer: nat -> Outcome, around: Surroundings, ghost tried: seq<ClientId>,
                      ghost start: SearchStart, n: nat)
        returns (bound: Option<ClientId>)
      requires Going(role, tried, answer, start) && n == |tried|
      modifies this, manager, manager.table
      ensures bound.None? ==>
                && Going(role, tried, answer, start)
                && AllPassed(manager.table.log, |start.log|, manager.owner, manager.retired,
                             if tried == [] then start.wanted else manager.start, manager.max + 1)
      ensures bound.Some? && answer(n) == InUse ==> Going(role, tried + [bound.value], answer, start)
      ensures bound.Some? && answer(n) != InUse ==>
                && OthersKept(start.roles, start.connections, role, tried + [bound.value])
                && Attempts(start.retired, manager.retired, tried + [bound.value], answer)
                && (IsConnected(role) <==> answer(n) == Connected) && role in roleToId
                && roleToId[role] == bound.value
                && LeftBehind(role, if answer(n) == Connected then bound else None, tried + [bound.value], answer)
    {
      ghost var roles, before, earlier := roleToId, connected, manager.table.log;
      bound := TryNextId(role, answer(n), around.acquiring(n), around.releasing(n));
      SameButThen(start.roles, roles, roleToId, {role}, {role}, {role});
      if bound.None? {
        ghost var low := if tried == [] then start.wanted else manager.start;
        ScanGoesOn(earlier, manager.table.log, |start.log|, |earlier|, manager.owner, {}, manager.retired, low, low,
            manager.max + 1);
        return;
      }
      SameButTried(start.connections, before, connected, tried, bound.value);
      RetiredMeans(start.retired, tried);
      GoneStays(before, connected, tried, bound.value);
      assert (tried + [bound.value])[..|tried|] == tried;
      if answer(n) == InUse {
        SearchGrows(start.retired, tried, answer, bound.value);
      } else {
        SearchEnds(start.retired, tried, answer, bound.value);
      }
    }

    /** The loop of `get_or_create`, for a role that is not connected. */
    method Search(role: string, answer: nat -> Outcome, around: Surroundings)
      returns (result: Option<ClientId>, ghost tried: seq<ClientId>)
      requires !IsConnected(role)
      modifies this, manager, manager.table
      ensures Attempts(old(manager.retired), manager.retired, tried, answer) && |tried| <= CLIENT_ID_SCAN_LIMIT
      ensures OthersKept(old(roleToId), old(connected), role, tried)
      ensures IsConnected(role) <==> result.Some?
      ensures result.Some? <==> tried != [] && answer(|tried| - 1) == Connected
      ensures result.Some? ==> roleToId[role] == result.value == tried[|tried| - 1]
      ensures Exhausted(old(manager.table.log), old(Wanted(role)), tried, answer)
      ensures LeftBehind(role, result, tried, answer)
    {
      tried := [];
      var attempts := 0;
      ghost var start := SearchStart(roleToId, connected, manager.retired, manager.table.log, Wanted(role));
      while attempts < CLIENT_ID_SCAN_LIMIT
        invariant attempts == |tried| <= CLIENT_ID_SCAN_LIMIT
        invariant Going(role, tried, answer, start)
      {
        var bound := SearchTurn(role, answer, around, tried, start, attempts);
        if bound.None? {
          SearchingMeans(start.retired, tried, answer);
          return None, tried;
        }
        if answer(attempts) != InUse {
          return if answer(attempts) == Connected then bound else None, tried + [bound.value];
        }
        tried := tried + [bound.value];
        attempts := attempts + 1;
      }
      SearchingMeans(start.retired, tried, answer);
      return None, tried;
    }

    /** `get_or_create`. `answer(i)` is how TWS answers the i-th id tried. A role that is connected keeps its id;
        otherwise the role ends connected under the last id tried exactly when TWS accepted that one. Connections
        under other ids stay as they are, so another role's connection is replaced only if its id is tried; other
        roles keep their ids. The search does not end early. */
    method GetOrCreate(role: string, answer: nat -> Outcome, around: Surroundings)
      returns (result: Option<ClientId>, ghost tried: seq<ClientId>)
      modifies this, manager, manager.table
      ensures old(IsConnected(role)) ==>
                result == Some(old(roleToId)[role]) && tried == [] && manager.retired == old(manager.retired)
      ensures Attempts(old(manager.retired), manager.retired, tried, answer) && |tried| <= CLIENT_ID_SCAN_LIMIT
      ensures !old(IsConnected(role)) ==> (result.Some? <==> tried != [] && answer(|tried| - 1) == Connected)
      ensures SameBut(old(roleToId), roleToId, {role})
              && SameBut(old(connected), connected, old(IdsOf(role)) + Elements(tried))
      ensures IsConnected(role) <==> result.Some?
      ensures result.Some? ==> roleToId[role] == result.value && (tried != [] ==> result.value == tried[|tried| - 1])
      ensures !old(IsConnected(role)) ==>
                && Exhausted(old(manager.table.log), old(Wanted(role)), tried, answer)
                && LeftBehind(role, result, tried, answer)
                && forall id :: id in old(IdsOf(role)) && id in connected ==> result == Some(id)
    {
      if role in roleToId {
        var existing := roleToId[role];
        if existing in connected && connected[existing] {
          return Some(existing), [];
        }
        connected := connected - {existing};
      }
      ghost var before := connected;
      result, tried := Search(role, answer, around);
      GoneMeans(connected, if result.Some? && tried != [] then tried[..|tried| - 1] else tried);
      SameButThen(old(connected), before, connected, old(IdsOf(role)), Elements(tried),
          old(IdsOf(role)) + Elements(tried));
    }
  }
}
