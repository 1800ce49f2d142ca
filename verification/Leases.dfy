/** Path leases: who may touch which part of the repository at the same time. */
module Leases {
  import opened Ordering
  import opened Scopes

  type Seconds = int

  datatype Access = Read | Write

  /** The text a lease identifier is the digest of; the digest is taken to be injective. */
  datatype LeaseId = LeaseId(taskId: string, agentId: string, scopes: seq<Scope>, grantedAt: Seconds, sequence: nat)

  datatype PathLease = PathLease(
    leaseId: LeaseId,
    taskId: string,
    agentId: string,
    patterns: seq<Scope>,
    access: Access,
    grantedAt: Seconds,
    expiresAt: Seconds,
    heartbeatAt: Seconds,
    shared: bool)

  type LeaseTable = map<LeaseId, PathLease>

  datatype LeaseState = LeaseState(table: LeaseTable, sequence: nat, maxWorkers: nat)

  datatype Request = Request(taskId: string, agentId: string, paths: seq<Scope>, access: Access, ttl: Seconds, shared: bool)

  datatype AcquireResult = Granted(lease: PathLease) | Malformed | CapacityReached | Conflicting
  datatype HeartbeatResult = Renewed(renewed: PathLease) | NotActive | NotOwner | BadTtl
  datatype ReleaseKey = ByLease(leaseId: LeaseId) | ByTask(taskId: string)
  datatype ReleaseResult = Released(released: LeaseTable) | NothingToRelease | ForeignLease

  datatype Claim = AnyAgent | Agent(agentId: string)

  // ----- What each operation does to the table -----

  function LiveAt(table: LeaseTable, now: Seconds): LeaseTable {
    map id | id in table && now < table[id].expiresAt :: table[id]
  }

  function ExpiredAt(table: LeaseTable, now: Seconds): LeaseTable {
    map id | id in table && table[id].expiresAt <= now :: table[id]
  }

  function ActiveAgents(table: LeaseTable): set<string> {
    set id | id in table :: table[id].agentId
  }

  predicate SomeOverlap(a: seq<Scope>, b: seq<Scope>) {
    exists l, r | l in a && r in b :: PathsOverlap(l, r)
  }

  /** The checks by which an existing lease is passed over when looking for conflicts. */
  predicate MayCoexist(agentId: string, access: Access, shared: bool, held: PathLease) {
    held.agentId == agentId || (held.access == Read && access == Read) || (shared && held.shared)
  }

  predicate Blocks(held: PathLease, r: Request) {
    !MayCoexist(r.agentId, r.access, r.shared, held) && SomeOverlap(Canonical(r.paths), held.patterns)
  }

  function NewLease(r: Request, now: Seconds, sequence: nat): PathLease {
    var scopes := Canonical(r.paths);
    PathLease(LeaseId(r.taskId, r.agentId, scopes, now, sequence), r.taskId, r.agentId, scopes, r.access,
              now, now + r.ttl, now, r.shared)
  }

  function AcquireSpec(s: LeaseState, r: Request, now: Seconds): (AcquireResult, LeaseState) {
    if r.taskId == "" || r.agentId == "" || r.ttl < 1 then (Malformed, s)
    else
      var live := s.(table := LiveAt(s.table, now));
      if r.paths == [] then (Malformed, live)
      else if r.agentId !in ActiveAgents(live.table) && |ActiveAgents(live.table)| >= s.maxWorkers then (CapacityReached, live)
      else if exists id | id in live.table :: Blocks(live.table[id], r) then (Conflicting, live)
      else
        var lease := NewLease(r, now, s.sequence + 1);
        (Granted(lease), live.(table := live.table[lease.leaseId := lease], sequence := s.sequence + 1))
  }

  function HeartbeatSpec(s: LeaseState, id: LeaseId, claim: Claim, ttl: Seconds, now: Seconds): (HeartbeatResult, LeaseState) {
    var live := s.(table := LiveAt(s.table, now));
    if id !in live.table then (NotActive, live)
    else if claim.Agent? && live.table[id].agentId != claim.agentId then (NotOwner, live)
    else if ttl < 1 then (BadTtl, live)
    else
      var renewed := live.table[id].(heartbeatAt := now, expiresAt := now + ttl);
      (Renewed(renewed), live.(table := live.table[id := renewed]))
  }

  predicate Matches(key: ReleaseKey, lease: PathLease) {
    match key
    case ByLease(id) => lease.leaseId == id
    case ByTask(taskId) => lease.taskId == taskId
  }

  function ReleaseSpec(s: LeaseState, key: ReleaseKey, claim: Claim, now: Seconds): (ReleaseResult, LeaseState) {
    var live := s.(table := LiveAt(s.table, now));
    var matching := map id | id in live.table && Matches(key, live.table[id]) :: live.table[id];
    if matching == map[] then (NothingToRelease, live)
    else if claim.Agent? && exists id | id in matching :: matching[id].agentId != claim.agentId then (ForeignLease, live)
    else (Released(matching), live.(table := map id | id in live.table && !Matches(key, live.table[id]) :: live.table[id]))
  }

  function ExpireSpec(s: LeaseState, now: Seconds): LeaseState {
    s.(table := LiveAt(s.table, now))
  }

  // ----- Exclusion -----

  ghost predicate Disjoint(a: seq<Scope>, b: seq<Scope>) {
    forall p :: !(CoveredBy(a, p) && CoveredBy(b, p))
  }

  ghost predicate KeysAgree(s: LeaseState) {
    forall id | id in s.table :: s.table[id].leaseId == id && id.sequence <= s.sequence
  }

  /** Leases of different agents that are not both reads or both shared cover no common path. */
  ghost predicate Excludes(a: PathLease, b: PathLease) {
    a.agentId == b.agentId || (a.access == Read && b.access == Read) || (a.shared && b.shared) || Disjoint(a.patterns, b.patterns)
  }

  ghost predicate IsSafe(s: LeaseState) {
    && 1 <= s.maxWorkers <= 3
    && KeysAgree(s)
    && (forall a, b | a in s.table && b in s.table :: Excludes(s.table[a], s.table[b]))
    && |ActiveAgents(s.table)| <= s.maxWorkers
  }

  /** The overlap test finds a common path exactly when there is one. */
  lemma OverlapIsIntersection(a: seq<Scope>, b: seq<Scope>)
    ensures SomeOverlap(a, b) <==> !Disjoint(a, b)
  {
    if SomeOverlap(a, b) {
      var l, r :| l in a && r in b && PathsOverlap(l, r);
      OverlapIffSharedPath(l, r);
      var p :| Covers(l, p) && Covers(r, p);
      assert CoveredBy(a, p) && CoveredBy(b, p);
    }
    if p :| CoveredBy(a, p) && CoveredBy(b, p) {
      var l :| l in a && Covers(l, p);
      var r :| r in b && Covers(r, p);
      OverlapIffSharedPath(l, r);
    }
  }

  lemma FewerLeasesStaySafe(s: LeaseState, smaller: LeaseTable)
    requires IsSafe(s) && forall id | id in smaller :: id in s.table && smaller[id] == s.table[id]
    ensures IsSafe(s.(table := smaller))
  {
    SubsetIsNoLarger(ActiveAgents(smaller), ActiveAgents(s.table));
  }

  lemma AgentsAfterInsert(table: LeaseTable, lease: PathLease)
    requires lease.leaseId !in table
    ensures ActiveAgents(table[lease.leaseId := lease]) == ActiveAgents(table) + {lease.agentId}
  {
    var larger := table[lease.leaseId := lease];
    assert larger[lease.leaseId] == lease;
    forall x | x in ActiveAgents(table) ensures x in ActiveAgents(larger) {
      var k :| k in table && table[k].agentId == x;
      assert k in larger && larger[k].agentId == x;
    }
  }

  lemma InsertKeepsSafe(s: LeaseState, lease: PathLease, sequence: nat)
    requires IsSafe(s) && lease.leaseId !in s.table && lease.leaseId.sequence <= sequence && s.sequence <= sequence
    requires forall id | id in s.table :: Excludes(lease, s.table[id])
    requires lease.agentId in ActiveAgents(s.table) || |ActiveAgents(s.table)| < s.maxWorkers
    ensures IsSafe(s.(table := s.table[lease.leaseId := lease], sequence := sequence))
  {
    var table := s.table[lease.leaseId := lease];
    forall a, b | a in table && b in table ensures Excludes(table[a], table[b]) {
      if a in s.table && b in s.table {
        assert Excludes(s.table[a], s.table[b]);
      } else if a in s.table {
        assert Excludes(lease, s.table[a]);
      }
    }
    var agents := ActiveAgents(s.table);
    AgentsAfterInsert(s.table, lease);
    if lease.agentId in agents {
      assert agents + {lease.agentId} == agents;
    }
  }

  lemma UnblockedExcludes(held: PathLease, r: Request, lease: PathLease)
    requires !Blocks(held, r) && lease.agentId == r.agentId && lease.access == r.access && lease.shared == r.shared
    requires lease.patterns == Canonical(r.paths)
    ensures Excludes(lease, held)
  {
    OverlapIsIntersection(lease.patterns, held.patterns);
  }

  lemma AcquireKeepsExclusion(s: LeaseState, r: Request, now: Seconds)
    requires IsSafe(s)
    ensures IsSafe(AcquireSpec(s, r, now).1)
  {
    var live := s.(table := LiveAt(s.table, now));
    FewerLeasesStaySafe(s, live.table);
    var (result, after) := AcquireSpec(s, r, now);
    if result.Granted? {
      var lease := result.lease;
      assert lease.leaseId !in live.table;
      forall id | id in live.table ensures Excludes(lease, live.table[id]) {
        UnblockedExcludes(live.table[id], r, lease);
      }
      InsertKeepsSafe(live, lease, s.sequence + 1);
    }
  }

  lemma RenewKeepsSafe(s: LeaseState, id: LeaseId, heartbeatAt: Seconds, expiresAt: Seconds)
    requires IsSafe(s) && id in s.table
    ensures IsSafe(s.(table := s.table[id := s.table[id].(heartbeatAt := heartbeatAt, expiresAt := expiresAt)]))
  {
    var table := s.table[id := s.table[id].(heartbeatAt := heartbeatAt, expiresAt := expiresAt)];
    forall a, b | a in table && b in table ensures Excludes(table[a], table[b]) {
      assert Excludes(s.table[a], s.table[b]);
    }
    forall x ensures x in ActiveAgents(table) <==> x in ActiveAgents(s.table) {
      if x in ActiveAgents(s.table) {
        var k :| k in s.table && s.table[k].agentId == x;
        assert k in table && table[k].agentId == x;
      }
      if x in ActiveAgents(table) {
        var k :| k in table && table[k].agentId == x;
        assert k in s.table && s.table[k].agentId == x;
      }
    }
    assert ActiveAgents(table) == ActiveAgents(s.table);
  }

  lemma HeartbeatKeepsExclusion(s: LeaseState, id: LeaseId, claim: Claim, ttl: Seconds, now: Seconds)
    requires IsSafe(s)
    ensures IsSafe(HeartbeatSpec(s, id, claim, ttl, now).1)
  {
    hide IsSafe;
    var live := s.(table := LiveAt(s.table, now));
    FewerLeasesStaySafe(s, live.table);
    if id in live.table {
      RenewKeepsSafe(live, id, now, now + ttl);
    }
  }

  datatype Operation =
    | Acquire(request: Request, at: Seconds)
    | Heartbeat(leaseId: LeaseId, claim: Claim, ttl: Seconds, at: Seconds)
    | Release(key: ReleaseKey, claim: Claim, at: Seconds)
    | Expire(at: Seconds)

  function Perform(s: LeaseState, op: Operation): LeaseState {
    match op
    case Acquire(r, at) => AcquireSpec(s, r, at).1
    case Heartbeat(id, claim, ttl, at) => HeartbeatSpec(s, id, claim, ttl, at).1
    case Release(key, claim, at) => ReleaseSpec(s, key, claim, at).1
    case Expire(at) => ExpireSpec(s, at)
  }

  function PerformAll(s: LeaseState, ops: seq<Operation>): LeaseState {
    if ops == [] then s else Perform(PerformAll(s, ops[..|ops| - 1]), ops[|ops| - 1])
  }

  lemma StepKeepsExclusion(s: LeaseState, op: Operation)
    requires IsSafe(s)
    ensures IsSafe(Perform(s, op))
  {
    match op
    case Acquire(r, at) => AcquireKeepsExclusion(s, r, at);
    case Heartbeat(id, claim, ttl, at) => HeartbeatKeepsExclusion(s, id, claim, ttl, at);
    case Release(key, claim, at) => FewerLeasesStaySafe(s, Perform(s, op).table);
    case Expire(at) => FewerLeasesStaySafe(s, Perform(s, op).table);
  }

  /** After any operations on a new manager, in any order and at any times, exclusion holds. */
  lemma {:induction false} ExclusionOverAnyHistory(maxWorkers: nat, ops: seq<Operation>)
    requires 1 <= maxWorkers <= 3
    ensures IsSafe(PerformAll(LeaseState(map[], 0, maxWorkers), ops))
  {
    if ops == [] {
      assert ActiveAgents(map[]) == {};
    } else {
      ExclusionOverAnyHistory(maxWorkers, ops[..|ops| - 1]);
      StepKeepsExclusion(PerformAll(LeaseState(map[], 0, maxWorkers), ops[..|ops| - 1]), ops[|ops| - 1]);
    }
  }

  /** A granted lease covers the request exactly when the request is safe to canonicalise. */
  lemma GrantCoversRequestIff(s: LeaseState, r: Request, now: Seconds)
    requires AcquireSpec(s, r, now).0.Granted? && AllNormal(r.paths)
    ensures SameCoverage(AcquireSpec(s, r, now).0.lease.patterns, r.paths) <==> SafeToCanonicalize(r.paths)
  {
    CanonicalKeepsCoverageIff(r.paths);
  }

  /** With nobody else active a well-formed request is always granted. */
  lemma EmptyTableGrants(s: LeaseState, r: Request, now: Seconds)
    requires s.table == map[] && s.maxWorkers >= 1
    requires r.taskId != "" && r.agentId != "" && r.ttl >= 1 && r.paths != []
    ensures AcquireSpec(s, r, now).0.Granted?
  {
    assert LiveAt(s.table, now) == map[];
    assert ActiveAgents(map[]) == {};
  }

  /** Each method performs the operation of the same name, so `ExclusionOverAnyHistory` holds of every use. */
  class PathLeaseManager {
    var leases: LeaseTable
    var sequence: nat
    const maxWorkers: nat

    function State(): LeaseState
      reads this
    {
      LeaseState(leases, sequence, maxWorkers)
    }

    constructor (maxWorkers: nat)
      requires 1 <= maxWorkers <= 3
      ensures State() == LeaseState(map[], 0, maxWorkers)
    {
      this.maxWorkers := maxWorkers;
      leases, sequence := map[], 0;
    }

    method Expire(now: Seconds) returns (released: LeaseTable)
      modifies this
      ensures State() == ExpireSpec(old(State()), now)
      ensures released == ExpiredAt(old(leases), now)
    {
      released := ExpiredAt(leases, now);
      leases := leases - released.Keys;
      assert leases == LiveAt(old(leases), now);
    }

    method Acquire(r: Request, now: Seconds) returns (result: AcquireResult)
      modifies this
      ensures (result, State()) == AcquireSpec(old(State()), r, now)
    {
      if r.taskId == "" || r.agentId == "" || r.ttl < 1 {
        return Malformed;
      }
      var _ := Expire(now);
      if r.paths == [] {
        return Malformed;
      }
      var scopes := CanonicalScopes(r.paths);
      var active := set id | id in leases :: leases[id].agentId;
      if r.agentId !in active && |active| >= maxWorkers {
        return CapacityReached;
      }
      if exists id | id in leases :: !MayCoexist(r.agentId, r.access, r.shared, leases[id]) && SomeOverlap(scopes, leases[id].patterns) {
        assert exists id | id in leases :: Blocks(leases[id], r);
        return Conflicting;
      }
      assert forall id | id in leases :: !Blocks(leases[id], r);
      sequence := sequence + 1;
      var lease := PathLease(LeaseId(r.taskId, r.agentId, scopes, now, sequence), r.taskId, r.agentId, scopes, r.access,
                             now, now + r.ttl, now, r.shared);
      leases := leases[lease.leaseId := lease];
      return Granted(lease);
    }

    method Heartbeat(id: LeaseId, claim: Claim, ttl: Seconds, now: Seconds) returns (result: HeartbeatResult)
      modifies this
      ensures (result, State()) == HeartbeatSpec(old(State()), id, claim, ttl, now)
    {
      var _ := Expire(now);
      if id !in leases {
        return NotActive;
      }
      var lease := leases[id];
      if claim.Agent? && lease.agentId != claim.agentId {
        return NotOwner;
      }
      if ttl < 1 {
        return BadTtl;
      }
      var renewed := lease.(heartbeatAt := now, expiresAt := now + ttl);
      leases := leases[id := renewed];
      return Renewed(renewed);
    }

    method Release(key: ReleaseKey, claim: Claim, now: Seconds) returns (result: ReleaseResult)
      modifies this
      ensures (result, State()) == ReleaseSpec(old(State()), key, claim, now)
    {
      ghost var before := State();
      var _ := Expire(now);
      var matching := map id | id in leases && Matches(key, leases[id]) :: leases[id];
      if matching == map[] {
        return NothingToRelease;
      }
      if claim.Agent? && exists id | id in matching :: matching[id].agentId != claim.agentId {
        return ForeignLease;
      }
      leases := leases - matching.Keys;
      assert leases == ReleaseSpec(before, key, claim, now).1.table;
      return Released(matching);
    }
  }
}
