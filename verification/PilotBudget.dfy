/** Worst-case reservations for live calls, settled against actual usage. */
module PilotBudget {
  import opened Wrappers

  datatype Usage = Usage(input: int, output: int, cost: real) {
    function Plus(other: Usage): Usage {
      Usage(input + other.input, output + other.output, cost + other.cost)
    }

    function Minus(other: Usage): Usage {
      Usage(input - other.input, output - other.output, cost - other.cost)
    }

    predicate IsNegative() {
      input < 0 || output < 0 || cost < 0.0
    }

    predicate Within(other: Usage) {
      input <= other.input && output <= other.output && cost <= other.cost
    }
  }

  const NOTHING: Usage := Usage(0, 0, 0.0)

  datatype Limits = Limits(calls: int, usage: Usage, wallClock: real)

  datatype Reservation = Reservation(id: nat, reserved: Usage)

  datatype Account = Account(calls: int, used: Usage, nextId: nat, open: map<nat, Reservation>)

  const FRESH_ACCOUNT: Account := Account(0, NOTHING, 1, map[])

  datatype Label = ModelCalls | InputTokens | OutputTokens | Money

  datatype ReserveResult = Granted(reservation: Reservation) | NegativeRequest | OutOfTime | WouldExceed(limit: Label)
  datatype SettleResult = Settled | UnknownReservation | NegativeActual | Overrun
  datatype FinalCheck = AllSettled | TimeIsUp | StillOpen

  // ----- What each call does -----

  function FirstExceeded(l: Limits, calls: int, u: Usage): Option<Label> {
    if calls > l.calls then Some(ModelCalls)
    else if u.input > l.usage.input then Some(InputTokens)
    else if u.output > l.usage.output then Some(OutputTokens)
    else if u.cost > l.usage.cost then Some(Money)
    else None
  }

  function ReserveSpec(l: Limits, a: Account, worst: Usage, elapsed: real): (ReserveResult, Account) {
    if worst.IsNegative() then (NegativeRequest, a)
    else if elapsed >= l.wallClock then (OutOfTime, a)
    else
      var exceeded := FirstExceeded(l, a.calls + 1, a.used.Plus(worst));
      if exceeded.Some? then (WouldExceed(exceeded.value), a)
      else
        var r := Reservation(a.nextId, worst);
        (Granted(r), Account(a.calls + 1, a.used.Plus(worst), a.nextId + 1, a.open[a.nextId := r]))
  }

  function SettleSpec(a: Account, r: Reservation, actual: Usage): (SettleResult, Account) {
    if r.id !in a.open || a.open[r.id] != r then (UnknownReservation, a)
    else if actual.IsNegative() then (NegativeActual, a)
    else if !actual.Within(r.reserved) then (Overrun, a)
    else (Settled, a.(used := a.used.Plus(actual.Minus(r.reserved)), open := a.open - {r.id}))
  }

  // ----- Every history balances -----

  datatype Call = Reserve(worst: Usage, elapsed: real) | Settle(reservation: Reservation, actual: Usage)

  /** The account, with what has been settled so far and under which identifiers. */
  datatype Book = Book(account: Account, actual: Usage, settledIds: set<nat>)

  function Post(l: Limits, b: Book, c: Call): Book {
    match c
    case Reserve(worst, elapsed) => b.(account := ReserveSpec(l, b.account, worst, elapsed).1)
    case Settle(r, actual) =>
      var (result, account) := SettleSpec(b.account, r, actual);
      if result.Settled? then Book(account, b.actual.Plus(actual), b.settledIds + {r.id}) else b.(account := account)
  }

  function PostAll(l: Limits, calls: seq<Call>): Book {
    if calls == [] then Book(FRESH_ACCOUNT, NOTHING, {}) else Post(l, PostAll(l, calls[..|calls| - 1]), calls[|calls| - 1])
  }

  /** The open reservations with identifiers below `n`, added up. */
  function OpenUsage(open: map<nat, Reservation>, n: nat): Usage {
    if n == 0 then NOTHING
    else OpenUsage(open, n - 1).Plus(if n - 1 in open then open[n - 1].reserved else NOTHING)
  }

  /** The identifiers granted before `n`. */
  function IdsBelow(n: nat): set<nat> {
    if n <= 1 then {} else IdsBelow(n - 1) + {n - 1}
  }

  lemma {:induction false} IdsListed(n: nat, id: nat)
    ensures id in IdsBelow(n) <==> 1 <= id < n
  {
    if n > 1 {
      IdsListed(n - 1, id);
    }
  }

  lemma {:induction false} IdsCounted(n: nat)
    requires n >= 1
    ensures |IdsBelow(n)| == n - 1
  {
    if n > 1 {
      IdsCounted(n - 1);
      IdsListed(n - 1, n - 1);
    }
  }

  predicate NoCounterExceeds(l: Limits, a: Account) {
    a.calls <= l.calls && a.used.Within(l.usage)
  }

  /** Counters are actual usage plus open reservations, calls are reservations ever granted, and every
      granted identifier is either open or settled, never both. */
  ghost predicate Balances(l: Limits, b: Book) {
    && b.account.nextId >= 1
    && b.account.used == b.actual.Plus(OpenUsage(b.account.open, b.account.nextId))
    && b.account.calls == b.account.nextId - 1
    && NoCounterExceeds(l, b.account)
    && (forall id | id in b.account.open :: b.account.open[id].id == id && !b.account.open[id].reserved.IsNegative())
    && b.account.open.Keys + b.settledIds == IdsBelow(b.account.nextId)
    && b.account.open.Keys !! b.settledIds
  }

  lemma {:induction false} OpenUsageAgrees(a: map<nat, Reservation>, b: map<nat, Reservation>, n: nat)
    requires forall id | 0 <= id < n :: (id in a <==> id in b) && (id in a ==> a[id] == b[id])
    ensures OpenUsage(a, n) == OpenUsage(b, n)
  {
    if n > 0 {
      OpenUsageAgrees(a, b, n - 1);
    }
  }

  lemma {:induction false} OpenUsageWithout(open: map<nat, Reservation>, id: nat, n: nat)
    requires id in open && id < n
    ensures OpenUsage(open - {id}, n).Plus(open[id].reserved) == OpenUsage(open, n)
  {
    if id < n - 1 {
      OpenUsageWithout(open, id, n - 1);
    } else {
      OpenUsageAgrees(open - {id}, open, n - 1);
    }
  }

  lemma ReservingKeepsLimits(l: Limits, a: Account, worst: Usage, elapsed: real)
    requires NoCounterExceeds(l, a)
    ensures NoCounterExceeds(l, ReserveSpec(l, a, worst, elapsed).1)
  {
  }

  lemma ReservingBalances(l: Limits, b: Book, worst: Usage, elapsed: real)
    requires Balances(l, b)
    ensures Balances(l, Post(l, b, Reserve(worst, elapsed)))
  {
    hide NoCounterExceeds;
    ReservingKeepsLimits(l, b.account, worst, elapsed);
    var n := b.account.nextId;
    IdsListed(n, n);
    var (result, after) := ReserveSpec(l, b.account, worst, elapsed);
    if result.Granted? {
      OpenUsageAgrees(after.open, b.account.open, n);
      assert OpenUsage(after.open, n + 1) == OpenUsage(b.account.open, n).Plus(worst);
    }
  }

  lemma SettlingBalances(l: Limits, b: Book, r: Reservation, actual: Usage)
    requires Balances(l, b)
    ensures Balances(l, Post(l, b, Settle(r, actual)))
  {
    if SettleSpec(b.account, r, actual).0.Settled? {
      IdsListed(b.account.nextId, r.id);
      OpenUsageWithout(b.account.open, r.id, b.account.nextId);
    }
  }

  lemma NothingMore(u: Usage, v: Usage)
    requires u == Usage(0, 0, 0.0) && v == Usage(0, 0, 0.0)
    ensures u.Plus(v) == Usage(0, 0, 0.0)
  {
  }

  lemma NewAccountBalances(l: Limits)
    requires 0 <= l.calls && NOTHING.Within(l.usage)
    ensures Balances(l, Book(FRESH_ACCOUNT, NOTHING, {}))
  {
    hide OpenUsage, Usage.Plus;
    NoneOpen(map[], 1);
    NothingMore(NOTHING, OpenUsage(map[], 1));
    assert IdsBelow(1) == {};
  }

  /** After any calls, in any order, granted or refused, the account balances. */
  lemma {:induction false} EveryHistoryBalances(l: Limits, calls: seq<Call>)
    requires 0 <= l.calls && NOTHING.Within(l.usage)
    ensures Balances(l, PostAll(l, calls))
  {
    hide Balances, ReserveSpec, SettleSpec;
    if calls == [] {
      NewAccountBalances(l);
    } else {
      var before := PostAll(l, calls[..|calls| - 1]);
      EveryHistoryBalances(l, calls[..|calls| - 1]);
      match calls[|calls| - 1]
      case Reserve(worst, elapsed) => ReservingBalances(l, before, worst, elapsed);
      case Settle(r, actual) => SettlingBalances(l, before, r, actual);
    }
  }

  /** A settled reservation cannot be settled again, whatever the usage claimed. */
  lemma SettledAtMostOnce(l: Limits, b: Book, r: Reservation, actual: Usage)
    requires Balances(l, b) && r.id in b.settledIds
    ensures SettleSpec(b.account, r, actual) == (UnknownReservation, b.account)
  {
  }

  /** With nothing open, the counters are the actual usage of every call. */
  lemma {:induction false} NothingOpenMeansActual(l: Limits, b: Book)
    requires Balances(l, b) && b.account.open == map[]
    ensures b.account.used == b.actual && |b.settledIds| == b.account.calls
  {
    NoneOpen(b.account.open, b.account.nextId);
    IdsCounted(b.account.nextId);
  }

  lemma {:induction false} NoneOpen(open: map<nat, Reservation>, n: nat)
    requires open == map[]
    ensures OpenUsage(open, n) == Usage(0, 0, 0.0)
  {
    if n > 0 {
      NoneOpen(open, n - 1);
    }
  }

  // ----- The account -----

  class LivePilotBudgetAccount {
    const limits: Limits
    const startedAt: real
    var calls: int
    var used: Usage
    var nextId: nat
    var open: map<nat, Reservation>

    function State(): Account
      reads this
    {
      Account(calls, used, nextId, open)
    }

    constructor (limits: Limits, now: real)
      ensures this.limits == limits && startedAt == now && State() == FRESH_ACCOUNT
    {
      this.limits := limits;
      startedAt := now;
      calls, used, nextId, open := 0, NOTHING, 1, map[];
    }

    function Elapsed(now: real): real {
      if now - startedAt > 0.0 then now - startedAt else 0.0
    }

    method ReserveCall(worst: Usage, now: real) returns (r: ReserveResult)
      modifies this
      ensures (r, State()) == ReserveSpec(limits, old(State()), worst, Elapsed(now))
    {
      if worst.IsNegative() {
        return NegativeRequest;
      }
      if Elapsed(now) >= limits.wallClock {
        return OutOfTime;
      }
      var projected := used.Plus(worst);
      if calls + 1 > limits.calls {
        return WouldExceed(ModelCalls);
      }
      if projected.input > limits.usage.input {
        return WouldExceed(InputTokens);
      }
      if projected.output > limits.usage.output {
        return WouldExceed(OutputTokens);
      }
      if projected.cost > limits.usage.cost {
        return WouldExceed(Money);
      }
      var reservation := Reservation(nextId, worst);
      nextId := nextId + 1;
      calls, used := calls + 1, projected;
      open := open[reservation.id := reservation];
      return Granted(reservation);
    }

    method SettleCall(reservation: Reservation, actual: Usage) returns (r: SettleResult)
      modifies this
      ensures (r, State()) == SettleSpec(old(State()), reservation, actual)
    {
      if reservation.id !in open || open[reservation.id] != reservation {
        return UnknownReservation;
      }
      if actual.IsNegative() {
        return NegativeActual;
      }
      if !actual.Within(reservation.reserved) {
        return Overrun;
      }
      used := used.Plus(actual.Minus(reservation.reserved));
      open := open - {reservation.id};
      return Settled;
    }

    /** Passes only when time remains and nothing is open. */
    method AssertSettled(now: real) returns (r: FinalCheck)
      ensures r.TimeIsUp? <==> Elapsed(now) >= limits.wallClock
      ensures r.AllSettled? <==> Elapsed(now) < limits.wallClock && open == map[]
    {
      if Elapsed(now) >= limits.wallClock {
        return TimeIsUp;
      }
      if open != map[] {
        return StillOpen;
      }
      return AllSettled;
    }
  }
}
