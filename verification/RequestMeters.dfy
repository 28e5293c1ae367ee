/** app/services/ai_access.py: the two meters that count requests rather than jobs, a subscriber's
    requests in a billing period and the free resume restructures. One user's requests, as
    concurrent transactions that take the user's row lock with a conditional UPDATE. */
module RequestMeters {
  import opened Base

  type Period = int
  type TxnId = nat

  datatype Purpose = StructureResume | OtherResumeFeature

  datatype Meter = Requests | Restructures

  datatype Refusal = NoAccess | RequestsUsedUp | RestructuresUsedUp

  /** subscription_monthly_request_limit, free_restructure_limit, and whether the system key works. */
  datatype Settings = Settings(requestLimit: int, restructureLimit: int, systemKey: bool)

  /** The user columns these meters read and write. */
  datatype Account = Account(
    active: bool, ownKey: bool, period: Option<Period>, usageCount: nat, usageEnd: Option<Period>, restructures: nat)

  /** What the UPDATE wrote, uncommitted. */
  datatype Charge = Charge(meter: Meter, used: nat, end: Option<Period>)

  datatype Txn = Asked(meter: Meter, period: Option<Period>) | Charged(charge: Charge) | Unmetered

  /** A committed metered use, and the period it was charged to. */
  datatype Use = Use(meter: Meter, period: Option<Period>)

  datatype State = State(account: Account, txns: map<TxnId, Txn>, uses: seq<Use>, ends: set<Option<Period>>)

  // ---------------------------------------------------------------- specification

  predicate HasActiveSubscription(c: Settings, a: Account) {
    a.active && c.systemKey
  }

  predicate FreeRestructuresEnabled(c: Settings) {
    c.restructureLimit > 0 && c.systemKey
  }

  function FreeRestructuresRemaining(c: Settings, a: Account): int {
    if !FreeRestructuresEnabled(c) then 0
    else if c.restructureLimit > a.restructures then c.restructureLimit - a.restructures else 0
  }

  /** subscription_requests_used: a counter left over from another period reads as 0. */
  function RequestsUsed(a: Account): nat {
    if a.usageEnd != a.period then 0 else a.usageCount
  }

  /** Who pays: the plan, else the user's own key, else for structuring a free restructure. */
  function MeterFor(c: Settings, a: Account, p: Purpose): Result<Option<Meter>, Refusal> {
    if HasActiveSubscription(c, a) then Ok(Some(Requests))
    else if a.ownKey then Ok(None)
    else if p == StructureResume && FreeRestructuresEnabled(c) then Ok(Some(Restructures))
    else Err(NoAccess)
  }

  /** The conditional UPDATE: what it wrote, or nothing when no row matched. */
  function Updated(c: Settings, a: Account, m: Meter, period: Option<Period>): Option<Charge> {
    match m
    case Requests =>
      var newPeriod := a.usageEnd != period;
      if c.requestLimit <= 0 || newPeriod || a.usageCount < c.requestLimit then
        Some(Charge(Requests, if newPeriod then 1 else a.usageCount + 1, period))
      else None
    case Restructures =>
      if a.restructures < c.restructureLimit then Some(Charge(Restructures, a.restructures + 1, a.period)) else None
  }

  function Written(a: Account, x: Charge): Account {
    match x.meter
    case Requests => a.(usageCount := x.used, usageEnd := x.end)
    case Restructures => a.(restructures := x.used)
  }

  datatype Step =
    | Ask(t: TxnId, purpose: Purpose)
    | Update(t: TxnId)
    | Finish(t: TxnId, llmOk: bool)
    | Abort(t: TxnId)
    | Rollover(end: Option<Period>)
    | Change(active: bool, ownKey: bool)

  /** The row lock is free. */
  predicate Unlocked(s: State) {
    forall t :: t in s.txns ==> !s.txns[t].Charged?
  }

  predicate Enabled(s: State, e: Step) {
    match e
    case Ask(t, _) => t !in s.txns
    case Update(t) => t in s.txns && s.txns[t].Asked? && Unlocked(s)
    case Finish(t, _) => t in s.txns && !s.txns[t].Asked?
    case Abort(t) => t in s.txns
    // A period never ends inside a request, and never comes back.
    case Rollover(end) => s.txns == map[] && end !in s.ends
    case Change(_, _) => true
  }

  function Apply(c: Settings, s: State, e: Step): State
    requires Enabled(s, e)
  {
    match e
    case Ask(t, p) =>
      (match MeterFor(c, s.account, p)
       case Err(_) => s
       case Ok(None) => s.(txns := s.txns[t := Unmetered])
       case Ok(Some(m)) => s.(txns := s.txns[t := Asked(m, s.account.period)]))
    case Update(t) =>
      (match Updated(c, s.account, s.txns[t].meter, s.txns[t].period)
       case None => s.(txns := s.txns - {t})
       case Some(x) => s.(txns := s.txns[t := Charged(x)]))
    case Finish(t, llmOk) =>
      var rest := s.(txns := s.txns - {t});
      if llmOk && s.txns[t].Charged? then
        var x := s.txns[t].charge;
        rest.(account := Written(s.account, x), uses := s.uses + [Use(x.meter, x.end)])
      else rest
    case Abort(t) => s.(txns := s.txns - {t})
    case Rollover(end) => s.(account := s.account.(period := end), ends := s.ends + {end})
    case Change(active, ownKey) => s.(account := s.account.(active := active, ownKey := ownKey))
  }

  predicate Fresh(s: State) {
    && s.txns == map[] && s.uses == [] && s.ends == {None, s.account.period}
    && s.account.usageCount == 0 && s.account.usageEnd == None && s.account.restructures == 0
  }

  ghost predicate Run(c: Settings, states: seq<State>, steps: seq<Step>) {
    && |states| == |steps| + 1
    && forall i :: 0 <= i < |steps| ==> Enabled(states[i], steps[i]) && states[i + 1] == Apply(c, states[i], steps[i])
  }

  // ---------------------------------------------------------------- one request on its own

  class Database {
    var account: Account
    var txns: map<TxnId, Txn>
    ghost var uses: seq<Use>
    ghost var ends: set<Option<Period>>

    ghost function S(): State
      reads this
    {
      State(account, txns, uses, ends)
    }

    constructor (account: Account)
      ensures S() == State(account, map[], [], {None, account.period})
    {
      this.account, txns, uses, ends := account, map[], [], {None, account.period};
    }

    /** _use_subscription_request */
    method UseSubscriptionRequest(c: Settings, t: TxnId) returns (ok: bool)
      requires t !in txns && Unlocked(S())
      modifies this`txns
      ensures ok <==> c.requestLimit <= 0 || RequestsUsed(account) < c.requestLimit
      ensures !ok ==> txns == old(txns)
      ensures ok ==> txns == old(txns)[t := Charged(Charge(Requests, RequestsUsed(account) + 1, account.period))]
    {
      var newPeriod := account.usageEnd != account.period;
      if c.requestLimit > 0 && !(newPeriod || account.usageCount < c.requestLimit) {
        return false;
      }
      txns := txns[t := Charged(Charge(Requests, if newPeriod then 1 else account.usageCount + 1, account.period))];
      return true;
    }

    /** structure_llm_credentials, with no other request of this user's in flight: what the caller
        is told, and that nothing is committed yet. */
    method StructureLlmCredentials(c: Settings, t: TxnId) returns (r: Result<Option<Meter>, Refusal>)
      requires txns == map[]
      modifies this`txns
      ensures r.Ok? ==> Enabled(S(), Finish(t, true)) && txns.Keys == {t}
      ensures r.Err? ==> txns == map[]
      ensures var asked := Apply(c, old(S()), Ask(t, StructureResume));
              S() == if t in asked.txns && asked.txns[t].Asked? then Apply(c, asked, Update(t)) else asked
      ensures var a := account;
              var used := if a.usageEnd == a.period then a.usageCount else 0;
              r == if a.active && c.systemKey then
                     (if c.requestLimit <= 0 || used < c.requestLimit then Ok(Some(Requests)) else Err(RequestsUsedUp))
                   else if a.ownKey then Ok(None)
                   else if c.restructureLimit > 0 && c.systemKey then
                     (if a.restructures < c.restructureLimit then Ok(Some(Restructures)) else Err(RestructuresUsedUp))
                   else Err(NoAccess)
      ensures r.Ok? ==>
                txns[t] == match r.value
                           case None => Unmetered
                           case Some(Restructures) => Charged(Charge(Restructures, account.restructures + 1, account.period))
                           case Some(Requests) =>
                             Charged(Charge(Requests, if account.usageEnd == account.period then account.usageCount + 1 else 1,
                                            account.period))
    {
      if HasActiveSubscription(c, account) {
        var ok := UseSubscriptionRequest(c, t);
        return if ok then Ok(Some(Requests)) else Err(RequestsUsedUp);
      }
      if account.ownKey {
        txns := txns[t := Unmetered];
        return Ok(None);
      }
      if !FreeRestructuresEnabled(c) {
        return Err(NoAccess);
      }
      if account.restructures >= c.restructureLimit {
        return Err(RestructuresUsedUp);
      }
      txns := txns[t := Charged(Charge(Restructures, account.restructures + 1, account.period))];
      return Ok(Some(Restructures));
    }

    /** get_db's commit or rollback at the end of the request. */
    method EndRequest(c: Settings, t: TxnId, llmOk: bool)
      requires Enabled(S(), Finish(t, llmOk))
      modifies this
      ensures S() == Apply(c, old(S()), Finish(t, llmOk))
    {
      var x := txns[t];
      txns := txns - {t};
      if llmOk && x.Charged? {
        if x.charge.meter == Requests {
          account := account.(usageCount := x.charge.used);
          account := account.(usageEnd := x.charge.end);
        } else {
          account := account.(restructures := x.charge.used);
        }
        uses := uses + [Use(x.charge.meter, x.charge.end)];
      }
    }
  }

  // ---------------------------------------------------------------- every interleaving

  function RequestsIn(uses: seq<Use>, period: Option<Period>): nat {
    if uses == [] then 0
    else RequestsIn(uses[..|uses| - 1], period) + if uses[|uses| - 1] == Use(Requests, period) then 1 else 0
  }

  function RestructuresIn(uses: seq<Use>): nat {
    if uses == [] then 0
    else RestructuresIn(uses[..|uses| - 1]) + if uses[|uses| - 1].meter == Restructures then 1 else 0
  }

  ghost predicate CountersInv(c: Settings, s: State) {
    var a := s.account;
    && a.restructures == RestructuresIn(s.uses)
    && (a.restructures > 0 ==> a.restructures <= c.restructureLimit)
    && RequestsUsed(a) == RequestsIn(s.uses, a.period)
    && (c.requestLimit > 0 ==> a.usageCount <= c.requestLimit)
    && a.period in s.ends && a.usageEnd in s.ends
    && (forall i :: 0 <= i < |s.uses| ==> s.uses[i].period in s.ends)
  }

  /** A request's meter reading is still good: its period is the current one, and what it wrote is
      the committed row's next value. */
  ghost predicate TxnInv(c: Settings, s: State, t: TxnId)
    requires t in s.txns
  {
    match s.txns[t]
    case Asked(m, period) => period == s.account.period
    case Charged(x) => Updated(c, s.account, x.meter, s.account.period) == Some(x)
    case Unmetered => true
  }

  ghost predicate Inv(c: Settings, s: State) {
    && CountersInv(c, s)
    && (forall t :: t in s.txns ==> TxnInv(c, s, t))
    && (forall t, o :: t in s.txns && o in s.txns && s.txns[t].Charged? && s.txns[o].Charged? ==> t == o)
  }

  lemma {:induction false} UsesAppend(uses: seq<Use>, u: Use, period: Option<Period>)
    ensures RequestsIn(uses + [u], period) == RequestsIn(uses, period) + if u == Use(Requests, period) then 1 else 0
    ensures RestructuresIn(uses + [u]) == RestructuresIn(uses) + if u.meter == Restructures then 1 else 0
  {
    assert (uses + [u])[..|uses|] == uses;
  }

  lemma {:induction false} NoneIn(uses: seq<Use>, period: Option<Period>)
    requires forall i :: 0 <= i < |uses| ==> uses[i].period != period
    ensures RequestsIn(uses, period) == 0
  {
    if uses != [] {
      NoneIn(uses[..|uses| - 1], period);
    }
  }

  lemma {:induction false} CommitInv(c: Settings, s: State, t: TxnId)
    requires Inv(c, s) && t in s.txns && s.txns[t].Charged?
    ensures Inv(c, Apply(c, s, Finish(t, true)))
  {
    assert TxnInv(c, s, t);
    var x := s.txns[t].charge;
    UsesAppend(s.uses, Use(x.meter, x.end), s.account.period);
    var s' := Apply(c, s, Finish(t, true));
    forall o | o in s'.txns
      ensures TxnInv(c, s', o)
    {
      assert TxnInv(c, s, o);
    }
  }

  lemma {:induction false} RolloverInv(c: Settings, s: State, end: Option<Period>)
    requires Inv(c, s) && Enabled(s, Rollover(end))
    ensures Inv(c, Apply(c, s, Rollover(end)))
  {
    NoneIn(s.uses, end);
  }

  lemma {:induction false} StepInv(c: Settings, s: State, e: Step)
    requires Inv(c, s) && Enabled(s, e)
    ensures Inv(c, Apply(c, s, e))
  {
    var s' := Apply(c, s, e);
    if e.Finish? && e.llmOk && s.txns[e.t].Charged? {
      CommitInv(c, s, e.t);
    } else if e.Rollover? {
      RolloverInv(c, s, e.end);
    } else {
      forall o | o in s'.txns
        ensures TxnInv(c, s', o)
      {
        assert o in s.txns ==> TxnInv(c, s, o);
      }
    }
  }

  lemma {:induction false} RunInv(c: Settings, states: seq<State>, steps: seq<Step>, i: nat)
    requires Run(c, states, steps) && Fresh(states[0]) && i < |states|
    ensures Inv(c, states[i])
  {
    if i > 0 {
      RunInv(c, states, steps, i - 1);
      StepInv(c, states[i - 1], steps[i - 1]);
    }
  }

  /** In every interleaving: this period's reading is the number of requests committed in this
      period and stays within a positive limit, and the free restructures are the ones committed,
      within theirs. A NULL period end is no exception here. */
  lemma {:induction false} CountsAreExact(c: Settings, states: seq<State>, steps: seq<Step>, i: nat)
    requires Run(c, states, steps) && Fresh(states[0]) && i < |states|
    ensures var s := states[i];
            && RequestsUsed(s.account) == RequestsIn(s.uses, s.account.period)
            && (c.requestLimit > 0 ==> RequestsUsed(s.account) <= c.requestLimit)
            && s.account.restructures == RestructuresIn(s.uses)
            && (s.account.restructures > 0 ==> s.account.restructures <= c.restructureLimit)
  {
    RunInv(c, states, steps, i);
  }

  /** A request that waits, is refused, loses its LLM call or dies is not counted. */
  lemma {:induction false} OnlyCommitsCount(c: Settings, s: State, e: Step)
    requires Enabled(s, e) && !(e.Finish? && e.llmOk && s.txns[e.t].Charged?)
    ensures var s' := Apply(c, s, e);
            && s'.uses == s.uses && s'.account.usageCount == s.account.usageCount
            && s'.account.usageEnd == s.account.usageEnd && s'.account.restructures == s.account.restructures
  {
    match e
    case Ask(_, _) =>
    case Update(_) =>
    case Finish(_, _) =>
    case Abort(_) =>
    case Rollover(_) =>
    case Change(_, _) =>
  }

  /** What a user is told remains of the free restructures is the limit less those they have used. */
  lemma {:induction false} RemainingIsExact(c: Settings, states: seq<State>, steps: seq<Step>, i: nat)
    requires Run(c, states, steps) && Fresh(states[0]) && i < |states|
    ensures FreeRestructuresRemaining(c, states[i].account) ==
            if c.restructureLimit > 0 && c.systemKey then c.restructureLimit - RestructuresIn(states[i].uses) else 0
  {
    CountsAreExact(c, states, steps, i);
  }

  // ---------------------------------------------------------------- who paid

  /** The plan pays before the user's own key, and only structuring a resume has free uses. */
  lemma {:induction false} WhoPays(c: Settings, a: Account, p: Purpose)
    ensures MeterFor(c, a, p) == Ok(Some(Requests)) <==> a.active && c.systemKey
    ensures MeterFor(c, a, p) == Ok(None) <==> !(a.active && c.systemKey) && a.ownKey
    ensures MeterFor(c, a, p) == Ok(Some(Restructures)) <==>
              && !a.active && !a.ownKey && c.systemKey && c.restructureLimit > 0 && p == StructureResume
    ensures MeterFor(c, a, p).Err? <==>
              !a.ownKey && (!c.systemKey || (!a.active && (c.restructureLimit <= 0 || p != StructureResume)))
  {
  }

  /** At a request's start the user's columns sent it to this meter, for this period. */
  ghost predicate Sent(c: Settings, s: State, e: Step, m: Meter, period: Option<Period>) {
    && e.Ask? && s.account.period == period && c.systemKey
    && (m == Requests ==> s.account.active)
    && (m == Restructures ==> !s.account.active && !s.account.ownKey && c.restructureLimit > 0 && e.purpose == StructureResume)
  }

  ghost predicate SentBefore(c: Settings, states: seq<State>, steps: seq<Step>, i: nat, m: Meter, period: Option<Period>)
    requires |states| == |steps| + 1
  {
    exists n :: 0 <= n < i && n < |steps| && Sent(c, states[n], steps[n], m, period)
  }

  lemma {:induction false} TxnWasSent(c: Settings, states: seq<State>, steps: seq<Step>, i: nat, t: TxnId)
    requires Run(c, states, steps) && Fresh(states[0]) && i < |states|
    requires t in states[i].txns && states[i].txns[t] != Unmetered
    ensures var x := states[i].txns[t];
            SentBefore(c, states, steps, i, MeterOf(x), PeriodOf(x))
  {
    var s, s' := states[i - 1], states[i];
    StepSends(c, states, steps, i - 1, t);
    if t in s.txns && s.txns[t] != Unmetered {
      TxnWasSent(c, states, steps, i - 1, t);
      SentEarlier(c, states, steps, i - 1, MeterOf(s.txns[t]), PeriodOf(s.txns[t]));
    } else {
      assert Sent(c, states[i - 1], steps[i - 1], s'.txns[t].meter, s'.txns[t].period);
    }
  }

  lemma {:induction false} SentEarlier(c: Settings, states: seq<State>, steps: seq<Step>, i: nat, m: Meter, period: Option<Period>)
    requires |states| == |steps| + 1 && SentBefore(c, states, steps, i, m, period)
    ensures SentBefore(c, states, steps, i + 1, m, period)
  {
  }

  function MeterOf(x: Txn): Meter
    requires x != Unmetered
  {
    if x.Asked? then x.meter else x.charge.meter
  }

  function PeriodOf(x: Txn): Option<Period>
    requires x != Unmetered
  {
    if x.Asked? then x.period else x.charge.end
  }

  /** A metered request in flight was just sent to its meter, or was on it before. */
  lemma {:induction false} StepSends(c: Settings, states: seq<State>, steps: seq<Step>, n: nat, t: TxnId)
    requires Run(c, states, steps) && Fresh(states[0]) && n < |steps|
    requires t in states[n + 1].txns && states[n + 1].txns[t] != Unmetered
    ensures var x, was := states[n + 1].txns[t], states[n].txns;
            if t in was && was[t] != Unmetered then MeterOf(x) == MeterOf(was[t]) && PeriodOf(x) == PeriodOf(was[t])
            else x.Asked? && Sent(c, states[n], steps[n], x.meter, x.period)
  {
    RunInv(c, states, steps, n);
    StepSendsTo(c, states[n], steps[n], states[n + 1], t);
  }

  lemma {:induction false} StepSendsTo(c: Settings, s: State, e: Step, s': State, t: TxnId)
    requires Inv(c, s) && Enabled(s, e) && s' == Apply(c, s, e) && t in s'.txns && s'.txns[t] != Unmetered
    ensures var x := s'.txns[t];
            if t in s.txns && s.txns[t] != Unmetered then MeterOf(x) == MeterOf(s.txns[t]) && PeriodOf(x) == PeriodOf(s.txns[t])
            else x.Asked? && Sent(c, s, e, x.meter, x.period)
  {
    if t in s.txns {
      assert TxnInv(c, s, t);
    }
  }

  /** Who paid for what, in every interleaving: a request counted against a plan was asked for by a
      user who then had the plan, in the period it is counted in, and a free restructure is the
      structuring of a resume asked for by a user with neither a plan nor a key of their own. */
  lemma {:induction false} UseWasSent(c: Settings, states: seq<State>, steps: seq<Step>, i: nat, k: nat)
    requires Run(c, states, steps) && Fresh(states[0]) && i < |states| && k < |states[i].uses|
    ensures var u := states[i].uses[k];
            exists n :: && 0 <= n < i && steps[n].Ask? && states[n].account.period == u.period && c.systemKey
                        && (u.meter == Requests ==> states[n].account.active)
                        && (u.meter == Restructures ==> && !states[n].account.active && !states[n].account.ownKey
                                                        && c.restructureLimit > 0 && steps[n].purpose == StructureResume)
  {
    if k < |states[i - 1].uses| {
      UseWasSent(c, states, steps, i - 1, k);
    } else {
      var u, t := states[i].uses[k], steps[i - 1].t;
      assert states[i] == Apply(c, states[i - 1], steps[i - 1]);
      TxnWasSent(c, states, steps, i - 1, t);
      var n :| 0 <= n < i - 1 && n < |steps| && Sent(c, states[n], steps[n], u.meter, u.period);
    }
  }
}
