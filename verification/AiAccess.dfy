/** app/services/ai_access.py: paying for a job's AI features, as concurrent transactions.
    A request inserts its unlock row (the unique key makes a second one for the same job wait),
    then bumps the user's counter with a conditional UPDATE (which takes the user's row lock),
    then calls the LLM, and only then commits or rolls back. */
module AiAccess {
  import opened Base

  type User = nat
  type Job = nat
  type Period = int
  type TxnId = nat

  /** Which meter an unlock row counts against: free_trial_jobs, for life, or
      subscription_evaluation_jobs, for the billing period that ends then. */
  datatype Bucket = Lifetime | Billing(end: Option<Period>)

  datatype Unlock = Unlock(txn: TxnId, user: User, job: Job, bucket: Bucket)

  datatype Source = Subscription | OwnKey | FreeTrial

  datatype Refusal = NoAccess | TrialExhausted | PeriodExhausted

  /** The user columns the meters read and write. */
  datatype Account = Account(
    active: bool, ownKey: bool, period: Option<Period>, evaluationLimit: int,
    freeUsed: nat, evaluationsUsed: nat, evaluationsEnd: Option<Period>)

  /** settings: free_evaluation_limit, and whether the system key works. */
  datatype Settings = Settings(freeLimit: int, systemKey: bool)

  datatype Phase =
    | Checked                                  // not unlocked; about to insert
    | Inserted                                 // the row is in, uncommitted
    | Spent(used: nat, end: Option<Period>)    // the counter is bumped, uncommitted, row lock held
    | Unmetered                                // nothing to pay

  datatype Txn = Txn(user: User, job: Job, source: Source, bucket: Bucket, phase: Phase)

  /** `accounts` and `unlocks` are what is committed; `txns` are the requests in flight; `ends`
      remembers every period end each user has had. */
  datatype State = State(
    accounts: map<User, Account>, unlocks: set<Unlock>, txns: map<TxnId, Txn>, ends: map<User, set<Option<Period>>>)

  // ---------------------------------------------------------------- readers

  predicate FreeTrialEnabled(c: Settings) {
    c.freeLimit > 0 && c.systemKey
  }

  predicate HasActiveSubscription(c: Settings, a: Account) {
    a.active && c.systemKey
  }

  function FreeRemaining(c: Settings, a: Account): int {
    if !FreeTrialEnabled(c) then 0 else if c.freeLimit > a.freeUsed then c.freeLimit - a.freeUsed else 0
  }

  /** subscription_evaluations_used: a counter left over from another period reads as 0. */
  function EvaluationsUsed(a: Account): nat {
    if a.evaluationsEnd != a.period then 0 else a.evaluationsUsed
  }

  /** job_llm_credentials' choice of who pays. */
  function SourceFor(c: Settings, a: Account): Result<Source, Refusal> {
    if HasActiveSubscription(c, a) then Ok(Subscription)
    else if a.ownKey then Ok(OwnKey)
    else if FreeTrialEnabled(c) then Ok(FreeTrial)
    else Err(NoAccess)
  }

  function BucketFor(a: Account, s: Source): Bucket {
    if s == Subscription then Billing(a.period) else Lifetime
  }

  predicate Unlocked(unlocks: set<Unlock>, u: User, j: Job, b: Bucket) {
    exists r :: r in unlocks && r.user == u && r.job == j && r.bucket == b
  }

  function CountOf(unlocks: set<Unlock>, u: User, b: Bucket): nat {
    |set r | r in unlocks && r.user == u && r.bucket == b|
  }

  // ---------------------------------------------------------------- one statement at a time

  datatype Step =
    | Begin(t: TxnId, user: User, job: Job)
    | Insert(t: TxnId)
    | Spend(t: TxnId)
    | Finish(t: TxnId, llmOk: bool)
    | Abort(t: TxnId)
    | Rollover(user: User, end: Option<Period>)
    | Change(user: User, active: bool, ownKey: bool)

  /** A unique key binds only when it has no NULL in it. */
  predicate UniqueKey(b: Bucket) {
    b != Billing(None)
  }

  /** Whether t holds an uncommitted row for this key. */
  predicate Holds(x: Txn, u: User, j: Job, b: Bucket) {
    (x.phase.Inserted? || x.phase.Spent?) && x.user == u && x.job == j && x.bucket == b
  }

  predicate KeyWaits(s: State, t: TxnId)
    requires t in s.txns
  {
    var x := s.txns[t];
    UniqueKey(x.bucket) && exists o :: o in s.txns && o != t && Holds(s.txns[o], x.user, x.job, x.bucket)
  }

  predicate LockWaits(s: State, t: TxnId)
    requires t in s.txns
  {
    exists o :: o in s.txns && o != t && s.txns[o].user == s.txns[t].user && s.txns[o].phase.Spent?
  }

  /** The conditional UPDATE: the counter's new value, or nothing when no row matched. */
  function Charge(c: Settings, a: Account, b: Bucket): Option<Phase> {
    if b.Lifetime? then
      if a.freeUsed < c.freeLimit then Some(Spent(a.freeUsed + 1, None)) else None
    else
      var newPeriod := a.evaluationsEnd != b.end;
      if a.evaluationLimit <= 0 || newPeriod || a.evaluationsUsed < a.evaluationLimit then
        Some(Spent(if newPeriod then 1 else a.evaluationsUsed + 1, b.end))
      else None
  }

  function Without(s: State, t: TxnId): State {
    s.(txns := s.txns - {t})
  }

  function Commit(s: State, t: TxnId): State
    requires t in s.txns && s.txns[t].user in s.accounts
  {
    var x := s.txns[t];
    var a := s.accounts[x.user];
    if !x.phase.Spent? then Without(s, t)
    else
      var a' := if x.bucket.Lifetime? then a.(freeUsed := x.phase.used)
                else a.(evaluationsUsed := x.phase.used, evaluationsEnd := x.phase.end);
      Without(s, t).(accounts := s.accounts[x.user := a'], unlocks := s.unlocks + {Unlock(t, x.user, x.job, x.bucket)})
  }

  predicate Enabled(c: Settings, s: State, e: Step) {
    match e
    case Begin(t, u, j) => t !in s.txns && u in s.accounts && (forall r :: r in s.unlocks ==> r.txn != t)
    case Insert(t) => t in s.txns && s.txns[t].phase.Checked? && !KeyWaits(s, t)
    case Spend(t) => t in s.txns && s.txns[t].phase.Inserted? && !LockWaits(s, t)
    case Finish(t, ok) => t in s.txns && (s.txns[t].phase.Spent? || s.txns[t].phase.Unmetered?)
    case Abort(t) => t in s.txns
    // A period never ends inside a request, and never comes back.
    case Rollover(u, end) => u in s.accounts && u in s.ends && end !in s.ends[u]
                             && forall t :: t in s.txns ==> s.txns[t].user != u
    case Change(u, active, ownKey) => u in s.accounts
  }

  function Apply(c: Settings, s: State, e: Step): State
    requires Enabled(c, s, e)
    requires forall t :: t in s.txns ==> s.txns[t].user in s.accounts
  {
    match e
    case Begin(t, u, j) =>
      var a := s.accounts[u];
      var source := SourceFor(c, a);
      if source.Err? then s
      else
        var b := BucketFor(a, source.value);
        var paid := source.value == OwnKey || Unlocked(s.unlocks, u, j, b);
        s.(txns := s.txns[t := Txn(u, j, source.value, b, if paid then Unmetered else Checked)])
    case Insert(t) =>
      var x := s.txns[t];
      var clash := UniqueKey(x.bucket) && Unlocked(s.unlocks, x.user, x.job, x.bucket);
      s.(txns := s.txns[t := x.(phase := if clash then Unmetered else Inserted)])
    case Spend(t) =>
      var x := s.txns[t];
      var charged := Charge(c, s.accounts[x.user], x.bucket);
      if charged.None? then Without(s, t) else s.(txns := s.txns[t := x.(phase := charged.value)])
    case Finish(t, ok) => if ok then Commit(s, t) else Without(s, t)
    case Abort(t) => Without(s, t)
    case Rollover(u, end) =>
      s.(accounts := s.accounts[u := s.accounts[u].(period := end)], ends := s.ends[u := s.ends[u] + {end}])
    case Change(u, active, ownKey) =>
      s.(accounts := s.accounts[u := s.accounts[u].(active := active, ownKey := ownKey)])
  }

  /** The meters before anyone has used anything. */
  predicate Fresh(s: State) {
    && s.unlocks == {} && s.txns == map[] && s.ends.Keys == s.accounts.Keys
    && forall u :: u in s.accounts ==>
         var a := s.accounts[u];
         && a.freeUsed == 0 && a.evaluationsUsed == 0 && a.evaluationsEnd == None
         && s.ends[u] == {a.period}
  }

  /** A run: steps that were enabled, one after the other. */
  ghost predicate Run(c: Settings, states: seq<State>, steps: seq<Step>) {
    && |states| == |steps| + 1
    && forall i :: 0 <= i < |steps| ==>
         && Enabled(c, states[i], steps[i])
         && (forall t :: t in states[i].txns ==> states[i].txns[t].user in states[i].accounts)
         && states[i + 1] == Apply(c, states[i], steps[i])
  }

  // ---------------------------------------------------------------- one request on its own

  class Database {
    var accounts: map<User, Account>
    var unlocks: set<Unlock>
    var txns: map<TxnId, Txn>
    ghost var ends: map<User, set<Option<Period>>>

    ghost function S(): State
      reads this
    {
      State(accounts, unlocks, txns, ends)
    }

    constructor (accounts: map<User, Account>, unlocks: set<Unlock>, ghost ends: map<User, set<Option<Period>>>)
      ensures S() == State(accounts, unlocks, map[], ends)
    {
      this.accounts, this.unlocks, this.txns, this.ends := accounts, unlocks, map[], ends;
    }

    /** _unlock_job and _unlock_subscription_job, with nobody else in the way: the insert, then
        the conditional UPDATE, whose failure takes the inserted row back out. */
    method UnlockJob(c: Settings, t: TxnId) returns (spent: bool)
      requires txns.Keys == {t} && txns[t].phase.Checked? && txns[t].user in accounts
      modifies this
      ensures var s := old(S()); var x := old(txns)[t];
              var clash := UniqueKey(x.bucket) && Unlocked(old(unlocks), x.user, x.job, x.bucket);
              && Enabled(c, s, Insert(t))
              && (clash ==> spent && S() == Apply(c, s, Insert(t)))
              && (!clash ==> Enabled(c, Apply(c, s, Insert(t)), Spend(t))
                             && S() == Apply(c, Apply(c, s, Insert(t)), Spend(t)) && spent == (t in txns))
    {
      var x := txns[t];
      if UniqueKey(x.bucket) && Unlocked(unlocks, x.user, x.job, x.bucket) {
        txns := txns[t := x.(phase := Unmetered)];
        return true;
      }
      txns := txns[t := x.(phase := Inserted)];
      var charged := Charge(c, accounts[x.user], x.bucket);
      if charged.None? {
        txns := txns - {t};
        return false;
      }
      txns := txns[t := x.(phase := charged.value)];
      return true;
    }

    /** job_llm_credentials for a user with no other request in flight. A plan pays before the
        user's own key and the key before the free trial. What is committed does not change yet; a
        job not unlocked before is refused exactly when nothing remains. */
    method JobLlmCredentials(c: Settings, t: TxnId, u: User, j: Job) returns (r: Result<Source, Refusal>)
      requires txns == map[] && u in accounts && (forall x :: x in unlocks ==> x.txn != t)
      modifies this
      ensures accounts == old(accounts) && unlocks == old(unlocks) && ends == old(ends)
      ensures r.Ok? ==> txns.Keys == {t} && Enabled(c, S(), Finish(t, true)) && txns[t].source == r.value
      ensures r.Err? ==> txns == map[]
      ensures Enabled(c, old(S()), Begin(t, u, j))
      ensures var begun := Apply(c, old(S()), Begin(t, u, j));
              if t in begun.txns && begun.txns[t].phase.Checked? then
                && Enabled(c, begun, Insert(t)) && Enabled(c, Apply(c, begun, Insert(t)), Spend(t))
                && S() == Apply(c, Apply(c, begun, Insert(t)), Spend(t))
              else S() == begun
      ensures var a := accounts[u];
              var used := if a.evaluationsEnd == a.period then a.evaluationsUsed else 0;
              r == if a.active && c.systemKey then
                     (if used < a.evaluationLimit || a.evaluationLimit <= 0
                         || (exists x :: x in unlocks && x.user == u && x.job == j && x.bucket == Billing(a.period))
                      then Ok(Subscription) else Err(PeriodExhausted))
                   else if a.ownKey then Ok(OwnKey)
                   else if c.freeLimit > 0 && c.systemKey then
                     (if a.freeUsed < c.freeLimit
                         || (exists x :: x in unlocks && x.user == u && x.job == j && x.bucket == Lifetime)
                      then Ok(FreeTrial) else Err(TrialExhausted))
                   else Err(NoAccess)
      ensures r.Ok? ==> txns[t].user == u && txns[t].job == j
      ensures r == Ok(OwnKey) ==> txns[t].phase.Unmetered?
      ensures r == Ok(FreeTrial) ==> txns[t].bucket == Lifetime
      ensures r == Ok(Subscription) ==> txns[t].bucket == Billing(accounts[u].period)
      ensures r.Ok? && r.value != OwnKey ==>
                (txns[t].phase.Unmetered? <==>
                   exists x :: x in unlocks && x.user == u && x.job == j && x.bucket == txns[t].bucket)
    {
      var a := accounts[u];
      r := SourceFor(c, a);
      if r.Err? {
        return;
      }
      var b := BucketFor(a, r.value);
      if r.value == OwnKey || Unlocked(unlocks, u, j, b) {
        txns := txns[t := Txn(u, j, r.value, b, Unmetered)];
        return;
      }
      txns := txns[t := Txn(u, j, r.value, b, Checked)];
      var spent := UnlockJob(c, t);
      if !spent {
        r := Err(if r.value == FreeTrial then TrialExhausted else PeriodExhausted);
      }
    }

    /** get_db's commit or rollback at the end of the request. */
    method EndRequest(c: Settings, t: TxnId, llmOk: bool)
      requires Enabled(c, S(), Finish(t, llmOk)) && forall o :: o in txns ==> txns[o].user in accounts
      modifies this
      ensures S() == Apply(c, old(S()), Finish(t, llmOk))
    {
      var x := txns[t];
      txns := txns - {t};
      if llmOk && x.phase.Spent? {
        var a := accounts[x.user];
        unlocks := unlocks + {Unlock(t, x.user, x.job, x.bucket)};
        if x.bucket.Lifetime? {
          accounts := accounts[x.user := a.(freeUsed := x.phase.used)];
        } else {
          accounts := accounts[x.user := a.(evaluationsUsed := x.phase.used, evaluationsEnd := x.phase.end)];
        }
      }
    }
  }
}
