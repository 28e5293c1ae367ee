/** The meters of app/services/ai_access.py in every interleaving of requests. */
module AiAccessLaws {
  import opened Base
  import opened AiAccess

  // ---------------------------------------------------------------- the invariant

  /** One user's counters agree with their committed unlock rows and stay within the limits; `ends`
      are the period ends they have had. */
  ghost predicate Meters(c: Settings, a: Account, unlocks: set<Unlock>, ends: set<Option<Period>>, u: User) {
    && CountOf(unlocks, u, Lifetime) == a.freeUsed
    && (a.freeUsed > 0 ==> a.freeUsed <= c.freeLimit)
    && CountOf(unlocks, u, Billing(a.evaluationsEnd)) == a.evaluationsUsed
    && (a.evaluationsEnd != a.period ==> CountOf(unlocks, u, Billing(a.period)) == 0)
    && (a.evaluationLimit > 0 ==> a.evaluationsUsed <= a.evaluationLimit)
    && a.period in ends
    && (forall r :: r in unlocks && r.user == u && r.bucket.Billing? ==> r.bucket.end in ends)
  }

  ghost predicate AccountInv(c: Settings, s: State, u: User)
    requires u in s.accounts
  {
    u in s.ends && Meters(c, s.accounts[u], s.unlocks, s.ends[u], u)
  }

  /** No period, this one or an earlier one, has more rows than a positive limit. */
  ghost predicate LimitKept(a: Account, unlocks: set<Unlock>, u: User) {
    a.evaluationLimit > 0 ==> forall end :: CountOf(unlocks, u, Billing(end)) <= a.evaluationLimit
  }

  ghost predicate TxnInv(c: Settings, s: State, t: TxnId)
    requires t in s.txns
  {
    var x := s.txns[t];
    && x.user in s.accounts
    && (x.source == Subscription <==> x.bucket.Billing?)
    && (x.bucket.Billing? ==> x.bucket.end == s.accounts[x.user].period)
    && (UniqueKey(x.bucket) && (x.phase.Inserted? || x.phase.Spent?) ==> !Unlocked(s.unlocks, x.user, x.job, x.bucket))
    && (forall r :: r in s.unlocks ==> r.txn != t)
    && (x.phase.Spent? ==> Charge(c, s.accounts[x.user], x.bucket) == Some(x.phase))
    && (x.phase.Unmetered? && x.source != OwnKey ==> Unlocked(s.unlocks, x.user, x.job, x.bucket))
    && (x.source == OwnKey ==> x.phase.Unmetered?)
  }

  /** No two requests hold one unlock key that binds, and no two hold one user's row lock. */
  ghost predicate Apart(x: Txn, y: Txn) {
    && (UniqueKey(x.bucket) ==> !(Holds(x, x.user, x.job, x.bucket) && Holds(y, x.user, x.job, x.bucket)))
    && !(x.user == y.user && x.phase.Spent? && y.phase.Spent?)
  }

  /** At most one row per key that binds. */
  ghost predicate OnePerKey(unlocks: set<Unlock>) {
    forall r, q :: r in unlocks && q in unlocks && UniqueKey(r.bucket) && r.user == q.user && r.job == q.job && r.bucket == q.bucket ==> r == q
  }

  ghost predicate Inv(c: Settings, s: State) {
    && OnePerKey(s.unlocks)
    && (forall r :: r in s.unlocks ==> r.user in s.accounts)
    && (forall u :: u in s.accounts ==> AccountInv(c, s, u))
    && (forall u :: u in s.accounts ==> LimitKept(s.accounts[u], s.unlocks, u))
    && (forall t :: t in s.txns ==> TxnInv(c, s, t))
    && (forall t, o :: t in s.txns && o in s.txns && t != o ==> Apart(s.txns[t], s.txns[o]))
  }

  ghost predicate UsersKnown(s: State) {
    forall t :: t in s.txns ==> s.txns[t].user in s.accounts
  }

  // ---------------------------------------------------------------- every step keeps it

  lemma {:induction false} FreshInv(c: Settings, s: State)
    requires Fresh(s)
    ensures Inv(c, s)
  {
    forall u | u in s.accounts
      ensures AccountInv(c, s, u)
    {
      forall b
        ensures CountOf(s.unlocks, u, b) == 0
      {
        assert (set r | r in s.unlocks && r.user == u && r.bucket == b) == {};
      }
    }
  }

  /** Steps that only move one request forward. */
  lemma {:induction false} TxnOnly(c: Settings, s: State, t: TxnId, x: Txn)
    requires Inv(c, s)
    requires TxnInv(c, s.(txns := s.txns[t := x]), t)
    requires forall o :: o in s.txns && o != t ==> Apart(x, s.txns[o]) && Apart(s.txns[o], x)
    ensures Inv(c, s.(txns := s.txns[t := x]))
  {
    var s' := s.(txns := s.txns[t := x]);
    forall u | u in s'.accounts
      ensures AccountInv(c, s', u)
    {
      assert AccountInv(c, s, u);
    }
    forall o | o in s'.txns
      ensures TxnInv(c, s', o)
    {
      if o != t {
        assert TxnInv(c, s, o);
      }
    }
  }

  lemma {:induction false} WithoutInv(c: Settings, s: State, t: TxnId)
    requires Inv(c, s) && t in s.txns
    ensures Inv(c, Without(s, t))
  {
    var s' := Without(s, t);
    forall u | u in s'.accounts
      ensures AccountInv(c, s', u)
    {
      assert AccountInv(c, s, u);
    }
    forall o | o in s'.txns
      ensures TxnInv(c, s', o)
    {
      assert TxnInv(c, s, o);
    }
  }

  lemma {:induction false} BeginInv(c: Settings, s: State, e: Step)
    requires Inv(c, s) && e.Begin? && Enabled(c, s, e)
    ensures Inv(c, Apply(c, s, e))
  {
    var a := s.accounts[e.user];
    assert AccountInv(c, s, e.user);
    var source := SourceFor(c, a);
    if source.Ok? {
      TxnOnly(c, s, e.t, Apply(c, s, e).txns[e.t]);
    }
  }

  lemma {:induction false} InsertInv(c: Settings, s: State, e: Step)
    requires Inv(c, s) && e.Insert? && Enabled(c, s, e)
    ensures Inv(c, Apply(c, s, e))
  {
    assert TxnInv(c, s, e.t);
    var x := Apply(c, s, e).txns[e.t];
    forall o | o in s.txns && o != e.t
      ensures Apart(x, s.txns[o]) && Apart(s.txns[o], x)
    {
      assert UniqueKey(x.bucket) ==> !Holds(s.txns[o], x.user, x.job, x.bucket);
    }
    TxnOnly(c, s, e.t, x);
  }

  lemma {:induction false} SpendInv(c: Settings, s: State, e: Step)
    requires Inv(c, s) && e.Spend? && Enabled(c, s, e)
    ensures Inv(c, Apply(c, s, e))
  {
    assert TxnInv(c, s, e.t);
    var x := s.txns[e.t];
    var charged := Charge(c, s.accounts[x.user], x.bucket);
    if charged.None? {
      WithoutInv(c, s, e.t);
    } else {
      var x' := x.(phase := charged.value);
      forall o | o in s.txns && o != e.t
        ensures Apart(x', s.txns[o]) && Apart(s.txns[o], x')
      {
        assert Apart(x, s.txns[o]) && Apart(s.txns[o], x);
      }
      TxnOnly(c, s, e.t, x');
    }
  }

  lemma {:induction false} CountAdd(unlocks: set<Unlock>, r: Unlock, u: User, b: Bucket)
    requires r !in unlocks
    ensures CountOf(unlocks + {r}, u, b) == CountOf(unlocks, u, b) + if r.user == u && r.bucket == b then 1 else 0
  {
    var was := set q | q in unlocks && q.user == u && q.bucket == b;
    var now := set q | q in unlocks + {r} && q.user == u && q.bucket == b;
    if r.user == u && r.bucket == b {
      assert now == was + {r};
    } else {
      assert now == was;
    }
  }

  /** What a paying commit does to the payer's own row. */
  lemma {:induction false} CommitAccount(c: Settings, s: State, t: TxnId)
    requires Inv(c, s) && t in s.txns && s.txns[t].phase.Spent?
    ensures AccountInv(c, Commit(s, t), s.txns[t].user)
  {
    var x := s.txns[t];
    var u, r := x.user, Unlock(t, x.user, x.job, x.bucket);
    assert TxnInv(c, s, t) && AccountInv(c, s, u);
    var a, s' := s.accounts[u], Commit(s, t);
    var a' := s'.accounts[u];
    assert r !in s.unlocks;
    CountAdd(s.unlocks, r, u, Lifetime);
    CountAdd(s.unlocks, r, u, Billing(a'.evaluationsEnd));
    CountAdd(s.unlocks, r, u, Billing(a.period));
  }

  lemma {:induction false} OtherAccounts(c: Settings, s: State, t: TxnId, u: User)
    requires Inv(c, s) && t in s.txns && s.txns[t].phase.Spent? && u in s.accounts && u != s.txns[t].user
    ensures AccountInv(c, Commit(s, t), u)
  {
    var x := s.txns[t];
    var r := Unlock(t, x.user, x.job, x.bucket);
    assert TxnInv(c, s, t) && AccountInv(c, s, u);
    assert r !in s.unlocks;
    CountAdd(s.unlocks, r, u, Lifetime);
    CountAdd(s.unlocks, r, u, Billing(s.accounts[u].evaluationsEnd));
    CountAdd(s.unlocks, r, u, Billing(s.accounts[u].period));
  }

  lemma {:induction false} StillOnePerKey(unlocks: set<Unlock>, r: Unlock)
    requires OnePerKey(unlocks) && (UniqueKey(r.bucket) ==> !Unlocked(unlocks, r.user, r.job, r.bucket))
    ensures OnePerKey(unlocks + {r})
  {
  }

  lemma {:induction false} CommitLimit(c: Settings, s: State, t: TxnId, u: User)
    requires Inv(c, s) && t in s.txns && s.txns[t].phase.Spent? && u in s.accounts
    requires AccountInv(c, Commit(s, t), u)
    ensures LimitKept(Commit(s, t).accounts[u], Commit(s, t).unlocks, u)
  {
    var x := s.txns[t];
    var r := Unlock(t, x.user, x.job, x.bucket);
    assert TxnInv(c, s, t);
    assert r !in s.unlocks && LimitKept(s.accounts[u], s.unlocks, u);
    forall end | s.accounts[u].evaluationLimit > 0
      ensures CountOf(s.unlocks + {r}, u, Billing(end)) <= s.accounts[u].evaluationLimit
    {
      CountAdd(s.unlocks, r, u, Billing(end));
    }
  }

  lemma {:induction false} CommitInv(c: Settings, s: State, t: TxnId)
    requires Inv(c, s) && t in s.txns && s.txns[t].phase.Spent?
    ensures Inv(c, Commit(s, t))
  {
    var x, s' := s.txns[t], Commit(s, t);
    assert TxnInv(c, s, t);
    CommitAccount(c, s, t);
    CommitLimit(c, s, t, x.user);
    StillOnePerKey(s.unlocks, Unlock(t, x.user, x.job, x.bucket));
    forall u | u in s'.accounts && u != x.user
      ensures AccountInv(c, s', u)
    {
      OtherAccounts(c, s, t, u);
    }
    forall u | u in s'.accounts && u != x.user
      ensures LimitKept(s'.accounts[u], s'.unlocks, u)
    {
      CommitLimit(c, s, t, u);
    }
    forall o | o in s'.txns
      ensures TxnInv(c, s', o)
    {
      assert TxnInv(c, s, o) && Apart(x, s.txns[o]) && Apart(s.txns[o], x);
      OthersUnaffected(c, s, t, o);
    }
  }

  lemma {:induction false} UnlockedAfter(unlocks: set<Unlock>, r: Unlock, u: User, j: Job, b: Bucket)
    ensures Unlocked(unlocks + {r}, u, j, b) <==> Unlocked(unlocks, u, j, b) || (r.user == u && r.job == j && r.bucket == b)
  {
    if Unlocked(unlocks, u, j, b) {
      var q :| q in unlocks && q.user == u && q.job == j && q.bucket == b;
      assert q in unlocks + {r};
    } else if r.user == u && r.job == j && r.bucket == b {
      assert r in unlocks + {r};
    }
  }

  lemma {:induction false} OthersUnaffected(c: Settings, s: State, t: TxnId, o: TxnId)
    requires t in s.txns && s.txns[t].phase.Spent? && o in s.txns && o != t
    requires TxnInv(c, s, o) && TxnInv(c, s, t) && Apart(s.txns[t], s.txns[o]) && Apart(s.txns[o], s.txns[t])
    ensures TxnInv(c, Commit(s, t), o)
  {
    var x, y := s.txns[t], s.txns[o];
    UnlockedAfter(s.unlocks, Unlock(t, x.user, x.job, x.bucket), y.user, y.job, y.bucket);
  }

  /** Steps that change one user's subscription columns, and neither meter nor unlocks. */
  ghost predicate OnlyColumns(s: State, s': State, u: User) {
    && u in s.accounts && s'.unlocks == s.unlocks && s'.txns == s.txns
    && s'.accounts.Keys == s.accounts.Keys && (forall o :: o in s.accounts && o != u ==> s'.accounts[o] == s.accounts[o])
    && s'.ends.Keys == s.ends.Keys && (forall o :: o in s.ends && o != u ==> s'.ends[o] == s.ends[o])
    && s'.accounts[u] == s.accounts[u].(active := s'.accounts[u].active, ownKey := s'.accounts[u].ownKey,
                                        period := s'.accounts[u].period)
    && (s'.accounts[u].period == s.accounts[u].period || forall t :: t in s.txns ==> s.txns[t].user != u)
  }

  lemma {:induction false} ColumnsAccount(c: Settings, s: State, s': State, u: User, o: User)
    requires OnlyColumns(s, s', u) && o in s.accounts && o != u && AccountInv(c, s, o)
    ensures AccountInv(c, s', o)
  {
  }

  lemma {:induction false} ColumnsTxn(c: Settings, s: State, s': State, u: User, t: TxnId)
    requires OnlyColumns(s, s', u) && t in s.txns && TxnInv(c, s, t)
    ensures TxnInv(c, s', t)
  {
  }

  lemma {:induction false} ColumnsLimit(s: State, s': State, u: User, o: User)
    requires OnlyColumns(s, s', u) && o in s.accounts && LimitKept(s.accounts[o], s.unlocks, o)
    ensures LimitKept(s'.accounts[o], s'.unlocks, o)
  {
  }

  lemma {:induction false} ColumnsOnly(c: Settings, s: State, s': State, u: User)
    requires Inv(c, s) && OnlyColumns(s, s', u) && AccountInv(c, s', u)
    ensures Inv(c, s')
  {
    forall o | o in s'.accounts
      ensures AccountInv(c, s', o) && LimitKept(s'.accounts[o], s'.unlocks, o)
    {
      ColumnsLimit(s, s', u, o);
      if o != u {
        ColumnsAccount(c, s, s', u, o);
      }
    }
    forall t | t in s'.txns
      ensures TxnInv(c, s', t)
    {
      ColumnsTxn(c, s, s', u, t);
    }
  }

  lemma {:induction false} RolloverMeters(c: Settings, s: State, u: User, end: Option<Period>)
    requires u in s.accounts && AccountInv(c, s, u) && end !in s.ends[u]
    ensures Meters(c, s.accounts[u].(period := end), s.unlocks, s.ends[u] + {end}, u)
  {
    assert (set r | r in s.unlocks && r.user == u && r.bucket == Billing(end)) == {};
  }

  lemma {:induction false} AccountStepInv(c: Settings, s: State, e: Step)
    requires Inv(c, s) && UsersKnown(s) && (e.Rollover? || e.Change?) && Enabled(c, s, e)
    ensures Inv(c, Apply(c, s, e))
  {
    assert AccountInv(c, s, e.user);
    if e.Rollover? {
      RolloverMeters(c, s, e.user, e.end);
    }
    assert OnlyColumns(s, Apply(c, s, e), e.user);
    ColumnsOnly(c, s, Apply(c, s, e), e.user);
  }

  lemma {:induction false} StepInv(c: Settings, s: State, e: Step)
    requires Inv(c, s) && Enabled(c, s, e)
    ensures forall t :: t in s.txns ==> s.txns[t].user in s.accounts
    ensures Inv(c, Apply(c, s, e))
  {
    assert forall t :: t in s.txns ==> TxnInv(c, s, t);
    match e
    case Begin(_, _, _) => BeginInv(c, s, e);
    case Insert(_) => InsertInv(c, s, e);
    case Spend(_) => SpendInv(c, s, e);
    case Finish(t, ok) =>
      if ok && s.txns[t].phase.Spent? {
        CommitInv(c, s, t);
      } else {
        WithoutInv(c, s, t);
      }
    case Abort(t) => WithoutInv(c, s, t);
    case Rollover(_, _) => AccountStepInv(c, s, e);
    case Change(_, _, _) => AccountStepInv(c, s, e);
  }

  lemma {:induction false} RunInv(c: Settings, states: seq<State>, steps: seq<Step>, i: nat)
    requires Run(c, states, steps) && Fresh(states[0]) && i < |states|
    ensures Inv(c, states[i])
  {
    if i == 0 {
      FreshInv(c, states[0]);
    } else {
      RunInv(c, states, steps, i - 1);
      StepInv(c, states[i - 1], steps[i - 1]);
    }
  }

  // ---------------------------------------------------------------- what that means

  /** In every interleaving: the free counter is the number of jobs unlocked and never passes
      the limit, a job has at most one row under a key that binds, this period's reading is the
      number of this period's rows, and no period has more rows than a positive limit. */
  lemma {:induction false} MetersAreExact(c: Settings, states: seq<State>, steps: seq<Step>, i: nat, u: User)
    requires Run(c, states, steps) && Fresh(states[0]) && i < |states| && u in states[i].accounts
    ensures var s := states[i]; var a := s.accounts[u];
            && a.freeUsed == CountOf(s.unlocks, u, Lifetime)
            && (a.freeUsed > 0 ==> a.freeUsed <= c.freeLimit)
            && OnePerKey(s.unlocks)
            && EvaluationsUsed(a) == CountOf(s.unlocks, u, Billing(a.period))
            && (a.evaluationLimit > 0 ==> forall end :: CountOf(s.unlocks, u, Billing(end)) <= a.evaluationLimit)
  {
    RunInv(c, states, steps, i);
    assert AccountInv(c, states[i], u);
    assert LimitKept(states[i].accounts[u], states[i].unlocks, u);
  }

  /** What a user is told remains of the trial is the limit less the jobs they have unlocked. */
  lemma {:induction false} RemainingIsExact(c: Settings, states: seq<State>, steps: seq<Step>, i: nat, u: User)
    requires Run(c, states, steps) && Fresh(states[0]) && i < |states| && u in states[i].accounts
    ensures var s := states[i];
            FreeRemaining(c, s.accounts[u]) ==
              if c.freeLimit > 0 && c.systemKey then c.freeLimit - CountOf(s.unlocks, u, Lifetime) else 0
  {
    MetersAreExact(c, states, steps, i, u);
  }

  // ---------------------------------------------------------------- who paid

  /** At this request's start, the user's columns sent it to this meter, and the job had no row there. */
  ghost predicate Asked(c: Settings, s: State, u: User, j: Job, b: Bucket) {
    && u in s.accounts
    && (b == Lifetime ==> !(s.accounts[u].active && c.systemKey) && !s.accounts[u].ownKey && c.freeLimit > 0 && c.systemKey)
    && (b.Billing? ==> s.accounts[u].active && c.systemKey && s.accounts[u].period == b.end)
    && forall x :: x in s.unlocks ==> !(x.user == u && x.job == j && x.bucket == b)
  }

  lemma {:induction false} TxnAsked(c: Settings, states: seq<State>, steps: seq<Step>, i: nat, t: TxnId) returns (n: nat)
    requires Run(c, states, steps) && Fresh(states[0]) && i < |states|
    requires t in states[i].txns && !states[i].txns[t].phase.Unmetered?
    ensures n < i && steps[n] == Begin(t, states[i].txns[t].user, states[i].txns[t].job)
    ensures Asked(c, states[n], states[i].txns[t].user, states[i].txns[t].job, states[i].txns[t].bucket)
  {
    var e := steps[i - 1];
    if e.Begin? && e.t == t {
      n := i - 1;
    } else {
      n := TxnAsked(c, states, steps, i - 1, t);
    }
  }

  /** Who paid for what, in every interleaving. Each committed row was asked for, when the job had
      none: a free one by a user with neither a plan nor a key of their own, and a plan's one by a
      user whose billing period then ended when the row says. */
  lemma {:induction false} RowWasAsked(c: Settings, states: seq<State>, steps: seq<Step>, i: nat, r: Unlock) returns (n: nat)
    requires Run(c, states, steps) && Fresh(states[0]) && i < |states| && r in states[i].unlocks
    ensures n < i && steps[n] == Begin(r.txn, r.user, r.job) && r.user in states[n].accounts
    ensures var a := states[n].accounts[r.user];
            && (r.bucket == Lifetime ==> !(a.active && c.systemKey) && !a.ownKey && c.freeLimit > 0 && c.systemKey)
            && (r.bucket.Billing? ==> a.active && c.systemKey && a.period == r.bucket.end)
    ensures forall x :: x in states[n].unlocks ==> !(x.user == r.user && x.job == r.job && x.bucket == r.bucket)
  {
    if r in states[i - 1].unlocks {
      n := RowWasAsked(c, states, steps, i - 1, r);
    } else {
      assert states[i] == Apply(c, states[i - 1], steps[i - 1]);
      n := TxnAsked(c, states, steps, i - 1, r.txn);
    }
  }

  predicate Pays(s: State, e: Step) {
    e.Finish? && e.llmOk && e.t in s.txns && s.txns[e.t].phase.Spent?
  }

  /** A paying commit adds one row, for a job not unlocked before, and one to its meter; the other
      meter and every other user stay as they were. */
  lemma {:induction false} PayingCommitCharges(c: Settings, s: State, e: Step)
    requires Inv(c, s) && Enabled(c, s, e) && Pays(s, e)
    ensures s.txns[e.t].user in s.accounts
    ensures var x, s' := s.txns[e.t], Commit(s, e.t);
            && s'.unlocks == s.unlocks + {Unlock(e.t, x.user, x.job, x.bucket)}
            && Unlock(e.t, x.user, x.job, x.bucket) !in s.unlocks
            && (UniqueKey(x.bucket) ==> !Unlocked(s.unlocks, x.user, x.job, x.bucket))
            && (forall u :: u in s.accounts && u != x.user ==> s'.accounts[u] == s.accounts[u])
            && (x.bucket.Lifetime? ==> s'.accounts[x.user].freeUsed == s.accounts[x.user].freeUsed + 1
                                       && EvaluationsUsed(s'.accounts[x.user]) == EvaluationsUsed(s.accounts[x.user]))
            && (x.bucket.Billing? ==> s'.accounts[x.user].freeUsed == s.accounts[x.user].freeUsed
                                      && EvaluationsUsed(s'.accounts[x.user]) == EvaluationsUsed(s.accounts[x.user]) + 1)
  {
    assert TxnInv(c, s, e.t);
    assert AccountInv(c, s, s.txns[e.t].user);
  }

  /** Nothing else changes what is committed: a request that waits, fails its UPDATE, fails its LLM
      call or dies leaves rows and counters alone. */
  lemma {:induction false} OnlyCommitsCharge(c: Settings, s: State, e: Step)
    requires Enabled(c, s, e) && UsersKnown(s) && !Pays(s, e)
    ensures var s' := Apply(c, s, e);
            && s'.unlocks == s.unlocks
            && s'.accounts.Keys == s.accounts.Keys
            && forall u :: u in s.accounts ==>
                 (&& s'.accounts[u].freeUsed == s.accounts[u].freeUsed
                  && s'.accounts[u].evaluationsUsed == s.accounts[u].evaluationsUsed
                  && s'.accounts[u].evaluationsEnd == s.accounts[u].evaluationsEnd)
  {
    match e
    case Begin(_, _, _) =>
    case Insert(_) =>
    case Spend(_) =>
    case Finish(_, _) =>
    case Abort(_) =>
    case Rollover(_, _) =>
    case Change(_, _, _) =>
  }

  /** Nobody uses a metered system key for a job that is not unlocked for them, by a committed
      row or by the one their own commit will add. */
  lemma {:induction false} PaidBeforeUse(c: Settings, states: seq<State>, steps: seq<Step>, i: nat, t: TxnId)
    requires Run(c, states, steps) && Fresh(states[0]) && i < |states| && t in states[i].txns
    requires Enabled(c, states[i], Finish(t, true)) && states[i].txns[t].source != OwnKey
    ensures forall o :: o in states[i].txns ==> states[i].txns[o].user in states[i].accounts
    ensures var x := states[i].txns[t];
            Unlocked(Apply(c, states[i], Finish(t, true)).unlocks, x.user, x.job, x.bucket)
  {
    RunInv(c, states, steps, i);
    var s, x := states[i], states[i].txns[t];
    assert forall o :: o in s.txns ==> TxnInv(c, s, o);
    if x.phase.Spent? {
      assert Unlock(t, x.user, x.job, x.bucket) in Commit(s, t).unlocks;
    }
  }

  // ---------------------------------------------------------------- paying twice for one job

  ghost predicate Reaches(c: Settings, s: State, steps: seq<Step>, s': State)
    decreases |steps|
  {
    if steps == [] then s' == s
    else UsersKnown(s) && Enabled(c, s, steps[0]) && Reaches(c, Apply(c, s, steps[0]), steps[1..], s')
  }

  lemma {:induction false} ReachesMore(c: Settings, s: State, steps: seq<Step>, mid: State, more: seq<Step>, s': State)
    requires Reaches(c, s, steps, mid) && Reaches(c, mid, more, s')
    ensures Reaches(c, s, steps + more, s')
    decreases |steps|
  {
    if steps == [] {
      assert steps + more == more;
    } else {
      ReachesMore(c, Apply(c, s, steps[0]), steps[1..], mid, more, s');
      assert (steps + more)[0] == steps[0] && (steps + more)[1..] == steps[1..] + more;
    }
  }

  lemma {:induction false} OneStep(c: Settings, s: State, e: Step)
    requires UsersKnown(s) && Enabled(c, s, e)
    ensures Reaches(c, s, [e], Apply(c, s, e))
  {
    assert [e][1..] == [];
  }

  /** What is reached is what a run ends with. */
  lemma {:induction false} ReachesIsRun(c: Settings, s: State, steps: seq<Step>, s': State) returns (states: seq<State>)
    requires Reaches(c, s, steps, s')
    ensures Run(c, states, steps) && states[0] == s && states[|states| - 1] == s'
    decreases |steps|
  {
    if steps == [] {
      states := [s];
    } else {
      var rest := ReachesIsRun(c, Apply(c, s, steps[0]), steps[1..], s');
      states := [s] + rest;
      forall i | 0 <= i < |steps|
        ensures Enabled(c, states[i], steps[i]) && UsersKnown(states[i]) && states[i + 1] == Apply(c, states[i], steps[i])
      {
        if i > 0 {
          assert states[i] == rest[i - 1] && states[i + 1] == rest[i] && steps[i] == steps[1..][i - 1];
        }
      }
    }
  }

  lemma {:induction false} StepGrows(c: Settings, s: State, e: Step, u: User)
    requires UsersKnown(s) && Enabled(c, s, e) && u in s.accounts
    ensures s.unlocks <= Apply(c, s, e).unlocks && u in Apply(c, s, e).accounts
    ensures Apply(c, s, e).accounts[u].evaluationLimit == s.accounts[u].evaluationLimit
  {
  }

  lemma {:induction false} ReachesInv(c: Settings, s: State, steps: seq<Step>, s': State)
    requires Inv(c, s) && Reaches(c, s, steps, s')
    ensures Inv(c, s')
    decreases |steps|
  {
    if steps != [] {
      StepInv(c, s, steps[0]);
      ReachesInv(c, Apply(c, s, steps[0]), steps[1..], s');
    }
  }

  lemma {:induction false} ReachesGrows(c: Settings, s: State, steps: seq<Step>, s': State, u: User)
    requires Reaches(c, s, steps, s') && u in s.accounts
    ensures s.unlocks <= s'.unlocks && u in s'.accounts
    ensures s'.accounts[u].evaluationLimit == s.accounts[u].evaluationLimit
    decreases |steps|
  {
    if steps != [] {
      StepGrows(c, s, steps[0], u);
      ReachesGrows(c, Apply(c, s, steps[0]), steps[1..], s', u);
    }
  }

  /** Two requests of one user for one job, neither of which found it unlocked. */
  ghost predicate Rivals(s: State, t: TxnId, o: TxnId) {
    && t != o && t in s.txns && o in s.txns
    && s.txns[t].phase.Checked? && s.txns[o].phase.Checked?
    && s.txns[t].user == s.txns[o].user && s.txns[t].job == s.txns[o].job && s.txns[t].bucket == s.txns[o].bucket
  }

  predicate RoomForTwo(a: Account) {
    a.evaluationLimit <= 0 || EvaluationsUsed(a) + 2 <= a.evaluationLimit
  }

  /** Both have committed a row for the job. */
  predicate BothPaid(x: Txn, unlocks: set<Unlock>, t: TxnId, o: TxnId) {
    Unlock(t, x.user, x.job, x.bucket) in unlocks && Unlock(o, x.user, x.job, x.bucket) in unlocks
  }

  lemma {:induction false} TwoMore(before: set<Unlock>, after: set<Unlock>, r: Unlock, q: Unlock)
    requires before <= after && r in after && q in after && r != q && r !in before && q !in before
    requires r.user == q.user && r.bucket == q.bucket
    ensures CountOf(after, r.user, r.bucket) >= CountOf(before, r.user, r.bucket) + 2
  {
    CountAdd(before, r, r.user, r.bucket);
    CountAdd(before + {r}, q, r.user, r.bucket);
    var few := set x | x in before + {r} + {q} && x.user == r.user && x.bucket == r.bucket;
    var all := set x | x in after && x.user == r.user && x.bucket == r.bucket;
    assert few <= all && all == few + (all - few);
  }

  /** Two paid rows need a key that does not bind and room for both. */
  lemma {:induction false} BothPaidNeeds(c: Settings, s: State, t: TxnId, o: TxnId, steps: seq<Step>, s': State)
    requires Inv(c, s) && UsersKnown(s) && Rivals(s, t, o)
    requires Reaches(c, s, steps, s') && BothPaid(s.txns[t], s'.unlocks, t, o)
    ensures s.txns[t].bucket == Billing(None) && RoomForTwo(s.accounts[s.txns[t].user])
  {
    var x := s.txns[t];
    ReachesInv(c, s, steps, s');
    ReachesGrows(c, s, steps, s', x.user);
    var r, q := Unlock(t, x.user, x.job, x.bucket), Unlock(o, x.user, x.job, x.bucket);
    assert TxnInv(c, s, t) && TxnInv(c, s, o) && AccountInv(c, s, x.user);
    assert !UniqueKey(x.bucket);
    TwoMore(s.unlocks, s'.unlocks, r, q);
    assert LimitKept(s'.accounts[x.user], s'.unlocks, x.user);
  }

  /** A request that has its row in and nobody's lock ahead of it pays and commits. */
  lemma {:induction false} PayAndCommit(c: Settings, s: State, t: TxnId) returns (s': State)
    requires UsersKnown(s) && t in s.txns && s.txns[t].phase.Inserted? && s.txns[t].bucket.Billing?
    requires forall o :: o in s.txns && s.txns[o].user == s.txns[t].user ==> !s.txns[o].phase.Spent?
    requires Charge(c, s.accounts[s.txns[t].user], s.txns[t].bucket).Some?
    ensures UsersKnown(s') && Reaches(c, s, [Spend(t), Finish(t, true)], s')
    ensures s'.txns == s.txns - {t} && s'.accounts.Keys == s.accounts.Keys
    ensures s'.unlocks == s.unlocks + {Unlock(t, s.txns[t].user, s.txns[t].job, s.txns[t].bucket)}
    ensures var u, end := s.txns[t].user, s.txns[t].bucket.end;
            s'.accounts[u] == s.accounts[u].(evaluationsEnd := end,
              evaluationsUsed := if s.accounts[u].evaluationsEnd != end then 1 else s.accounts[u].evaluationsUsed + 1)
  {
    var s1 := Apply(c, s, Spend(t));
    s' := Apply(c, s1, Finish(t, true));
    assert s'.txns == s.txns - {t};
    OneStep(c, s1, Finish(t, true));
    assert [Spend(t), Finish(t, true)][1..] == [Finish(t, true)];
  }

  /** With no lock in the way, both rows go in and both are paid. */
  lemma {:induction false} PayTwice(c: Settings, s: State, t: TxnId, o: TxnId) returns (steps: seq<Step>, s': State)
    requires UsersKnown(s) && Rivals(s, t, o) && s.txns[t].bucket == Billing(None)
    requires s.accounts[s.txns[t].user].period == None && RoomForTwo(s.accounts[s.txns[t].user])
    requires forall x :: x in s.txns && s.txns[x].user == s.txns[t].user ==> !s.txns[x].phase.Spent?
    ensures Reaches(c, s, steps, s') && BothPaid(s.txns[t], s'.unlocks, t, o)
  {
    var s1 := Apply(c, s, Insert(t));
    var s2 := Apply(c, s1, Insert(o));
    OneStep(c, s, Insert(t));
    OneStep(c, s1, Insert(o));
    ReachesMore(c, s, [Insert(t)], s1, [Insert(o)], s2);
    var s3 := PayAndCommit(c, s2, t);
    ReachesMore(c, s, [Insert(t)] + [Insert(o)], s2, [Spend(t), Finish(t, true)], s3);
    s' := PayAndCommit(c, s3, o);
    steps := [Insert(t)] + [Insert(o)] + [Spend(t), Finish(t, true)] + [Spend(o), Finish(o, true)];
    ReachesMore(c, s, [Insert(t)] + [Insert(o)] + [Spend(t), Finish(t, true)], s3, [Spend(o), Finish(o, true)], s');
  }

  /** Whoever holds the user's row lock can be out of the way: the request fails. */
  lemma {:induction false} BothCanPay(c: Settings, s: State, t: TxnId, o: TxnId) returns (steps: seq<Step>, s': State)
    requires Inv(c, s) && UsersKnown(s) && Rivals(s, t, o) && s.txns[t].bucket == Billing(None)
    requires RoomForTwo(s.accounts[s.txns[t].user])
    ensures Reaches(c, s, steps, s') && BothPaid(s.txns[t], s'.unlocks, t, o)
  {
    assert TxnInv(c, s, t);
    if h :| h in s.txns && s.txns[h].user == s.txns[t].user && s.txns[h].phase.Spent? {
      var s1 := Apply(c, s, Abort(h));
      OneStep(c, s, Abort(h));
      forall x | x in s1.txns && s1.txns[x].user == s.txns[t].user
        ensures !s1.txns[x].phase.Spent?
      {
        assert Apart(s.txns[x], s.txns[h]);
      }
      var rest;
      rest, s' := PayTwice(c, s1, t, o);
      steps := [Abort(h)] + rest;
      ReachesMore(c, s, [Abort(h)], s1, rest, s');
    } else {
      steps, s' := PayTwice(c, s, t, o);
    }
  }

  ghost predicate CanBothPay(c: Settings, s: State, t: TxnId, o: TxnId)
    requires t in s.txns
  {
    exists steps: seq<Step>, s': State :: Reaches(c, s, steps, s') && BothPaid(s.txns[t], s'.unlocks, t, o)
  }

  /** Two requests that both found one job locked can both end up paying for it exactly when the
      subscriber's period end is NULL, which no unique key covers, and the limit leaves room for
      two. Everyone else pays for a job once. */
  lemma {:induction false} TwicePaidIffNullPeriod(c: Settings, s: State, t: TxnId, o: TxnId)
    requires Inv(c, s) && UsersKnown(s) && Rivals(s, t, o)
    ensures CanBothPay(c, s, t, o) <==>
            s.txns[t].bucket == Billing(None) && RoomForTwo(s.accounts[s.txns[t].user])
  {
    if CanBothPay(c, s, t, o) {
      var steps: seq<Step>, s': State :| Reaches(c, s, steps, s') && BothPaid(s.txns[t], s'.unlocks, t, o);
      BothPaidNeeds(c, s, t, o, steps, s');
    } else if s.txns[t].bucket == Billing(None) && RoomForTwo(s.accounts[s.txns[t].user]) {
      var steps, s' := BothCanPay(c, s, t, o);
    }
  }

  /** Two such requests can be there: both asked before either had its row in. */
  lemma {:induction false} BothAsk(c: Settings, s: State, u: User, j: Job, t: TxnId, o: TxnId) returns (s': State)
    requires UsersKnown(s) && s.txns == map[] && u in s.accounts && t != o
    requires forall r :: r in s.unlocks ==> r.txn != t && r.txn != o
    requires HasActiveSubscription(c, s.accounts[u]) && !Unlocked(s.unlocks, u, j, Billing(s.accounts[u].period))
    ensures UsersKnown(s') && Reaches(c, s, [Begin(t, u, j)] + [Begin(o, u, j)], s')
    ensures s' == s.(txns := s'.txns) && s'.txns.Keys == {t, o} && Rivals(s', t, o)
    ensures s'.txns[t] == Txn(u, j, Subscription, Billing(s.accounts[u].period), Checked)
  {
    var s1 := Apply(c, s, Begin(t, u, j));
    s' := Apply(c, s1, Begin(o, u, j));
    OneStep(c, s, Begin(t, u, j));
    OneStep(c, s1, Begin(o, u, j));
    ReachesMore(c, s, [Begin(t, u, j)], s1, [Begin(o, u, j)], s');
  }

  /** And it happens: a subscriber whose first period end is NULL, with room for two evaluations,
      asks for job 5 twice, and a run from fresh meters ends with two rows for it. */
  lemma {:induction false} NullPeriodPaysTwice(c: Settings, limit: int)
    returns (states: seq<State>, steps: seq<Step>)
    requires c.systemKey && (limit <= 0 || limit >= 2)
    ensures Run(c, states, steps) && Fresh(states[0]) && states[0].accounts.Keys == {0}
    ensures states[0].accounts[0].period == None && states[0].accounts[0].evaluationLimit == limit
    ensures Unlock(1, 0, 5, Billing(None)) in states[|states| - 1].unlocks
    ensures Unlock(2, 0, 5, Billing(None)) in states[|states| - 1].unlocks
  {
    var s0 := State(map[0 := Account(true, false, None, limit, 0, 0, None)], {}, map[], map[0 := {None}]);
    var s2 := BothAsk(c, s0, 0, 5, 1, 2);
    var more, s' := PayTwice(c, s2, 1, 2);
    ReachesMore(c, s0, [Begin(1, 0, 5)] + [Begin(2, 0, 5)], s2, more, s');
    steps := [Begin(1, 0, 5)] + [Begin(2, 0, 5)] + more;
    states := ReachesIsRun(c, s0, steps, s');
  }
}
