/** app/services/billing.py: mirroring a customer's Stripe subscription onto their user row from
    webhooks. Every event re-fetches the subscription, so what it carries is Stripe's state now. */
module Billing {
  import opened Base

  type UserId = nat
  type Customer = nat
  type SubId = nat
  type Moment = int

  /** A subscription as Stripe returns it; `items` are its items' current_period_end. */
  datatype Sub = Sub(
    customer: Option<Customer>, status: string, items: seq<Option<Moment>>, periodEnd: Option<Moment>,
    cancelAtPeriodEnd: bool, cancelAt: Option<Moment>)

  /** The billing columns of a user. */
  datatype User = User(
    customer: Option<Customer>, subscription: Option<SubId>, status: Option<string>,
    periodEnd: Option<Moment>, cancels: bool)

  datatype Event =
    | Checkout(mode: string, reference: Option<UserId>, customer: Option<Customer>, subscription: Option<SubId>)
    | SubscriptionEvent(id: Option<SubId>)
    | OtherEvent

  predicate ActiveStatus(s: Option<string>) {
    s == Some("active") || s == Some("trialing")
  }

  predicate Truthy(m: Option<Moment>) {
    m.Some? && m.value != 0
  }

  function TruthyEnds(items: seq<Option<Moment>>): seq<Moment> {
    if items == [] then []
    else (if Truthy(items[0]) then [items[0].value] else []) + TruthyEnds(items[1..])
  }

  function MaxOf(ends: seq<Moment>): Moment
    requires ends != []
  {
    if |ends| == 1 then ends[0]
    else
      var m := MaxOf(ends[1..]);
      if ends[0] > m then ends[0] else m
  }

  /** _period_end */
  function PeriodEnd(s: Sub): Option<Moment> {
    var ends := TruthyEnds(s.items);
    if ends != [] then Some(MaxOf(ends))
    else if Truthy(s.periodEnd) then s.periodEnd
    else None
  }

  /** A user row that mirrors subscription `id` as it is in `s`. */
  function Mirror(u: User, id: SubId, s: Sub): User {
    u.(subscription := Some(id), status := Some(s.status), periodEnd := PeriodEnd(s),
       cancels := s.cancelAtPeriodEnd || Truthy(s.cancelAt))
  }

  /** A late event of an old subscription, which must not overwrite the active one. */
  predicate IsStaleEvent(u: User, id: SubId, s: Sub) {
    u.subscription.Some? && u.subscription != Some(id) && ActiveStatus(u.status) && !ActiveStatus(Some(s.status))
  }

  function Sync(u: User, id: SubId, s: Sub): User {
    if IsStaleEvent(u, id, s) then u else Mirror(u, id, s)
  }

  ghost predicate UniqueCustomers(users: map<UserId, User>) {
    forall a, b :: a in users && b in users && users[a].customer.Some? && users[a].customer == users[b].customer ==> a == b
  }

  /** sync_subscription: the user with the subscription's customer is synced, and nobody else is
      touched. */
  function SyncedUsers(users: map<UserId, User>, id: SubId, s: Sub): map<UserId, User> {
    map u | u in users ::
      if s.customer.Some? && users[u].customer == s.customer then Sync(users[u], id, s) else users[u]
  }

  predicate Links(users: map<UserId, User>, reference: Option<UserId>, customer: Option<Customer>) {
    reference.Some? && customer.Some? && reference.value in users
  }

  /** stripe_customer_id is unique: no other user may have the customer already. */
  predicate LinkAllowed(users: map<UserId, User>, reference: Option<UserId>, customer: Option<Customer>) {
    Links(users, reference, customer) ==> forall o :: o in users && o != reference.value ==> users[o].customer != customer
  }

  function Linked(users: map<UserId, User>, reference: Option<UserId>, customer: Option<Customer>): map<UserId, User> {
    if Links(users, reference, customer) then users[reference.value := users[reference.value].(customer := customer)]
    else users
  }

  /** Whether the event names a subscription Stripe still has. */
  predicate Fetches(id: Option<SubId>, stripe: map<SubId, Sub>) {
    id.Some? && id.value in stripe
  }

  /** What handle_event does to the users, given the subscriptions Stripe has now. */
  function Handled(users: map<UserId, User>, stripe: map<SubId, Sub>, e: Event): map<UserId, User> {
    match e
    case OtherEvent => users
    case SubscriptionEvent(id) => if Fetches(id, stripe) then SyncedUsers(users, id.value, stripe[id.value]) else users
    case Checkout(mode, reference, customer, id) =>
      if mode != "subscription" || !LinkAllowed(users, reference, customer) then users
      else
        var linked := Linked(users, reference, customer);
        if Fetches(id, stripe) then SyncedUsers(linked, id.value, stripe[id.value]) else linked
  }

  class Accounts {
    var users: map<UserId, User>

    constructor (users: map<UserId, User>)
      ensures this.users == users
    {
      this.users := users;
    }

    method SyncSubscription(id: SubId, s: Sub) returns (user: Option<UserId>)
      requires UniqueCustomers(users)
      modifies this
      ensures user.Some? ==> user.value in old(users) && s.customer.Some? && old(users)[user.value].customer == s.customer
      ensures user.None? ==> forall u :: u in users && s.customer.Some? ==> users[u].customer != s.customer
      ensures users == SyncedUsers(old(users), id, s)
      ensures UniqueCustomers(users)
    {
      if s.customer.None? {
        return None;
      }
      if u :| u in users && users[u].customer == s.customer {
        var row := users[u];
        var incomingActive := ActiveStatus(Some(s.status));
        if row.subscription.Some? && row.subscription != Some(id) && ActiveStatus(row.status) && !incomingActive {
          assert users == users[u := row];
          return Some(u);
        }
        row := row.(subscription := Some(id), status := Some(s.status));
        row := row.(periodEnd := PeriodEnd(s));
        row := row.(cancels := s.cancelAtPeriodEnd || Truthy(s.cancelAt));
        users := users[u := row];
        return Some(u);
      }
      return None;
    }

    /** The user a checkout names gets the customer that paid; refused when another user has it. */
    method LinkCheckoutCustomer(reference: Option<UserId>, customer: Option<Customer>) returns (ok: bool)
      requires UniqueCustomers(users)
      modifies this
      ensures UniqueCustomers(users)
      ensures ok == LinkAllowed(old(users), reference, customer)
      ensures users == if ok then Linked(old(users), reference, customer) else old(users)
    {
      if reference.None? || customer.None? || reference.value !in users {
        return true;
      }
      var u := reference.value;
      if users[u].customer == customer {
        assert users == users[u := users[u].(customer := customer)];
        return true;
      }
      if o :| o in users && o != u && users[o].customer == customer {
        return false;
      }
      users := users[u := users[u].(customer := customer)];
      return true;
    }

    /** A completed subscription checkout links the customer and then syncs its subscription; a
        subscription event syncs; anything else, and a checkout whose link is refused, does nothing. */
    method HandleEvent(e: Event, stripe: map<SubId, Sub>)
      requires UniqueCustomers(users)
      modifies this
      ensures UniqueCustomers(users)
      ensures users == Handled(old(users), stripe, e)
    {
      var id: Option<SubId> := None;
      match e {
        case Checkout(mode, reference, customer, subscription) =>
          if mode != "subscription" {
            return;
          }
          var ok := LinkCheckoutCustomer(reference, customer);
          if !ok {
            return;
          }
          id := subscription;
        case SubscriptionEvent(i) =>
          id := i;
        case OtherEvent =>
          return;
      }
      if id.None? || id.value !in stripe {
        return;
      }
      var synced := SyncSubscription(id.value, stripe[id.value]);
    }
  }

  // ---------------------------------------------------------------- the period end

  /** The latest end any item reports, falling back to the subscription's own; a missing one and a
      zero count as none. */
  lemma {:induction false} PeriodEndIsLatest(s: Sub)
    ensures forall i :: 0 <= i < |s.items| && s.items[i] !in {None, Some(0)} ==>
              PeriodEnd(s).Some? && s.items[i].value <= PeriodEnd(s).value
    ensures PeriodEnd(s).Some? ==>
              && PeriodEnd(s) != Some(0)
              && (PeriodEnd(s) in s.items
                  || (PeriodEnd(s) == s.periodEnd && forall i :: 0 <= i < |s.items| ==> s.items[i] in {None, Some(0)}))
    ensures PeriodEnd(s).None? <==>
              (forall i :: 0 <= i < |s.items| ==> s.items[i] in {None, Some(0)}) && s.periodEnd in {None, Some(0)}
  {
    EndsOf(s.items);
    if TruthyEnds(s.items) != [] {
      MaxIsMax(TruthyEnds(s.items));
    }
    forall m: Option<Moment>
      ensures Truthy(m) <==> m !in {None, Some(0)}
    {
    }
  }

  /** What a sync does to its user: nothing when another subscription of theirs is active or trialing
      and this one is neither, and otherwise the subscription's id, status and latest end, and
      whether it is set to end. The customer stays. */
  lemma {:induction false} SyncReads(u: User, id: SubId, s: Sub)
    ensures var u' := Sync(u, id, s);
            if u.subscription.Some? && u.subscription != Some(id)
               && u.status in {Some("active"), Some("trialing")} && s.status !in {"active", "trialing"}
            then u' == u
            else && u'.customer == u.customer && u'.subscription == Some(id) && u'.status == Some(s.status)
                 && u'.periodEnd == PeriodEnd(s)
                 && (u'.cancels <==> s.cancelAtPeriodEnd || s.cancelAt !in {None, Some(0)})
  {
    assert s.cancelAt !in {None, Some(0)} <==> Truthy(s.cancelAt);
  }

  lemma {:induction false} EndsOf(items: seq<Option<Moment>>)
    ensures forall i :: 0 <= i < |items| && Truthy(items[i]) ==> items[i].value in TruthyEnds(items)
    ensures forall m :: m in TruthyEnds(items) ==> Some(m) in items && m != 0
  {
    if items != [] {
      EndsOf(items[1..]);
      assert items == [items[0]] + items[1..];
    }
  }

  lemma {:induction false} MaxIsMax(ends: seq<Moment>)
    requires ends != []
    ensures MaxOf(ends) in ends && forall i :: 0 <= i < |ends| ==> ends[i] <= MaxOf(ends)
  {
    if |ends| > 1 {
      MaxIsMax(ends[1..]);
      assert ends == [ends[0]] + ends[1..];
    }
  }

  // ---------------------------------------------------------------- convergence

  /** The users, and Stripe's current state of every subscription. */
  datatype World = World(users: map<UserId, User>, stripe: map<SubId, Sub>)

  datatype Step = Changes(id: SubId, sub: Sub) | Webhook(event: Event)

  function Apply(w: World, e: Step): World {
    match e
    case Changes(id, sub) => w.(stripe := w.stripe[id := sub])
    case Webhook(event) => w.(users := Handled(w.users, w.stripe, event))
  }

  ghost predicate Run(worlds: seq<World>, steps: seq<Step>) {
    && |worlds| == |steps| + 1
    && forall i :: 0 <= i < |steps| ==> worlds[i + 1] == Apply(worlds[i], steps[i])
  }

  predicate IsActive(stripe: map<SubId, Sub>, id: SubId) {
    id in stripe && ActiveStatus(Some(stripe[id].status))
  }

  /** `a` is customer c's one active subscription. */
  ghost predicate OnlyActive(stripe: map<SubId, Sub>, c: Customer, a: SubId) {
    && IsActive(stripe, a) && stripe[a].customer == Some(c)
    && forall b :: IsActive(stripe, b) && stripe[b].customer == Some(c) ==> b == a
  }

  /** User k is the customer of `a` and has it as their active subscription. */
  predicate Follows(users: map<UserId, User>, k: UserId, c: Customer, a: SubId) {
    && k in users && users[k].customer == Some(c)
    && users[k].subscription == Some(a) && ActiveStatus(users[k].status)
  }

  /** A completed subscription checkout that names user k and another customer, whom no other user
      has: the branch of _link_checkout_customer that moves the user. */
  predicate MovesCustomer(users: map<UserId, User>, k: UserId, e: Event) {
    && e.Checkout? && e.mode == "subscription" && e.reference == Some(k) && k in users
    && e.customer.Some? && e.customer != users[k].customer
    && LinkAllowed(users, e.reference, e.customer)
  }

  predicate FetchedBy(e: Event, a: SubId) {
    match e
    case OtherEvent => false
    case SubscriptionEvent(id) => id == Some(a)
    case Checkout(mode, _, _, id) => mode == "subscription" && id == Some(a)
  }

  /** Linking keeps customers unique, and moves user k only in the one case. */
  lemma {:induction false} LinkedCustomer(users: map<UserId, User>, k: UserId, e: Event)
    requires UniqueCustomers(users) && k in users && e.Checkout? && LinkAllowed(users, e.reference, e.customer)
    ensures UniqueCustomers(Linked(users, e.reference, e.customer))
    ensures e.mode == "subscription" && !MovesCustomer(users, k, e) ==> Linked(users, e.reference, e.customer)[k] == users[k]
    ensures MovesCustomer(users, k, e) ==>
              Linked(users, e.reference, e.customer)[k] == users[k].(customer := e.customer)
  {
  }

  lemma {:induction false} SyncKeepsUnique(users: map<UserId, User>, id: SubId, s: Sub)
    requires UniqueCustomers(users)
    ensures UniqueCustomers(SyncedUsers(users, id, s)) && SyncedUsers(users, id, s).Keys == users.Keys
  {
    var synced := SyncedUsers(users, id, s);
    assert forall u :: u in users ==> synced[u].customer == users[u].customer;
  }

  lemma {:induction false} LinkKeepsUnique(users: map<UserId, User>, reference: Option<UserId>, customer: Option<Customer>)
    requires UniqueCustomers(users) && LinkAllowed(users, reference, customer)
    ensures UniqueCustomers(Linked(users, reference, customer)) && Linked(users, reference, customer).Keys == users.Keys
  {
  }

  lemma {:induction false} HandledKeepsUnique(users: map<UserId, User>, stripe: map<SubId, Sub>, e: Event)
    requires UniqueCustomers(users)
    ensures UniqueCustomers(Handled(users, stripe, e)) && Handled(users, stripe, e).Keys == users.Keys
  {
    if e.SubscriptionEvent? && Fetches(e.id, stripe) {
      SyncKeepsUnique(users, e.id.value, stripe[e.id.value]);
    } else if e.Checkout? && LinkAllowed(users, e.reference, e.customer) {
      LinkKeepsUnique(users, e.reference, e.customer);
      if Fetches(e.subscription, stripe) {
        SyncKeepsUnique(Linked(users, e.reference, e.customer), e.subscription.value, stripe[e.subscription.value]);
      }
    }
  }

  /** A subscription of the user's customer that is not active leaves a follower alone, and their
      own refreshes them. */
  lemma {:induction false} SyncOfFollower(
    users: map<UserId, User>, stripe: map<SubId, Sub>, k: UserId, c: Customer, a: SubId, id: SubId)
    requires Follows(users, k, c, a) && OnlyActive(stripe, c, a) && id in stripe
    ensures SyncedUsers(users, id, stripe[id])[k] == if id == a then Mirror(users[k], a, stripe[a]) else users[k]
  {
    if id != a && stripe[id].customer == Some(c) {
      assert !IsActive(stripe, id);
    }
  }

  /** One event: a follower goes on following exactly when the event does not move their customer,
      and then mirrors what the event fetched of their subscription. */
  lemma {:induction false} FollowsUnlessMoved(
    users: map<UserId, User>, stripe: map<SubId, Sub>, k: UserId, c: Customer, a: SubId, e: Event)
    requires UniqueCustomers(users) && Follows(users, k, c, a) && OnlyActive(stripe, c, a)
    ensures Follows(Handled(users, stripe, e), k, c, a) <==> !MovesCustomer(users, k, e)
    ensures !MovesCustomer(users, k, e) && LinkTaken(users, e) ==>
              Handled(users, stripe, e)[k] == if FetchedBy(e, a) then Mirror(users[k], a, stripe[a]) else users[k]
    ensures !LinkTaken(users, e) ==> Handled(users, stripe, e) == users
  {
    if e.SubscriptionEvent? && Fetches(e.id, stripe) {
      SyncOfFollower(users, stripe, k, c, a, e.id.value);
    } else if e.Checkout? && e.mode == "subscription" && LinkAllowed(users, e.reference, e.customer) {
      LinkedCustomer(users, k, e);
      if !MovesCustomer(users, k, e) && Fetches(e.subscription, stripe) {
        SyncOfFollower(Linked(users, e.reference, e.customer), stripe, k, c, a, e.subscription.value);
      }
    }
  }

  /** Not a subscription checkout refused for its customer. */
  predicate LinkTaken(users: map<UserId, User>, e: Event) {
    e.Checkout? && e.mode == "subscription" ==> LinkAllowed(users, e.reference, e.customer)
  }

  /** The step fetches `a` and gets to sync it. */
  predicate Refreshes(w: World, e: Step, a: SubId) {
    e.Webhook? && FetchedBy(e.event, a) && LinkTaken(w.users, e.event)
  }

  predicate Moves(w: World, e: Step, k: UserId) {
    e.Webhook? && MovesCustomer(w.users, k, e.event)
  }

  /** The same for one step of a run. */
  lemma {:induction false} StepFollows(w: World, e: Step, w': World, k: UserId, c: Customer, a: SubId)
    requires UniqueCustomers(w.users) && Follows(w.users, k, c, a) && OnlyActive(w.stripe, c, a) && w' == Apply(w, e)
    ensures Follows(w'.users, k, c, a) <==> !Moves(w, e, k)
    ensures !Moves(w, e, k) ==>
              w'.users[k] == if Refreshes(w, e, a) then Mirror(w.users[k], a, w.stripe[a]) else w.users[k]
  {
    if e.Webhook? {
      FollowsUnlessMoved(w.users, w.stripe, k, c, a, e.event);
    }
  }

  /** `a` as the last step before world j that refreshed it saw it, counting from step i. */
  ghost function LastFetched(worlds: seq<World>, steps: seq<Step>, c: Customer, a: SubId, i: nat, j: nat): Sub
    requires i < j <= |steps| && |worlds| == |steps| + 1 && forall n :: i <= n < j ==> OnlyActive(worlds[n].stripe, c, a)
  {
    assert OnlyActive(worlds[j - 1].stripe, c, a);
    if i + 1 == j || Refreshes(worlds[j - 1], steps[j - 1], a) then worlds[j - 1].stripe[a]
    else LastFetched(worlds, steps, c, a, i, j - 1)
  }

  lemma {:induction false} StepKeepsUnique(w: World, e: Step, w': World)
    requires UniqueCustomers(w.users) && w' == Apply(w, e)
    ensures UniqueCustomers(w'.users) && w'.users.Keys == w.users.Keys
  {
    if e.Webhook? {
      HandledKeepsUnique(w.users, w.stripe, e.event);
    }
  }

  lemma {:induction false} RunStep(worlds: seq<World>, steps: seq<Step>, n: nat)
    requires Run(worlds, steps) && n < |steps|
    ensures worlds[n + 1] == Apply(worlds[n], steps[n])
  {
  }

  lemma {:induction false} UniqueNext(worlds: seq<World>, steps: seq<Step>, n: nat)
    requires Run(worlds, steps) && n < |steps| && UniqueCustomers(worlds[n].users)
    ensures UniqueCustomers(worlds[n + 1].users) && worlds[n + 1].users.Keys == worlds[n].users.Keys
  {
    StepKeepsUnique(worlds[n], steps[n], worlds[n + 1]);
  }

  lemma {:induction false} RunKeepsUnique(worlds: seq<World>, steps: seq<Step>, i: nat, j: nat)
    requires Run(worlds, steps) && i <= j < |worlds| && UniqueCustomers(worlds[i].users)
    ensures UniqueCustomers(worlds[j].users) && worlds[j].users.Keys == worlds[i].users.Keys
  {
    if i < j {
      RunKeepsUnique(worlds, steps, i, j - 1);
      UniqueNext(worlds, steps, j - 1);
    }
  }

  /** The event that first brings the user to their active subscription. */
  lemma {:induction false} FirstSync(w: World, k: UserId, c: Customer, a: SubId, e: Step)
    requires UniqueCustomers(w.users) && k in w.users && w.users[k].customer == Some(c) && OnlyActive(w.stripe, c, a)
    requires Refreshes(w, e, a) && !Moves(w, e, k)
    ensures Follows(Apply(w, e).users, k, c, a) && Apply(w, e).users[k] == Mirror(w.users[k], a, w.stripe[a])
  {
    if e.event.Checkout? {
      LinkedCustomer(w.users, k, e.event);
    }
  }

  lemma {:induction false} FirstFetched(worlds: seq<World>, steps: seq<Step>, k: UserId, c: Customer, a: SubId, i: nat)
    requires Run(worlds, steps) && i < |steps| && UniqueCustomers(worlds[i].users) && OnlyActive(worlds[i].stripe, c, a)
    requires k in worlds[i].users && worlds[i].users[k].customer == Some(c)
    requires Refreshes(worlds[i], steps[i], a) && !Moves(worlds[i], steps[i], k)
    ensures Follows(worlds[i + 1].users, k, c, a)
    ensures worlds[i + 1].users[k] == Mirror(worlds[i].users[k], a, worlds[i].stripe[a])
  {
    RunStep(worlds, steps, i);
    FirstSync(worlds[i], k, c, a, steps[i]);
  }

  lemma {:induction false} StillConverged(
    worlds: seq<World>, steps: seq<Step>, k: UserId, c: Customer, a: SubId, i: nat, j: nat, u: User, last: Sub)
    requires Run(worlds, steps) && i < j <= |steps| && UniqueCustomers(worlds[i].users)
    requires OnlyActive(worlds[j - 1].stripe, c, a) && !Moves(worlds[j - 1], steps[j - 1], k)
    requires Follows(worlds[j - 1].users, k, c, a) && worlds[j - 1].users[k] == Mirror(u, a, last)
    ensures Follows(worlds[j].users, k, c, a)
    ensures worlds[j].users[k] ==
            Mirror(u, a, if Refreshes(worlds[j - 1], steps[j - 1], a) then worlds[j - 1].stripe[a] else last)
  {
    RunKeepsUnique(worlds, steps, i, j - 1);
    NextFetched(worlds, steps, k, c, a, j);
  }

  lemma {:induction false} LastFetchedStep(worlds: seq<World>, steps: seq<Step>, c: Customer, a: SubId, i: nat, j: nat)
    requires i + 1 < j <= |steps| && |worlds| == |steps| + 1 && forall n :: i <= n < j ==> OnlyActive(worlds[n].stripe, c, a)
    ensures a in worlds[j - 1].stripe
    ensures LastFetched(worlds, steps, c, a, i, j) ==
            if Refreshes(worlds[j - 1], steps[j - 1], a) then worlds[j - 1].stripe[a] else LastFetched(worlds, steps, c, a, i, j - 1)
  {
    assert OnlyActive(worlds[j - 1].stripe, c, a);
  }

  lemma {:induction false} NextFetched(worlds: seq<World>, steps: seq<Step>, k: UserId, c: Customer, a: SubId, j: nat)
    requires Run(worlds, steps) && 0 < j <= |steps| && UniqueCustomers(worlds[j - 1].users)
    requires Follows(worlds[j - 1].users, k, c, a) && OnlyActive(worlds[j - 1].stripe, c, a)
    requires !Moves(worlds[j - 1], steps[j - 1], k)
    ensures Follows(worlds[j].users, k, c, a)
    ensures worlds[j].users[k] == if Refreshes(worlds[j - 1], steps[j - 1], a)
                                  then Mirror(worlds[j - 1].users[k], a, worlds[j - 1].stripe[a]) else worlds[j - 1].users[k]
  {
    RunStep(worlds, steps, j - 1);
    StepFollows(worlds[j - 1], steps[j - 1], worlds[j], k, c, a);
  }

  /** Main result. Once an event has synced user k's one active subscription, later events of any
      kind, about any user, in any order and repeated, leave k mirroring what was last fetched of
      it, for as long as it alone is active and no checkout moves k to another customer. */
  lemma {:induction false} WebhooksConverge(
    worlds: seq<World>, steps: seq<Step>, k: UserId, c: Customer, a: SubId, i: nat, j: nat)
    requires Run(worlds, steps) && i < j <= |steps| && UniqueCustomers(worlds[i].users)
    requires k in worlds[i].users && worlds[i].users[k].customer == Some(c) && Refreshes(worlds[i], steps[i], a)
    requires forall n :: i <= n < j ==> OnlyActive(worlds[n].stripe, c, a)
    requires forall n :: i <= n < j ==> !Moves(worlds[n], steps[n], k)
    ensures Follows(worlds[j].users, k, c, a)
    ensures worlds[j].users[k] == Mirror(worlds[i].users[k], a, LastFetched(worlds, steps, c, a, i, j))
  {
    if i + 1 == j {
      FirstFetched(worlds, steps, k, c, a, i);
    } else {
      WebhooksConverge(worlds, steps, k, c, a, i, j - 1);
      LastFetchedStep(worlds, steps, c, a, i, j);
      StillConverged(worlds, steps, k, c, a, i, j, worlds[i].users[k], LastFetched(worlds, steps, c, a, i, j - 1));
    }
  }

  /** And exactly then: the user follows their active subscription all along if and only if no
      checkout on the way moves them to another customer. */
  lemma {:induction false} FollowsIffNeverMoved(
    worlds: seq<World>, steps: seq<Step>, k: UserId, c: Customer, a: SubId, i: nat, j: nat)
    requires Run(worlds, steps) && i <= j <= |steps| && UniqueCustomers(worlds[i].users)
    requires Follows(worlds[i].users, k, c, a) && forall n :: i <= n < j ==> OnlyActive(worlds[n].stripe, c, a)
    ensures (forall n :: i <= n <= j ==> Follows(worlds[n].users, k, c, a)) <==>
            (forall n :: i <= n < j ==> !Moves(worlds[n], steps[n], k))
  {
    if i < j {
      FollowsIffNeverMoved(worlds, steps, k, c, a, i, j - 1);
      FollowedSoFar(worlds, steps, k, c, a, i, j - 1);
    }
  }

  lemma {:induction false} FollowedSoFar(
    worlds: seq<World>, steps: seq<Step>, k: UserId, c: Customer, a: SubId, i: nat, n: nat)
    requires Run(worlds, steps) && i <= n < |steps| && UniqueCustomers(worlds[i].users) && OnlyActive(worlds[n].stripe, c, a)
    ensures Follows(worlds[n].users, k, c, a) ==>
              (Follows(worlds[n + 1].users, k, c, a) <==> !Moves(worlds[n], steps[n], k))
  {
    RunKeepsUnique(worlds, steps, i, n);
    RunStep(worlds, steps, n);
    if Follows(worlds[n].users, k, c, a) {
      StepFollows(worlds[n], steps[n], worlds[n + 1], k, c, a);
    }
  }

  /** A user who has another customer than a subscription's does not see its changes. */
  lemma {:induction false} MovedSeesNothing(users: map<UserId, User>, stripe: map<SubId, Sub>, k: UserId, a: SubId)
    requires k in users && a in stripe && stripe[a].customer.Some? && users[k].customer != stripe[a].customer
    ensures Handled(users, stripe, SubscriptionEvent(Some(a)))[k] == users[k]
  {
  }

  /** A paid-up user mirroring subscription 10, and a checkout that names them with customer 2 and a
      canceled subscription: 10 stays their subscription, but its renewal no longer reaches them. */
  lemma {:induction false} CheckoutLosesRenewals(renewed: Moment)
    requires renewed != 0 && renewed != 100
    ensures
      var active := Sub(Some(1), "active", [], Some(100), false, None);
      var old20 := Sub(Some(2), "canceled", [], None, false, None);
      var users := map[7 := User(Some(1), Some(10), Some("active"), Some(100), false)];
      var e := Checkout("subscription", Some(7), Some(2), Some(20));
      var stripe := map[10 := active, 20 := old20];
      var moved := Handled(users, stripe, e);
      var later := stripe[10 := active.(periodEnd := Some(renewed))];
      && UniqueCustomers(users) && Follows(users, 7, 1, 10) && OnlyActive(stripe, 1, 10) && OnlyActive(later, 1, 10)
      && MovesCustomer(users, 7, e)
      && moved[7].subscription == Some(10) && moved[7].customer == Some(2)
      && Handled(moved, later, SubscriptionEvent(Some(10)))[7] != Mirror(moved[7], 10, later[10])
  {
    var active := Sub(Some(1), "active", [], Some(100), false, None);
    var old20 := Sub(Some(2), "canceled", [], None, false, None);
    assert ActiveStatus(Some(active.status)) && !ActiveStatus(Some(old20.status));
    var stripe := map[10 := active, 20 := old20];
    var later := stripe[10 := active.(periodEnd := Some(renewed))];
    assert forall b :: IsActive(stripe, b) || IsActive(later, b) ==> b == 10;
  }

  /** While a user follows an active subscription, another one's event takes them off it exactly
      when that other one is active too. */
  lemma {:induction false} OnlyActiveEventsTakeOver(u: User, a: SubId, b: SubId, s: Sub)
    requires u.subscription == Some(a) && u.status in {Some("active"), Some("trialing")} && a != b
    ensures Sync(u, b, s) == u <==> s.status !in {"active", "trialing"}
    ensures s.status in {"active", "trialing"} ==> Sync(u, b, s).subscription == Some(b)
  {
  }

  /** With two active at once the mirror goes with whichever event comes last. */
  lemma {:induction false} TwoActiveFlap(u: User, a: SubId, b: SubId, sa: Sub, sb: Sub)
    requires a != b && ActiveStatus(Some(sa.status)) && ActiveStatus(Some(sb.status))
    ensures Sync(Sync(u, a, sa), b, sb).subscription == Some(b)
    ensures Sync(Sync(u, b, sb), a, sa).subscription == Some(a)
  {
  }

  /** Stripe repeats deliveries: handling any event again, a checkout included, changes nothing on
      the whole table. */
  lemma {:induction false} ReplayChangesNothing(users: map<UserId, User>, stripe: map<SubId, Sub>, e: Event)
    requires UniqueCustomers(users)
    ensures Handled(Handled(users, stripe, e), stripe, e) == Handled(users, stripe, e)
  {
    var once := Handled(users, stripe, e);
    if e.Checkout? && e.mode == "subscription" && LinkAllowed(users, e.reference, e.customer) {
      assert once.Keys == users.Keys;
      assert LinkAllowed(once, e.reference, e.customer);
      assert Linked(once, e.reference, e.customer) == once;
    }
  }
}
