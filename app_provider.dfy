/** `processPayment` of the application state provider: look the package up, ask the gateway
    to start the charge, store a pending payment, poll the gateway a bounded number of times,
    then either grant the subscription or mark the payment failed.

    Every call to the outside is an input: the initiate route's answer (or the exception its
    fetch raised), the row the store returns for the pending payment, one gateway answer per
    poll attempt, and the subscription row the store returns. The writes issued to the store
    are returned as a log. `Process` states the whole run as a value; `Provider.ProcessPayment`
    is the step-by-step version with the polling loop, proved to perform exactly that run. */
module AppProvider {
  import opened Js
  import opened AppState

  /** `maxAttempts`: the poll loop makes at most this many gateway requests. */
  const MaxAttempts: nat := 10

  const PendingStatus := "PENDING"
  const SuccessfulStatus := "SUCCESSFUL"

  const PackageNotFound := "Package not found"
  const InitiateFallback := "Failed to initiate payment with MoMo."
  const PendingInsertFailed := "Failed to create pending payment record in database."
  const SubscriptionFailed := "Failed to create subscription after successful payment."
  const FailedOrTimedOut := "Payment failed or timed out. Please try again."

  /** `packages.find(pkg => pkg.id === id)`: the first package with that id, if any. */
  function FindPackage(pkgs: seq<Package>, id: int): (r: Option<Package>)
    ensures r.None? <==> forall i :: 0 <= i < |pkgs| ==> pkgs[i].id != id
    ensures r.Some? ==> exists i :: 0 <= i < |pkgs| && pkgs[i] == r.value && r.value.id == id
                          && forall j :: 0 <= j < i ==> pkgs[j].id != id
  {
    if pkgs == [] then None
    else if pkgs[0].id == id then Some(pkgs[0])
    else
      var rest := FindPackage(pkgs[1..], id);
      assert rest.Some? ==> exists i :: 1 <= i < |pkgs| && pkgs[i] == rest.value && forall j :: 0 <= j < i ==> pkgs[j].id != id by {
        if rest.Some? {
          var k :| 0 <= k < |pkgs[1..]| && pkgs[1..][k] == rest.value && rest.value.id == id
                   && forall j :: 0 <= j < k ==> pkgs[1..][j].id != id;
          assert pkgs[k + 1] == rest.value;
        }
      }
      rest
  }

  /** What the initiate route answered (`response.ok` and its JSON body), or the message of
      the exception raised by `fetch` or `json()`. */
  datatype InitiateAnswer =
    | Initiated(ok: bool, success: bool, referenceId: string, message: Option<string>)
    | InitiateThrew(error: string)

  /** What the payment-status route answered for one poll, or the message of the exception
      raised while asking. */
  datatype PollAnswer =
    | Polled(ok: bool, success: bool, status: string)
    | PollThrew(error: string)

  /** The outside world for one run. `polls[k]` answers the (k+1)-th poll attempt. */
  datatype Env = Env(
    initiate: InitiateAnswer,
    inserted: Option<Payment>,
    polls: seq<PollAnswer>,
    created: Option<Subscription>)

  /** A write issued to the backing store. */
  datatype StoreCall =
    | CreatePayment(userId: string, subscriptionId: Option<int>, amount: int, paymentMethod: string, reference: string, status: string)
    | CreateSubscription(userId: string, packageId: int, paymentMethod: string, reference: string)
    | UpdatePaymentStatus(paymentId: int, status: string)
    | UpdatePaymentSubscription(paymentId: int, linkedSubscriptionId: int)

  /** How the poll loop ended: with a status after some attempts, or by an exception. */
  datatype PollEnd = Settled(status: string, attempts: nat) | Aborted(error: string, attempts: nat)

  /** The poll loop from attempt `k` on, with `status` the status seen so far. A failed answer
      (`!ok || !success`) leaves the status as it was. */
  function PollFrom(polls: seq<PollAnswer>, k: nat, status: string): PollEnd
    requires k <= MaxAttempts <= |polls|
    decreases MaxAttempts - k
  {
    if status != PendingStatus || k == MaxAttempts then Settled(status, k)
    else match polls[k]
      case PollThrew(e) => Aborted(e, k + 1)
      case Polled(ok, success, st) => PollFrom(polls, k + 1, if ok && success then st else status)
  }

  /** The statuses of the successful poll answers from attempt `k` on, each of which the loop
      writes, lower-cased, into the local payment. */
  function PolledStatuses(polls: seq<PollAnswer>, k: nat, status: string): seq<string>
    requires k <= MaxAttempts <= |polls|
    decreases MaxAttempts - k
  {
    if status != PendingStatus || k == MaxAttempts then []
    else match polls[k]
      case PollThrew(_) => []
      case Polled(ok, success, st) =>
        if ok && success then [st] + PolledStatuses(polls, k + 1, st)
        else PolledStatuses(polls, k + 1, status)
  }

  /** One UPDATE_PAYMENT per polled status, in order, setting the status lower-cased. */
  function StatusUpdates(id: int, statuses: seq<string>): (r: seq<Action>)
    ensures |r| == |statuses|
    ensures forall i :: 0 <= i < |r| ==> r[i] == UpdatePayment(id, StatusPatch(ToLower(statuses[i])))
  {
    seq(|statuses|, i requires 0 <= i < |statuses| => UpdatePayment(id, StatusPatch(ToLower(statuses[i]))))
  }

  /** The updates written once the subscription exists. */
  function CompletedPatch(subscriptionId: int, packageName: string): PaymentPatch {
    PaymentPatch(None, None, None, None, Some("completed"), None, None, None,
                 Some(subscriptionId), Some(PaymentSubscription(Some(packageName))))
  }

  /** One run of the workflow: its result, the actions it dispatches, the store writes it issues. */
  datatype Run = Run(ok: bool, actions: seq<Action>, calls: seq<StoreCall>)

  /** `processPayment(packageId, paymentMethod, phoneNumber)` against the state `s` it was
      called with, for the signed-in `user` (its id), in the outside world `env`. */
  function Process(s: State, user: Option<string>, packageId: int, paymentMethod: string, env: Env): (r: Run)
    requires MaxAttempts <= |env.polls|
    ensures r.calls != [] ==> r.calls[0].CreatePayment? && r.calls[0].status == "pending"
    ensures r.ok ==> r.actions != [] && r.actions[0].AddPayment?
  {
    if user.None? then Run(false, [], [])
    else match FindPackage(s.user.packages, packageId)
      case None => Run(false, [SetError(Some(PackageNotFound))], [])
      case Some(pkg) => Charge(user.value, pkg, packageId, paymentMethod, env)
  }

  /** The run from the request to the gateway on, once the package `pkg` is known. */
  function Charge(userId: string, pkg: Package, packageId: int, paymentMethod: string, env: Env): Run
    requires MaxAttempts <= |env.polls|
  {
    match env.initiate
    case InitiateThrew(e) => Run(false, [SetError(Some(e))], [])
    case Initiated(ok, success, referenceId, message) =>
      if !ok || !success then Run(false, [SetError(Some(OrElse(message, InitiateFallback)))], [])
      else
        var insert := CreatePayment(userId, None, pkg.price, paymentMethod, referenceId, "pending");
        match env.inserted
        case None => Run(false, [SetError(Some(PendingInsertFailed))], [insert])
        case Some(p) =>
          var rest := Settle(userId, pkg, packageId, paymentMethod, referenceId, p, env);
          Run(rest.ok, [AddPayment(p)] + rest.actions, [insert] + rest.calls)
  }

  /** The run from the first poll on, once the pending payment `p` is stored and shown. */
  function Settle(userId: string, pkg: Package, packageId: int, paymentMethod: string, referenceId: string,
                  p: Payment, env: Env): Run
    requires MaxAttempts <= |env.polls|
  {
    var polled := StatusUpdates(p.id, PolledStatuses(env.polls, 0, PendingStatus));
    match PollFrom(env.polls, 0, PendingStatus)
    case Aborted(e, _) => Run(false, polled + [SetError(Some(e))], [])
    case Settled(status, _) =>
      if status == SuccessfulStatus then
        var create := CreateSubscription(userId, packageId, paymentMethod, referenceId);
        match env.created
        case None =>
          Run(false, polled + [UpdatePayment(p.id, StatusPatch("failed")), SetError(Some(SubscriptionFailed))],
              [create, UpdatePaymentStatus(p.id, "failed")])
        case Some(sub) =>
          Run(true, polled + [UpdatePayment(p.id, CompletedPatch(sub.id, pkg.name)), SetSubscription(Some(sub)), SetError(None)],
              [create, UpdatePaymentStatus(p.id, "completed"), UpdatePaymentSubscription(p.id, sub.id)])
      else
        Run(false, polled + [UpdatePayment(p.id, StatusPatch("failed")), SetError(Some(FailedOrTimedOut))],
            [UpdatePaymentStatus(p.id, "failed")])
  }

  // ---------------------------------------------------------------------------------------
  // The poll loop

  /** An answer that ends the loop: an exception, or a successful answer whose status is not PENDING. */
  predicate Decisive(a: PollAnswer) {
    a.PollThrew? || (a.ok && a.success && a.status != PendingStatus)
  }

  /** The loop never makes more than `MaxAttempts` attempts, and writes at most one status per attempt. */
  lemma {:induction false} PollBounded(polls: seq<PollAnswer>, k: nat, status: string)
    requires k <= MaxAttempts <= |polls|
    ensures k <= PollFrom(polls, k, status).attempts <= MaxAttempts
    ensures |PolledStatuses(polls, k, status)| <= PollFrom(polls, k, status).attempts - k
    decreases MaxAttempts - k
  {
    if status == PendingStatus && k < MaxAttempts && polls[k].Polled? {
      var a := polls[k];
      PollBounded(polls, k + 1, if a.ok && a.success then a.status else status);
    }
  }

  /** The loop stops at the first decisive answer: that answer's status (or exception) is the
      outcome, and the attempt count is its position. */
  lemma {:induction false} PollStopsAtFirstDecisive(polls: seq<PollAnswer>, k: nat, j: nat)
    requires k <= j < MaxAttempts <= |polls|
    requires Decisive(polls[j])
    requires forall i :: k <= i < j ==> !Decisive(polls[i])
    ensures PollFrom(polls, k, PendingStatus) ==
      if polls[j].PollThrew? then Aborted(polls[j].error, j + 1) else Settled(polls[j].status, j + 1)
    decreases j - k
  {
    if k < j {
      assert !Decisive(polls[k]);
      PollStopsAtFirstDecisive(polls, k + 1, j);
    }
  }

  /** Without a decisive answer the loop makes all `MaxAttempts` attempts and ends still PENDING. */
  lemma {:induction false} PollTimesOut(polls: seq<PollAnswer>, k: nat)
    requires k <= MaxAttempts <= |polls|
    requires forall i :: k <= i < MaxAttempts ==> !Decisive(polls[i])
    ensures PollFrom(polls, k, PendingStatus) == Settled(PendingStatus, MaxAttempts)
    decreases MaxAttempts - k
  {
    if k < MaxAttempts {
      assert !Decisive(polls[k]);
      PollTimesOut(polls, k + 1);
    }
  }

  /** Conversely, every outcome of the loop is one of the two above: it ended at a decisive
      answer after only undecisive ones, or it used up its attempts on undecisive ones. */
  lemma {:induction false} PollOutcomeExplained(polls: seq<PollAnswer>, k: nat)
    requires k <= MaxAttempts <= |polls|
    ensures var e := PollFrom(polls, k, PendingStatus);
      && k <= e.attempts <= MaxAttempts
      && (forall i :: k <= i < e.attempts - 1 ==> !Decisive(polls[i]))
      && (e.Aborted? ==> e.attempts > k && polls[e.attempts - 1] == PollThrew(e.error))
      && (e.Settled? && e.status != PendingStatus ==>
            e.attempts > k && polls[e.attempts - 1] == Polled(true, true, e.status))
      && (e.Settled? && e.status == PendingStatus ==>
            e.attempts == MaxAttempts && (k < MaxAttempts ==> !Decisive(polls[MaxAttempts - 1])))
    decreases MaxAttempts - k
  {
    if k < MaxAttempts && polls[k].Polled? {
      var a := polls[k];
      if a.ok && a.success && a.status != PendingStatus {
        assert PollFrom(polls, k + 1, a.status) == Settled(a.status, k + 1);
      } else {
        PollOutcomeExplained(polls, k + 1);
      }
    }
  }

  /** While the loop goes on, every status it writes is the lower-cased PENDING: any other
      status ends it, so only the last status written can differ. */
  lemma {:induction false} PolledStatusesPending(polls: seq<PollAnswer>, k: nat)
    requires k <= MaxAttempts <= |polls|
    ensures var d := PolledStatuses(polls, k, PendingStatus);
      forall i :: 0 <= i < |d| - 1 ==> d[i] == PendingStatus
    ensures var e := PollFrom(polls, k, PendingStatus);
      e.Aborted? || e.status == PendingStatus ==>
        var d := PolledStatuses(polls, k, PendingStatus);
        forall i :: 0 <= i < |d| ==> d[i] == PendingStatus
    decreases MaxAttempts - k
  {
    if k < MaxAttempts && polls[k].Polled? {
      var a := polls[k];
      PollStep(polls, k);
      if !(a.ok && a.success && a.status != PendingStatus) {
        var d := PolledStatuses(polls, k, PendingStatus);
        var rest := PolledStatuses(polls, k + 1, PendingStatus);
        PolledStatusesPending(polls, k + 1);
        if a.ok && a.success {
          forall i | 1 <= i < |d|
            ensures d[i] == rest[i - 1]
          {
          }
        }
      }
    }
  }

  /** When the loop settles on a status other than PENDING, that status, lower-cased, is the
      last one written into the local payment. */
  lemma {:induction false} PolledStatusesLast(polls: seq<PollAnswer>, k: nat)
    requires k <= MaxAttempts <= |polls|
    ensures var e := PollFrom(polls, k, PendingStatus);
      e.Settled? && e.status != PendingStatus ==>
        var d := PolledStatuses(polls, k, PendingStatus);
        d != [] && d[|d| - 1] == e.status
    decreases MaxAttempts - k
  {
    if k < MaxAttempts && polls[k].Polled? {
      var a := polls[k];
      PollStep(polls, k);
      if a.ok && a.success && a.status != PendingStatus {
        assert PolledStatuses(polls, k + 1, a.status) == [];
        assert PollFrom(polls, k + 1, a.status) == Settled(a.status, k + 1);
      } else {
        PolledStatusesLast(polls, k + 1);
      }
    }
  }

  // ---------------------------------------------------------------------------------------
  // The run as a whole

  /** The run gets as far as storing a pending payment: signed in, package known, charge accepted. */
  predicate ChargeAccepted(s: State, user: Option<string>, packageId: int, env: Env) {
    && user.Some?
    && FindPackage(s.user.packages, packageId).Some?
    && env.initiate.Initiated? && env.initiate.ok && env.initiate.success
  }

  /** The exits before any payment is stored: no user (nothing dispatched), unknown package,
      a refused or failed initiate (an error is set, no payment is added, nothing is written),
      and a failed insert of the pending row (an error is set before any polling). */
  lemma EarlyExits(s: State, user: Option<string>, packageId: int, paymentMethod: string, env: Env)
    requires MaxAttempts <= |env.polls|
    ensures user.None? ==> Process(s, user, packageId, paymentMethod, env) == Run(false, [], [])
    ensures user.Some? && FindPackage(s.user.packages, packageId).None? ==>
      Process(s, user, packageId, paymentMethod, env) == Run(false, [SetError(Some(PackageNotFound))], [])
    ensures user.Some? && FindPackage(s.user.packages, packageId).Some? && !ChargeAccepted(s, user, packageId, env) ==>
      var r := Process(s, user, packageId, paymentMethod, env);
      && !r.ok && r.calls == [] && |r.actions| == 1 && r.actions[0].SetError? && r.actions[0].error.Some?
      && Replay(s, r.actions).user == s.user
    ensures user.Some? && FindPackage(s.user.packages, packageId).Some? && env.initiate.InitiateThrew? ==>
      Process(s, user, packageId, paymentMethod, env).actions == [SetError(Some(env.initiate.error))]
    ensures user.Some? && FindPackage(s.user.packages, packageId).Some? && env.initiate.Initiated?
            && !(env.initiate.ok && env.initiate.success) ==>
      Process(s, user, packageId, paymentMethod, env).actions == [SetError(Some(OrElse(env.initiate.message, InitiateFallback)))]
    ensures ChargeAccepted(s, user, packageId, env) && env.inserted.None? ==>
      var r := Process(s, user, packageId, paymentMethod, env);
      && !r.ok && r.actions == [SetError(Some(PendingInsertFailed))]
      && |r.calls| == 1 && r.calls[0].CreatePayment? && r.calls[0].status == "pending"
  {
    var r := Process(s, user, packageId, paymentMethod, env);
    if user.Some? && FindPackage(s.user.packages, packageId).Some? && !ChargeAccepted(s, user, packageId, env) {
      assert r.actions == [r.actions[0]];
      assert r.actions[..0] == [];
    }
  }

  /** The run succeeds exactly when the charge was accepted, the pending row was stored, the
      poll loop settled on SUCCESSFUL and the store created the subscription. */
  lemma SucceedsIff(s: State, user: Option<string>, packageId: int, paymentMethod: string, env: Env)
    requires MaxAttempts <= |env.polls|
    ensures Process(s, user, packageId, paymentMethod, env).ok <==>
      && ChargeAccepted(s, user, packageId, env)
      && env.inserted.Some?
      && PollFrom(env.polls, 0, PendingStatus) == Settled(SuccessfulStatus, PollFrom(env.polls, 0, PendingStatus).attempts)
      && env.created.Some?
  {
  }

  /** The statuses written to the store for payment `id`, in order. */
  function StatusWrites(calls: seq<StoreCall>, id: int): (r: seq<string>)
    ensures |r| <= |calls|
    ensures (forall i :: 0 <= i < |calls| ==> !(calls[i].UpdatePaymentStatus? && calls[i].paymentId == id)) ==> r == []
  {
    if calls == [] then []
    else (if calls[0].UpdatePaymentStatus? && calls[0].paymentId == id then [calls[0].status] else [])
         + StatusWrites(calls[1..], id)
  }

  /** The status writes of two logs in turn are those of the first, then those of the second. */
  lemma {:induction false} StatusWritesAppend(a: seq<StoreCall>, b: seq<StoreCall>, id: int)
    ensures StatusWrites(a + b, id) == StatusWrites(a, id) + StatusWrites(b, id)
  {
    if a == [] {
      assert a + b == b;
    } else {
      var head := if a[0].UpdatePaymentStatus? && a[0].paymentId == id then [a[0].status] else [];
      assert (a + b)[0] == a[0] && (a + b)[1..] == a[1..] + b;
      calc {
        StatusWrites(a + b, id);
        head + StatusWrites(a[1..] + b, id);
        { StatusWritesAppend(a[1..], b, id); }
        head + (StatusWrites(a[1..], id) + StatusWrites(b, id));
        (head + StatusWrites(a[1..], id)) + StatusWrites(b, id);
        StatusWrites(a, id) + StatusWrites(b, id);
      }
    }
  }

  /** From the first poll on: exactly one terminal status is written to the store once the
      loop settles, none when a poll raised an exception, and a subscription is requested
      exactly when the gateway said SUCCESSFUL, for this user, package, method and gateway
      reference; the payment is linked to the new subscription exactly when the run succeeds. */
  lemma SettleStoreWrites(userId: string, pkg: Package, packageId: int, paymentMethod: string,
                          referenceId: string, p: Payment, env: Env)
    requires MaxAttempts <= |env.polls|
    ensures var r := Settle(userId, pkg, packageId, paymentMethod, referenceId, p, env);
      var e := PollFrom(env.polls, 0, PendingStatus);
      && (e.Settled? ==> StatusWrites(r.calls, p.id) == [if r.ok then "completed" else "failed"])
      && (e.Aborted? ==> r.calls == [])
      && ((exists i :: 0 <= i < |r.calls| && r.calls[i].CreateSubscription?) <==> e == Settled(SuccessfulStatus, e.attempts))
      && (e == Settled(SuccessfulStatus, e.attempts) ==>
            r.calls[0] == CreateSubscription(userId, packageId, paymentMethod, referenceId))
      && (r.ok ==> UpdatePaymentSubscription(p.id, env.created.value.id) in r.calls)
      && ((exists i :: 0 <= i < |r.calls| && r.calls[i].UpdatePaymentSubscription?) <==> r.ok)
  {
    var c := Settle(userId, pkg, packageId, paymentMethod, referenceId, p, env).calls;
    var e := PollFrom(env.polls, 0, PendingStatus);
    if e.Settled? && e.status == SuccessfulStatus {
      if env.created.Some? {
        assert StatusWrites(c[3..], p.id) == [];
        assert StatusWrites(c[2..], p.id) == [];
        assert StatusWrites(c[1..], p.id) == ["completed"];
      } else {
        assert StatusWrites(c[2..], p.id) == [];
        assert StatusWrites(c[1..], p.id) == ["failed"];
      }
    } else if e.Settled? {
      assert StatusWrites(c[1..], p.id) == [];
    }
  }

  /** The first store write is the pending row: this user, no subscription yet, the package's
      price, the chosen method and the gateway's reference. Once that row exists and the poll
      loop settles, exactly one terminal status is written to the store: "completed" on
      success, "failed" otherwise. A subscription is requested only after the gateway said
      SUCCESSFUL, and a successful run requests it for this user, package, method and reference
      and links the payment to it; a failed run writes no link. When a poll raises an exception the
      run ends in the error handler and writes no terminal status at all. */
  lemma TerminalStoreWrite(s: State, user: Option<string>, packageId: int, paymentMethod: string, env: Env)
    requires MaxAttempts <= |env.polls|
    requires ChargeAccepted(s, user, packageId, env) && env.inserted.Some?
    ensures var r := Process(s, user, packageId, paymentMethod, env);
      var e := PollFrom(env.polls, 0, PendingStatus);
      && r.calls[0] == CreatePayment(user.value, None, FindPackage(s.user.packages, packageId).value.price,
                                     paymentMethod, env.initiate.referenceId, "pending")
      && (r.ok ==>
            && CreateSubscription(user.value, packageId, paymentMethod, env.initiate.referenceId) in r.calls
            && UpdatePaymentSubscription(env.inserted.value.id, env.created.value.id) in r.calls)
      && (e.Settled? ==> StatusWrites(r.calls, env.inserted.value.id) == [if r.ok then "completed" else "failed"])
      && (e.Aborted? ==> StatusWrites(r.calls, env.inserted.value.id) == [])
      && ((exists i :: 0 <= i < |r.calls| && r.calls[i].CreateSubscription?) <==> e == Settled(SuccessfulStatus, e.attempts))
      && ((exists i :: 0 <= i < |r.calls| && r.calls[i].UpdatePaymentSubscription?) <==> r.ok)
  {
    var pkg := FindPackage(s.user.packages, packageId).value;
    var p := env.inserted.value;
    var rest := Settle(user.value, pkg, packageId, paymentMethod, env.initiate.referenceId, p, env);
    SettleStoreWrites(user.value, pkg, packageId, paymentMethod, env.initiate.referenceId, p, env);
    var r := Process(s, user, packageId, paymentMethod, env);
    var insert := CreatePayment(user.value, None, pkg.price, paymentMethod, env.initiate.referenceId, "pending");
    ProcessAccepted(s, user, packageId, paymentMethod, env);
    InsertFirst(insert, rest.calls, p.id);
  }

  /** Writing the pending row before a log adds no status write, no subscription request and no
      subscription link. */
  lemma InsertFirst(insert: StoreCall, c: seq<StoreCall>, id: int)
    requires insert.CreatePayment?
    ensures StatusWrites([insert] + c, id) == StatusWrites(c, id)
    ensures (exists i :: 0 <= i < |[insert] + c| && ([insert] + c)[i].CreateSubscription?) <==>
            (exists i :: 0 <= i < |c| && c[i].CreateSubscription?)
    ensures (exists i :: 0 <= i < |[insert] + c| && ([insert] + c)[i].UpdatePaymentSubscription?) <==>
            (exists i :: 0 <= i < |c| && c[i].UpdatePaymentSubscription?)
  {
    StatusWritesAppend([insert], c, id);
    assert StatusWrites([insert], id) == [] by {
      assert [insert][1..] == [];
    }
    forall i | 0 <= i < |c| ensures ([insert] + c)[i + 1] == c[i] { }
  }

  /** `f` differs from `t` at most in the payments with id `id`: the list keeps its length,
      every payment with another id keeps its place and its fields, and the catalogue is kept. */
  predicate OthersKept(t: State, f: State, id: int) {
    && |f.user.payments| == |t.user.payments|
    && f.user.packages == t.user.packages
    && forall i :: 0 <= i < |t.user.payments| && t.user.payments[i].id != id ==> f.user.payments[i] == t.user.payments[i]
  }

  /** Keeping the others twice keeps them. */
  lemma OthersKeptTrans(a: State, b: State, c: State, id: int)
    requires OthersKept(a, b, id) && OthersKept(b, c, id)
    ensures OthersKept(a, c, id)
  {
    forall i | 0 <= i < |a.user.payments| && a.user.payments[i].id != id
      ensures c.user.payments[i] == a.user.payments[i]
    {
      assert b.user.payments[i] == a.user.payments[i];
    }
  }

  /** UPDATE_PAYMENTs that only set the status, dispatched while the payment with that id is
      first in the list, leave it first, with the last status written; every payment with
      another id, the catalogue, the subscription and the UI state are untouched. */
  lemma {:induction false} StatusUpdatesOnHead(t: State, id: int, d: seq<string>)
    requires t.user.payments != [] && t.user.payments[0].id == id
    ensures var f := Replay(t, StatusUpdates(id, d));
      && OthersKept(t, f, id)
      && f.user.payments[0] == (if d == [] then t.user.payments[0] else t.user.payments[0].(status := ToLower(d[|d| - 1])))
      && f.user.subscription == t.user.subscription && f.ui == t.ui
    decreases |d|
  {
    if d != [] {
      var init := d[..|d| - 1];
      var acts := StatusUpdates(id, d);
      assert acts[..|d| - 1] == StatusUpdates(id, init);
      StatusUpdatesOnHead(t, id, init);
      var m := Replay(t, StatusUpdates(id, init));
      var patch := StatusPatch(ToLower(d[|d| - 1]));
      assert acts[|d| - 1] == UpdatePayment(id, patch);
      assert Replay(t, acts) == Reduce(m, UpdatePayment(id, patch));
      UpdatePaymentPatchesById(m, id, patch);
      OthersKeptTrans(t, m, Replay(t, acts), id);
    }
  }

  /** Two more actions after a batch. */
  lemma ReplayTwoMore(t: State, acts: seq<Action>, a: Action, b: Action)
    ensures Replay(t, acts + [a, b]) == Reduce(Reduce(Replay(t, acts), a), b)
  {
    var withA := acts + [a];
    assert withA + [b] == acts + [a, b];
    var s1 := Replay(t, withA);
    ReplaySnoc(t, acts, a);
    ReplaySnoc(t, withA, b);
  }

  /** Three more actions after a batch. */
  lemma ReplayThreeMore(t: State, acts: seq<Action>, a: Action, b: Action, c: Action)
    ensures Replay(t, acts + [a, b, c]) == Reduce(Reduce(Reduce(Replay(t, acts), a), b), c)
  {
    ReplayTwoMore(t, acts, a, b);
    ReplaySnoc(t, acts + [a, b], c);
    assert acts + [a, b] + [c] == acts + [a, b, c];
  }

  /** What the run leaves in the local state from the first poll on, when the pending payment
      is first in the list: it stays first; "completed" and linked on success, with the new
      subscription current and the error cleared; "failed" when the loop settled on anything
      else or the subscription could not be created, with the error naming which of the two
      happened; as the loop left it (stored status or pending) when a poll raised an exception. */
  lemma SettleOnState(t: State, userId: string, pkg: Package, packageId: int, paymentMethod: string,
                      referenceId: string, p: Payment, env: Env)
    requires MaxAttempts <= |env.polls|
    requires t.user.payments != [] && t.user.payments[0] == p
    ensures var r := Settle(userId, pkg, packageId, paymentMethod, referenceId, p, env);
      var f := Replay(t, r.actions);
      var e := PollFrom(env.polls, 0, PendingStatus);
      && OthersKept(t, f, p.id)
      && f.user.payments[0].id == p.id
      && (r.ok ==>
            && f.user.payments[0] == Apply(p, CompletedPatch(env.created.value.id, pkg.name))
            && f.user.payments[0].status == "completed"
            && f.user.payments[0].subscriptionId == Some(env.created.value.id)
            && f.user.subscription == env.created
            && f.ui.error.None?)
      && (!r.ok && e.Settled? ==>
            && f.user.payments[0] == p.(status := "failed")
            && f.user.subscription == t.user.subscription
            && f.ui.error == Some(if e.status == SuccessfulStatus then SubscriptionFailed else FailedOrTimedOut))
      && (e.Aborted? ==>
            && f.user.payments[0] == p.(status := f.user.payments[0].status)
            && f.user.payments[0].status in {p.status, ToLower(PendingStatus)}
            && f.user.subscription == t.user.subscription
            && f.ui.error == Some(e.error))
  {
    var polled := StatusUpdates(p.id, PolledStatuses(env.polls, 0, PendingStatus));
    AfterPolls(t, p, env);
    var m := Replay(t, polled);
    var r := Settle(userId, pkg, packageId, paymentMethod, referenceId, p, env);
    match PollFrom(env.polls, 0, PendingStatus) {
      case Aborted(err, _) =>
        assert r.actions == polled + [SetError(Some(err))];
        ReplaySnoc(t, polled, SetError(Some(err)));
      case Settled(status, _) =>
        if status == SuccessfulStatus && env.created.Some? {
          var sub := env.created.value;
          var u := UpdatePayment(p.id, CompletedPatch(sub.id, pkg.name));
          assert r.actions == polled + [u, SetSubscription(Some(sub)), SetError(None)];
          ReplayThreeMore(t, polled, u, SetSubscription(Some(sub)), SetError(None));
          UpdatePaymentPatchesById(m, p.id, CompletedPatch(sub.id, pkg.name));
          OthersKeptTrans(t, m, Reduce(m, u), p.id);
        } else {
          var u := UpdatePayment(p.id, StatusPatch("failed"));
          var err := if status == SuccessfulStatus then SubscriptionFailed else FailedOrTimedOut;
          assert r.actions == polled + [u, SetError(Some(err))];
          ReplayTwoMore(t, polled, u, SetError(Some(err)));
          UpdatePaymentPatchesById(m, p.id, StatusPatch("failed"));
          OthersKeptTrans(t, m, Reduce(m, u), p.id);
        }
    }
  }

  /** The UPDATE_PAYMENTs of the poll loop leave the pending payment first, change nothing of
      it but its status, keep every other payment and the catalogue, and leave it PENDING (lower-cased) or untouched when no status settled it. */
  lemma AfterPolls(t: State, p: Payment, env: Env)
    requires MaxAttempts <= |env.polls|
    requires t.user.payments != [] && t.user.payments[0] == p
    ensures var m := Replay(t, StatusUpdates(p.id, PolledStatuses(env.polls, 0, PendingStatus)));
      var e := PollFrom(env.polls, 0, PendingStatus);
      && OthersKept(t, m, p.id)
      && m.user.payments[0] == p.(status := m.user.payments[0].status)
      && m.user.subscription == t.user.subscription && m.ui == t.ui
      && (e.Aborted? ==> m.user.payments[0].status in {p.status, ToLower(PendingStatus)})
  {
    var d := PolledStatuses(env.polls, 0, PendingStatus);
    StatusUpdatesOnHead(t, p.id, d);
    PolledStatusesPending(env.polls, 0);
  }

  /** Once the charge is accepted and the pending row stored, the run has written that row
      (this user, no subscription, the package's price, the method and the gateway's
      reference, status "pending"), adds the payment to the list and goes on as `Settle`. */
  lemma ProcessAccepted(s: State, user: Option<string>, packageId: int, paymentMethod: string, env: Env)
    requires MaxAttempts <= |env.polls|
    requires ChargeAccepted(s, user, packageId, env) && env.inserted.Some?
    ensures var r := Process(s, user, packageId, paymentMethod, env);
      var rest := Settle(user.value, FindPackage(s.user.packages, packageId).value, packageId, paymentMethod,
                         env.initiate.referenceId, env.inserted.value, env);
      && r.ok == rest.ok && r.actions == [AddPayment(env.inserted.value)] + rest.actions
      && r.calls == [CreatePayment(user.value, None, FindPackage(s.user.packages, packageId).value.price,
                                   paymentMethod, env.initiate.referenceId, "pending")] + rest.calls
  {
  }

  /** What the whole run leaves in the local state once the pending payment was added: one
      more payment, first in the list, with the outcome `SettleOnState` describes. */
  lemma FinalLocalPayment(s: State, user: Option<string>, packageId: int, paymentMethod: string, env: Env)
    requires MaxAttempts <= |env.polls|
    requires ChargeAccepted(s, user, packageId, env) && env.inserted.Some?
    ensures var r := Process(s, user, packageId, paymentMethod, env);
      var f := Replay(s, r.actions);
      var p := env.inserted.value;
      var e := PollFrom(env.polls, 0, PendingStatus);
      && |f.user.payments| == |s.user.payments| + 1
      && f.user.packages == s.user.packages
      && (forall i :: 0 <= i < |s.user.payments| && s.user.payments[i].id != p.id ==> f.user.payments[i + 1] == s.user.payments[i])
      && f.user.payments[0].id == p.id
      && (r.ok ==>
            && f.user.payments[0] == Apply(p, CompletedPatch(env.created.value.id, FindPackage(s.user.packages, packageId).value.name))
            && f.user.payments[0].status == "completed"
            && f.user.payments[0].subscriptionId == Some(env.created.value.id)
            && f.user.subscription == env.created
            && f.ui.error.None?)
      && (!r.ok && e.Settled? ==>
            && f.user.payments[0] == p.(status := "failed")
            && f.user.subscription == s.user.subscription
            && f.ui.error == Some(if e.status == SuccessfulStatus then SubscriptionFailed else FailedOrTimedOut))
      && (e.Aborted? ==>
            && f.user.payments[0] == p.(status := f.user.payments[0].status)
            && f.user.payments[0].status in {p.status, ToLower(PendingStatus)}
            && f.user.subscription == s.user.subscription
            && f.ui.error == Some(e.error))
  {
    var pkg := FindPackage(s.user.packages, packageId).value;
    var p := env.inserted.value;
    var rest := Settle(user.value, pkg, packageId, paymentMethod, env.initiate.referenceId, p, env);
    var r := Process(s, user, packageId, paymentMethod, env);
    ProcessAccepted(s, user, packageId, paymentMethod, env);
    var t := Reduce(s, AddPayment(p));
    AddPaymentPrepends(s, p);
    assert t.user.payments == [p] + s.user.payments;
    assert Replay(s, [AddPayment(p)]) == t by {
      assert [AddPayment(p)][..0] == [];
    }
    ReplayAppend(s, [AddPayment(p)], rest.actions);
    var f := Replay(s, r.actions);
    assert f == Replay(t, rest.actions);
    SettleOnState(t, user.value, pkg, packageId, paymentMethod, env.initiate.referenceId, p, env);
    forall i | 0 <= i < |s.user.payments| && s.user.payments[i].id != p.id
      ensures f.user.payments[i + 1] == s.user.payments[i]
    {
      assert t.user.payments[i + 1] == s.user.payments[i];
    }
  }

  // ---------------------------------------------------------------------------------------
  // The provider

  /** One attempt of the poll loop, unfolded: a successful answer replaces the status and
      writes it lower-cased, a failed one keeps the status and writes nothing. */
  lemma PollStep(polls: seq<PollAnswer>, k: nat)
    requires k < MaxAttempts <= |polls| && polls[k].Polled?
    ensures var a := polls[k];
      var st := if a.ok && a.success then a.status else PendingStatus;
      && PollFrom(polls, k, PendingStatus) == PollFrom(polls, k + 1, st)
      && PolledStatuses(polls, k, PendingStatus) ==
           (if a.ok && a.success then [a.status] else []) + PolledStatuses(polls, k + 1, st)
  {
    var a := polls[k];
    if !(a.ok && a.success) {
      assert [] + PolledStatuses(polls, k + 1, PendingStatus) == PolledStatuses(polls, k + 1, PendingStatus);
    }
  }

  /** Writing one more polled status adds one more UPDATE_PAYMENT. */
  lemma StatusUpdatesSnoc(id: int, written: seq<string>, st: string)
    ensures StatusUpdates(id, written + [st]) == StatusUpdates(id, written) + [UpdatePayment(id, StatusPatch(ToLower(st)))]
  {
  }

  /** The state held by the provider's reducer, changed only by dispatching actions. */
  class Provider {
    var state: State

    constructor ()
      ensures state == InitialState()
    {
      state := InitialState();
    }

    /** `dispatch(action)`. */
    method Dispatch(a: Action)
      modifies this
      ensures state == Reduce(old(state), a)
    {
      state := Reduce(state, a);
    }

    /** The poll loop of `processPayment`: at most `MaxAttempts` requests, stopping once a
        successful answer carries a status other than PENDING; the status of each successful
        answer is written, lower-cased, into the local payment. An exception leaves the loop. */
    method PollGateway(paymentId: int, polls: seq<PollAnswer>) returns (end: PollEnd)
      requires MaxAttempts <= |polls|
      modifies this
      ensures end == PollFrom(polls, 0, PendingStatus)
      ensures state == Replay(old(state), StatusUpdates(paymentId, PolledStatuses(polls, 0, PendingStatus)))
    {
      ghost var s0 := state;
      var status := PendingStatus;
      var attempts := 0;
      ghost var written: seq<string> := [];
      ghost var acts: seq<Action> := [];
      while status == PendingStatus && attempts < MaxAttempts
        invariant 0 <= attempts <= MaxAttempts
        invariant PollFrom(polls, attempts, status) == PollFrom(polls, 0, PendingStatus)
        invariant written + PolledStatuses(polls, attempts, status) == PolledStatuses(polls, 0, PendingStatus)
        invariant acts == StatusUpdates(paymentId, written)
        invariant state == Replay(s0, acts)
      {
        var answer := polls[attempts];
        attempts := attempts + 1;
        if answer.PollThrew? {
          assert written + [] == written;
          return Aborted(answer.error, attempts);
        }
        PollStep(polls, attempts - 1);
        if answer.ok && answer.success {
          status := answer.status;
          var a := UpdatePayment(paymentId, StatusPatch(ToLower(status)));
          StatusUpdatesSnoc(paymentId, written, status);
          ReplaySnoc(s0, acts, a);
          Dispatch(a);
          written := written + [status];
          acts := acts + [a];
        }
      }
      assert written + [] == written;
      return Settled(status, attempts);
    }

    /** From the first poll on: poll, then create the subscription and complete the payment,
        or mark the payment failed. */
    method SettlePayment(userId: string, pkg: Package, packageId: int, paymentMethod: string,
                         referenceId: string, payment: Payment, env: Env)
      returns (ok: bool, calls: seq<StoreCall>)
      requires MaxAttempts <= |env.polls|
      modifies this
      ensures var run := Settle(userId, pkg, packageId, paymentMethod, referenceId, payment, env);
        ok == run.ok && calls == run.calls && state == Replay(old(state), run.actions)
    {
      ghost var s0 := state;
      var end := PollGateway(payment.id, env.polls);
      ghost var acts := StatusUpdates(payment.id, PolledStatuses(env.polls, 0, PendingStatus));
      if end.Aborted? {
        ReplaySnoc(s0, acts, SetError(Some(end.error)));
        Dispatch(SetError(Some(end.error)));
        return false, [];
      }
      if end.status == SuccessfulStatus {
        var create := CreateSubscription(userId, packageId, paymentMethod, referenceId);
        if env.created.None? {
          ReplayTwoMore(s0, acts, UpdatePayment(payment.id, StatusPatch("failed")), SetError(Some(SubscriptionFailed)));
          Dispatch(UpdatePayment(payment.id, StatusPatch("failed")));
          Dispatch(SetError(Some(SubscriptionFailed)));
          return false, [create, UpdatePaymentStatus(payment.id, "failed")];
        }
        var sub := env.created.value;
        ReplayThreeMore(s0, acts, UpdatePayment(payment.id, CompletedPatch(sub.id, pkg.name)), SetSubscription(Some(sub)), SetError(None));
        Dispatch(UpdatePayment(payment.id, CompletedPatch(sub.id, pkg.name)));
        Dispatch(SetSubscription(Some(sub)));
        Dispatch(SetError(None));
        return true, [create, UpdatePaymentStatus(payment.id, "completed"), UpdatePaymentSubscription(payment.id, sub.id)];
      }
      ReplayTwoMore(s0, acts, UpdatePayment(payment.id, StatusPatch("failed")), SetError(Some(FailedOrTimedOut)));
      Dispatch(UpdatePayment(payment.id, StatusPatch("failed")));
      Dispatch(SetError(Some(FailedOrTimedOut)));
      return false, [UpdatePaymentStatus(payment.id, "failed")];
    }

    /** `processPayment`, with the outside world `env` and the signed-in `user`'s id as inputs;
        returns the result and the store writes issued, and leaves the state that dispatching
        the run's actions produces. */
    method ProcessPayment(user: Option<string>, packageId: int, paymentMethod: string, env: Env)
      returns (ok: bool, calls: seq<StoreCall>)
      requires MaxAttempts <= |env.polls|
      modifies this
      ensures var run := Process(old(state), user, packageId, paymentMethod, env);
        ok == run.ok && calls == run.calls && state == Replay(old(state), run.actions)
    {
      ghost var s0 := state;
      if user.None? {
        return false, [];
      }
      var found := FindPackage(state.user.packages, packageId);
      if found.None? {
        ReplaySnoc(s0, [], SetError(Some(PackageNotFound)));
        Dispatch(SetError(Some(PackageNotFound)));
        return false, [];
      }
      var pkg := found.value;
      if env.initiate.InitiateThrew? {
        ReplaySnoc(s0, [], SetError(Some(env.initiate.error)));
        Dispatch(SetError(Some(env.initiate.error)));
        return false, [];
      }
      var referenceId := env.initiate.referenceId;
      if !env.initiate.ok || !env.initiate.success {
        var message := OrElse(env.initiate.message, InitiateFallback);
        ReplaySnoc(s0, [], SetError(Some(message)));
        Dispatch(SetError(Some(message)));
        return false, [];
      }
      var insert := CreatePayment(user.value, None, pkg.price, paymentMethod, referenceId, "pending");
      if env.inserted.None? {
        ReplaySnoc(s0, [], SetError(Some(PendingInsertFailed)));
        Dispatch(SetError(Some(PendingInsertFailed)));
        return false, [insert];
      }
      var payment := env.inserted.value;
      ReplaySnoc(s0, [], AddPayment(payment));
      Dispatch(AddPayment(payment));
      ghost var s1 := state;
      var rest;
      ok, rest := SettlePayment(user.value, pkg, packageId, paymentMethod, referenceId, payment, env);
      ReplayAppend(s0, [AddPayment(payment)], Settle(user.value, pkg, packageId, paymentMethod, referenceId, payment, env).actions);
      calls := [insert] + rest;
    }
  }
}
