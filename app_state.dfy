/** The per-session application state of the storefront and its reducer (`appReducer`):
    the signed-in user's subscription, payment list and package catalogue, plus three
    loading flags and an error message. The reducer never mutates; it returns a copy. */
module AppState {
  import opened Js

  /** A catalogue entry. Prices are whole currency units. */
  datatype Package = Package(id: int, name: string, price: int, durationDays: int)

  /** `subscription.package` as embedded in a subscription row. */
  datatype PackageInfo = PackageInfo(name: string, price: int, features: seq<string>)

  /** A subscription row. The status is kept as a string: rows may carry values outside
      the declared `active | expired | cancelled`. */
  datatype Subscription = Subscription(
    id: int,
    packageInfo: Option<PackageInfo>,
    packageName: string,
    price: int,
    startDate: string,
    endDate: string,
    status: string,
    paymentMethod: Option<string>,
    paymentReference: Option<string>)

  /** `payment.subscription`, reduced to the package name the payment list reads. */
  datatype PaymentSubscription = PaymentSubscription(packageName: Option<string>)

  /** A payment row. Ids are numbers throughout; the status is a string because the
      polled gateway status is written into it lower-cased (e.g. "successful"). */
  datatype Payment = Payment(
    id: int,
    amount: int,
    currency: string,
    createdAt: string,
    status: string,
    paymentMethod: Option<string>,
    description: Option<string>,
    reference: Option<string>,
    subscriptionId: Option<int>,
    subscription: Option<PaymentSubscription>)

  /** `Partial<Payment>`: the fields present (`Some`) overwrite, the others are kept. */
  datatype PaymentPatch = PaymentPatch(
    id: Option<int>,
    amount: Option<int>,
    currency: Option<string>,
    createdAt: Option<string>,
    status: Option<string>,
    paymentMethod: Option<string>,
    description: Option<string>,
    reference: Option<string>,
    subscriptionId: Option<int>,
    subscription: Option<PaymentSubscription>)

  /** A patch that sets the status only. */
  function StatusPatch(status: string): PaymentPatch {
    PaymentPatch(None, None, None, None, Some(status), None, None, None, None, None)
  }

  /** `{ ...payment, ...updates }`. */
  function Apply(p: Payment, u: PaymentPatch): Payment {
    Payment(
      if u.id.Some? then u.id.value else p.id,
      if u.amount.Some? then u.amount.value else p.amount,
      if u.currency.Some? then u.currency.value else p.currency,
      if u.createdAt.Some? then u.createdAt.value else p.createdAt,
      if u.status.Some? then u.status.value else p.status,
      if u.paymentMethod.Some? then u.paymentMethod else p.paymentMethod,
      if u.description.Some? then u.description else p.description,
      if u.reference.Some? then u.reference else p.reference,
      if u.subscriptionId.Some? then u.subscriptionId else p.subscriptionId,
      if u.subscription.Some? then u.subscription else p.subscription)
  }

  /** Spreading a patch twice is spreading it once. */
  lemma ApplyIdempotent(p: Payment, u: PaymentPatch)
    ensures Apply(Apply(p, u), u) == Apply(p, u)
  {
  }

  /** `payments.map(p => p.id === id ? { ...p, ...updates } : p)`. */
  function PatchPayments(ps: seq<Payment>, id: int, u: PaymentPatch): (r: seq<Payment>)
    ensures |r| == |ps|
    ensures forall i :: 0 <= i < |ps| && ps[i].id == id ==> r[i] == Apply(ps[i], u)
    ensures forall i :: 0 <= i < |ps| && ps[i].id != id ==> r[i] == ps[i]
  {
    if ps == [] then [] else [if ps[0].id == id then Apply(ps[0], u) else ps[0]] + PatchPayments(ps[1..], id, u)
  }

  /** Patching a second time with the same id and updates changes nothing more. */
  lemma PatchPaymentsIdempotent(ps: seq<Payment>, id: int, u: PaymentPatch)
    ensures PatchPayments(PatchPayments(ps, id, u), id, u) == PatchPayments(ps, id, u)
  {
    var once := PatchPayments(ps, id, u);
    var twice := PatchPayments(once, id, u);
    forall i | 0 <= i < |ps|
      ensures twice[i] == once[i]
    {
      if ps[i].id == id {
        ApplyIdempotent(ps[i], u);
      }
    }
  }

  datatype LoadingKey = SubscriptionKey | PaymentsKey | PackagesKey

  datatype Loading = Loading(subscription: bool, payments: bool, packages: bool)

  function Flag(l: Loading, key: LoadingKey): bool {
    match key
    case SubscriptionKey => l.subscription
    case PaymentsKey => l.payments
    case PackagesKey => l.packages
  }

  /** `{ ...loading, [key]: value }`. */
  function SetFlag(l: Loading, key: LoadingKey, value: bool): (r: Loading)
    ensures Flag(r, key) == value
    ensures forall k :: k != key ==> Flag(r, k) == Flag(l, k)
  {
    match key
    case SubscriptionKey => l.(subscription := value)
    case PaymentsKey => l.(payments := value)
    case PackagesKey => l.(packages := value)
  }

  datatype Ui = Ui(loading: Loading, error: Option<string>)

  datatype User = User(subscription: Option<Subscription>, payments: seq<Payment>, packages: seq<Package>)

  datatype State = State(user: User, ui: Ui)

  /** The eight action kinds of the reducer, and anything else it may be handed. */
  datatype Action =
    | SetLoading(key: LoadingKey, value: bool)
    | SetError(error: Option<string>)
    | SetSubscription(subscription: Option<Subscription>)
    | SetPayments(payments: seq<Payment>)
    | SetPackages(packages: seq<Package>)
    | AddPayment(payment: Payment)
    | UpdatePayment(id: int, updates: PaymentPatch)
    | ResetState
    | Unrecognised

  /** `initialState`: nothing loaded, nothing loading, no error. */
  function InitialState(): (s: State)
    ensures s.user.subscription.None? && s.user.payments == [] && s.user.packages == []
    ensures forall k :: !Flag(s.ui.loading, k)
    ensures s.ui.error.None?
  {
    State(User(None, [], []), Ui(Loading(false, false, false), None))
  }

  /** `appReducer`. Each part of the state changes only through the actions that name it:
      the catalogue through SET_PACKAGES, the subscription through SET_SUBSCRIPTION, the
      payment list through SET_PAYMENTS, ADD_PAYMENT and UPDATE_PAYMENT, the UI state through
      SET_LOADING and SET_ERROR, and everything through RESET_STATE. */
  function Reduce(s: State, a: Action): (r: State)
    ensures !(a.SetPackages? || a.ResetState?) ==> r.user.packages == s.user.packages
    ensures !(a.SetSubscription? || a.ResetState?) ==> r.user.subscription == s.user.subscription
    ensures !(a.SetPayments? || a.AddPayment? || a.UpdatePayment? || a.ResetState?) ==> r.user.payments == s.user.payments
    ensures !(a.SetLoading? || a.SetError? || a.ResetState?) ==> r.ui == s.ui
  {
    match a
    case SetLoading(key, value) => s.(ui := s.ui.(loading := SetFlag(s.ui.loading, key, value)))
    case SetError(e) => s.(ui := s.ui.(error := e))
    case SetSubscription(sub) => s.(user := s.user.(subscription := sub))
    case SetPayments(ps) => s.(user := s.user.(payments := ps))
    case SetPackages(pkgs) => s.(user := s.user.(packages := pkgs))
    case AddPayment(p) => s.(user := s.user.(payments := [p] + s.user.payments))
    case UpdatePayment(id, u) => s.(user := s.user.(payments := PatchPayments(s.user.payments, id, u)))
    case ResetState => InitialState()
    case Unrecognised => s
  }

  /** The state after dispatching `acts` in order, starting from `s`. */
  function Replay(s: State, acts: seq<Action>): State
    decreases |acts|
  {
    if acts == [] then s else Reduce(Replay(s, acts[..|acts| - 1]), acts[|acts| - 1])
  }

  /** Dispatching one more action after a batch. */
  lemma ReplaySnoc(s: State, acts: seq<Action>, a: Action)
    ensures Replay(s, acts + [a]) == Reduce(Replay(s, acts), a)
  {
    assert (acts + [a])[..|acts|] == acts;
  }

  /** Dispatching one batch after another is dispatching their concatenation. */
  lemma {:induction false} ReplayAppend(s: State, a: seq<Action>, b: seq<Action>)
    ensures Replay(s, a + b) == Replay(Replay(s, a), b)
    decreases |b|
  {
    if b == [] {
      assert a + b == a;
    } else {
      assert (a + b)[..|a + b| - 1] == a + b[..|b| - 1];
      ReplayAppend(s, a, b[..|b| - 1]);
    }
  }

  /** SET_LOADING changes the named flag and nothing else. */
  lemma SetLoadingOnlyFlag(s: State, key: LoadingKey, value: bool)
    ensures var r := Reduce(s, SetLoading(key, value));
      && Flag(r.ui.loading, key) == value
      && (forall k :: k != key ==> Flag(r.ui.loading, k) == Flag(s.ui.loading, k))
      && r.user == s.user && r.ui.error == s.ui.error
  {
  }

  /** SET_ERROR changes the error and nothing else. */
  lemma SetErrorOnlyError(s: State, e: Option<string>)
    ensures Reduce(s, SetError(e)) == s.(ui := s.ui.(error := e))
    ensures Reduce(s, SetError(e)).ui.loading == s.ui.loading
    ensures Reduce(s, SetError(e)).user == s.user
  {
  }

  /** SET_SUBSCRIPTION, SET_PAYMENTS and SET_PACKAGES each replace their own field only. */
  lemma SetFieldReplacesOnlyItsField(s: State, sub: Option<Subscription>, ps: seq<Payment>, pkgs: seq<Package>)
    ensures var r := Reduce(s, SetSubscription(sub));
      r.user.subscription == sub && r.user.payments == s.user.payments && r.user.packages == s.user.packages && r.ui == s.ui
    ensures var r := Reduce(s, SetPayments(ps));
      r.user.payments == ps && r.user.subscription == s.user.subscription && r.user.packages == s.user.packages && r.ui == s.ui
    ensures var r := Reduce(s, SetPackages(pkgs));
      r.user.packages == pkgs && r.user.subscription == s.user.subscription && r.user.payments == s.user.payments && r.ui == s.ui
  {
  }

  /** ADD_PAYMENT puts the new payment first, keeps the old list behind it, and touches nothing else. */
  lemma AddPaymentPrepends(s: State, p: Payment)
    ensures var r := Reduce(s, AddPayment(p));
      && |r.user.payments| == |s.user.payments| + 1
      && r.user.payments[0] == p
      && r.user.payments[1..] == s.user.payments
      && r.user.subscription == s.user.subscription && r.user.packages == s.user.packages
      && r.ui == s.ui
  {
    var r := Reduce(s, AddPayment(p));
    assert r.user.payments[1..] == s.user.payments;
  }

  /** UPDATE_PAYMENT keeps length and order, patches exactly the entries with the given id,
      touches nothing else, and is idempotent. */
  lemma UpdatePaymentPatchesById(s: State, id: int, u: PaymentPatch)
    ensures var r := Reduce(s, UpdatePayment(id, u));
      && |r.user.payments| == |s.user.payments|
      && (forall i :: 0 <= i < |s.user.payments| ==>
            r.user.payments[i] == if s.user.payments[i].id == id then Apply(s.user.payments[i], u) else s.user.payments[i])
      && r.user.subscription == s.user.subscription && r.user.packages == s.user.packages
      && r.ui == s.ui
    ensures Reduce(Reduce(s, UpdatePayment(id, u)), UpdatePayment(id, u)) == Reduce(s, UpdatePayment(id, u))
  {
    PatchPaymentsIdempotent(s.user.payments, id, u);
  }

  /** RESET_STATE returns the initial state from any state; an unknown action changes nothing. */
  lemma ResetAndUnknown(s: State)
    ensures Reduce(s, ResetState) == InitialState()
    ensures Reduce(s, Unrecognised) == s
  {
  }
}
