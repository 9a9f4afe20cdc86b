/** The toast store: a reducer over the list of visible toasts, capped at `ToastLimit`, and
    the module-level counter that hands out toast ids. */
module Toast {
  import opened Js

  /** `TOAST_LIMIT`: at most this many toasts are kept. */
  const ToastLimit: nat := 1

  /** A toast. Ids are the numbers `genId` returns. */
  datatype Toast = Toast(id: int, open: bool, title: Option<string>, description: Option<string>)

  /** `Partial<ToasterToast>`: the fields present (`Some`) overwrite, the others are kept. */
  datatype ToastPatch = ToastPatch(id: Option<int>, open: Option<bool>, title: Option<string>, description: Option<string>)

  datatype Action =
    | AddToast(toast: Toast)
    | UpdateToast(patch: ToastPatch)
    | DismissToast(toastId: Option<int>)
    | RemoveToast(toastId: Option<int>)

  /** `{ ...t, ...patch }`. */
  function Merge(t: Toast, u: ToastPatch): Toast {
    Toast(
      if u.id.Some? then u.id.value else t.id,
      if u.open.Some? then u.open.value else t.open,
      if u.title.Some? then u.title else t.title,
      if u.description.Some? then u.description else t.description)
  }

  /** `if (toastId)`: an absent id and the id 0 are both falsy. */
  predicate TruthyId(toastId: Option<int>) {
    toastId.Some? && toastId.value != 0
  }

  /** `t.id === toastId`: an absent id matches no toast. */
  predicate HasId(t: Toast, toastId: Option<int>) {
    toastId.Some? && t.id == toastId.value
  }

  /** `toasts.filter(t => t.id !== toastId)`. */
  function Without(ts: seq<Toast>, toastId: Option<int>): (r: seq<Toast>)
    ensures |r| <= |ts|
  {
    if ts == [] then []
    else (if HasId(ts[0], toastId) then [] else [ts[0]]) + Without(ts[1..], toastId)
  }

  /** The filter keeps exactly the toasts without that id: everything it keeps was in the
      list and lacks the id, and every toast of the list that lacks the id is kept. */
  lemma {:induction false} WithoutKeepsOthers(ts: seq<Toast>, toastId: Option<int>)
    ensures var r := Without(ts, toastId);
      && (forall i :: 0 <= i < |r| ==> r[i] in ts && !HasId(r[i], toastId))
      && (forall i :: 0 <= i < |ts| && !HasId(ts[i], toastId) ==> ts[i] in r)
  {
    if ts != [] {
      WithoutKeepsOthers(ts[1..], toastId);
      var head := if HasId(ts[0], toastId) then [] else [ts[0]];
      var rest := Without(ts[1..], toastId);
      var r := Without(ts, toastId);
      assert r == head + rest;
      forall i | 0 <= i < |r|
        ensures r[i] in ts && !HasId(r[i], toastId)
      {
        if i >= |head| {
          assert r[i] == rest[i - |head|];
        }
      }
      forall i | 0 <= i < |ts| && !HasId(ts[i], toastId)
        ensures ts[i] in r
      {
        if i > 0 {
          assert ts[i] == ts[1..][i - 1];
        }
      }
    }
  }

  /** `reducer`. ADD_TOAST never keeps more than `ToastLimit` toasts and puts the new one
      first; no other action lengthens the list. */
  function Reduce(ts: seq<Toast>, a: Action): (r: seq<Toast>)
    ensures a.AddToast? ==> 0 < |r| <= ToastLimit && r[0] == a.toast
    ensures !a.AddToast? ==> |r| <= |ts|
  {
    match a
    case AddToast(t) => ([t] + ts)[..if |ts| + 1 <= ToastLimit then |ts| + 1 else ToastLimit]
    case UpdateToast(u) =>
      seq(|ts|, i requires 0 <= i < |ts| => if HasId(ts[i], u.id) then Merge(ts[i], u) else ts[i])
    case DismissToast(toastId) =>
      if TruthyId(toastId) then
        seq(|ts|, i requires 0 <= i < |ts| => if HasId(ts[i], toastId) then ts[i].(open := false) else ts[i])
      else
        seq(|ts|, i requires 0 <= i < |ts| => ts[i].(open := false))
    case RemoveToast(toastId) => Without(ts, toastId)
  }

  /** ADD_TOAST puts the new toast first and keeps at most `ToastLimit` toasts: with the limit
      of one, the list is the new toast alone. */
  lemma AddKeepsNewestOnly(ts: seq<Toast>, t: Toast)
    ensures var r := Reduce(ts, AddToast(t));
      && |r| <= ToastLimit
      && r[0] == t
    ensures Reduce(ts, AddToast(t)) == [t]
  {
  }

  /** UPDATE_TOAST keeps length and order and merges the patch into the toasts with its id only. */
  lemma UpdateMergesById(ts: seq<Toast>, u: ToastPatch)
    ensures var r := Reduce(ts, UpdateToast(u));
      && |r| == |ts|
      && (forall i :: 0 <= i < |ts| && HasId(ts[i], u.id) ==> r[i] == Merge(ts[i], u))
      && (forall i :: 0 <= i < |ts| && !HasId(ts[i], u.id) ==> r[i] == ts[i])
      && (forall i :: 0 <= i < |ts| ==> r[i].id == ts[i].id)
  {
  }

  /** DISMISS_TOAST with a truthy id closes the toasts with that id and leaves all others as they were. */
  lemma DismissTruthyClosesMatches(ts: seq<Toast>, id: int)
    requires id != 0
    ensures var r := Reduce(ts, DismissToast(Some(id)));
      && |r| == |ts|
      && (forall i :: 0 <= i < |ts| && ts[i].id == id ==> r[i] == ts[i].(open := false))
      && (forall i :: 0 <= i < |ts| && ts[i].id != id ==> r[i] == ts[i])
  {
  }

  /** DISMISS_TOAST with no id, or with the id 0 that `genId` hands out first, closes every toast. */
  lemma DismissFalsyClosesAll(ts: seq<Toast>, toastId: Option<int>)
    requires toastId.None? || toastId.value == 0
    ensures var r := Reduce(ts, DismissToast(toastId));
      && |r| == |ts|
      && forall i :: 0 <= i < |ts| ==> r[i] == ts[i].(open := false) && !r[i].open
    ensures Reduce(ts, DismissToast(Some(0))) == Reduce(ts, DismissToast(None))
  {
  }

  /** Dismissing twice is dismissing once. */
  lemma DismissIdempotent(ts: seq<Toast>, toastId: Option<int>)
    ensures Reduce(Reduce(ts, DismissToast(toastId)), DismissToast(toastId)) == Reduce(ts, DismissToast(toastId))
  {
    var once := Reduce(ts, DismissToast(toastId));
    var twice := Reduce(once, DismissToast(toastId));
    assert |twice| == |once|;
    forall i | 0 <= i < |once|
      ensures twice[i] == once[i]
    {
    }
  }

  /** REMOVE_TOAST with no id removes nothing, and removes nothing when no toast has the id. */
  lemma {:induction false} RemoveNothingMatching(ts: seq<Toast>, toastId: Option<int>)
    requires forall i :: 0 <= i < |ts| ==> !HasId(ts[i], toastId)
    ensures Reduce(ts, RemoveToast(toastId)) == ts
  {
    if ts != [] {
      RemoveNothingMatching(ts[1..], toastId);
    }
  }

  /** REMOVE_TOAST works toast by toast: removing from a concatenation is concatenating what
      remains of each part, so the toasts kept stay in their order. */
  lemma {:induction false} RemoveSplits(a: seq<Toast>, b: seq<Toast>, toastId: Option<int>)
    ensures Without(a + b, toastId) == Without(a, toastId) + Without(b, toastId)
  {
    if a == [] {
      assert a + b == b;
    } else {
      var ab := a + b;
      assert ab[0] == a[0] && ab[1..] == a[1..] + b;
      RemoveSplits(a[1..], b, toastId);
      var head := if HasId(a[0], toastId) then [] else [a[0]];
      calc {
        Without(ab, toastId);
        head + Without(ab[1..], toastId);
        head + (Without(a[1..], toastId) + Without(b, toastId));
        (head + Without(a[1..], toastId)) + Without(b, toastId);
        Without(a, toastId) + Without(b, toastId);
      }
    }
  }

  /** Every id in `ts` is below `n`: `n` itself, and every later count, is a fresh id. */
  predicate IdsBelow(ts: seq<Toast>, n: int) {
    forall i :: 0 <= i < |ts| ==> ts[i].id < n
  }

  /** No action but ADD_TOAST brings in an id that was not there: UPDATE_TOAST only merges into
      toasts that already carry the patch's id, DISMISS_TOAST only closes, REMOVE_TOAST only drops.
      So with every id below the counter, adding the toast with the counter's id and advancing
      the counter keeps every id below it. */
  lemma ReduceKeepsIdsBelow(ts: seq<Toast>, a: Action, n: int)
    requires IdsBelow(ts, n)
    requires a.AddToast? ==> a.toast.id == n
    ensures IdsBelow(Reduce(ts, a), n + 1)
    ensures !a.AddToast? ==> IdsBelow(Reduce(ts, a), n)
  {
    if a.RemoveToast? {
      WithoutKeepsOthers(ts, a.toastId);
      var r := Reduce(ts, a);
      forall i | 0 <= i < |r|
        ensures r[i].id < n
      {
        assert r[i] in ts;
        var k :| 0 <= k < |ts| && ts[k] == r[i];
      }
    }
  }

  /** The module-level `count` that `genId` advances. */
  class IdCounter {
    var count: nat

    constructor ()
      ensures count == 0
    {
      count := 0;
    }

    /** `genId`: the current count, then one more. */
    method GenId() returns (id: nat)
      modifies this
      ensures id == old(count) && count == old(count) + 1
    {
      id := count;
      count := count + 1;
    }
  }

  /** The toast list held by the provider's reducer. */
  class Toaster {
    var toasts: seq<Toast>

    constructor ()
      ensures toasts == []
    {
      toasts := [];
    }

    method Dispatch(a: Action)
      modifies this
      ensures toasts == Reduce(old(toasts), a)
    {
      toasts := Reduce(toasts, a);
    }

    /** `hotToast`: take a fresh id and add the toast open. The new id differs from every id
        shown before, every id stays below the counter, and the new toast is the only one shown. */
    method HotToast(ids: IdCounter, title: Option<string>, description: Option<string>) returns (id: int)
      requires IdsBelow(toasts, ids.count)
      modifies this, ids
      ensures id == old(ids.count) && ids.count == old(ids.count) + 1
      ensures toasts == Reduce(old(toasts), AddToast(Toast(id, true, title, description)))
      ensures toasts == [Toast(id, true, title, description)]
      ensures forall i :: 0 <= i < |old(toasts)| ==> old(toasts)[i].id != id
      ensures IdsBelow(toasts, ids.count)
    {
      var n := ids.GenId();
      id := n;
      ReduceKeepsIdsBelow(toasts, AddToast(Toast(id, true, title, description)), id);
      Dispatch(AddToast(Toast(id, true, title, description)));
    }

    /** The handle's `update(props)`: UPDATE_TOAST with the handle's id. */
    method UpdateHandle(id: int, props: ToastPatch)
      modifies this
      ensures toasts == Reduce(old(toasts), UpdateToast(props.(id := Some(id))))
      ensures |toasts| == |old(toasts)|
      ensures forall i :: 0 <= i < |toasts| ==> toasts[i].id == old(toasts)[i].id
    {
      Dispatch(UpdateToast(props.(id := Some(id))));
    }

    /** The handle's `dismiss()`: DISMISS_TOAST with the handle's id. */
    method DismissHandle(id: int)
      modifies this
      ensures toasts == Reduce(old(toasts), DismissToast(Some(id)))
      ensures id == 0 ==> forall i :: 0 <= i < |toasts| ==> !toasts[i].open
    {
      Dispatch(DismissToast(Some(id)));
    }
  }
}
