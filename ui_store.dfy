/** The interface store of `src/stores/useUIStore.js`: panel flags, the
    mobile sheet state and the toast queue, whose ids grow with every toast
    added. */
module UiStore {
  import opened Wrappers
  import opened BottomSheet

  /** A notification; `kind` is the source's `type` ('info', 'success',
      'error', ...). */
  datatype Toast = Toast(id: nat, message: string, kind: string)

  /** The kind a toast gets when the caller gives none. */
  const DefaultKind: string := "info"

  predicate IdsIncreasing(ts: seq<Toast>) {
    forall i, j :: 0 <= i < j < |ts| ==> ts[i].id < ts[j].id
  }

  predicate IdsAtMost(ts: seq<Toast>, bound: nat) {
    forall i :: 0 <= i < |ts| ==> ts[i].id <= bound
  }

  /** `toasts.filter(t => t.id !== id)`. */
  function WithoutId(ts: seq<Toast>, id: nat): (r: seq<Toast>)
    ensures forall t :: t in r <==> t in ts && t.id != id
    ensures |r| <= |ts|
  {
    if ts == [] then []
    else (if ts[0].id != id then [ts[0]] else []) + WithoutId(ts[1..], id)
  }

  lemma TailIncreasing(ts: seq<Toast>)
    requires ts != [] && IdsIncreasing(ts)
    ensures IdsIncreasing(ts[1..])
  {
    forall i, j | 0 <= i < j < |ts[1..]|
      ensures ts[1..][i].id < ts[1..][j].id
    {
      assert ts[1..][i] == ts[i + 1] && ts[1..][j] == ts[j + 1];
    }
  }

  lemma ConsIncreasing(t: Toast, rest: seq<Toast>)
    requires IdsIncreasing(rest)
    requires forall j :: 0 <= j < |rest| ==> t.id < rest[j].id
    ensures IdsIncreasing([t] + rest)
  {
    var r := [t] + rest;
    forall i, j | 0 <= i < j < |r|
      ensures r[i].id < r[j].id
    {
      assert r[j] == rest[j - 1];
      if i > 0 {
        assert r[i] == rest[i - 1];
      }
    }
  }

  /** Removing keeps the remaining toasts in their order: increasing ids
      stay increasing. */
  lemma {:induction false} WithoutIdKeepsOrder(ts: seq<Toast>, id: nat)
    requires IdsIncreasing(ts)
    ensures IdsIncreasing(WithoutId(ts, id))
    decreases |ts|
  {
    if ts != [] {
      var rest := WithoutId(ts[1..], id);
      TailIncreasing(ts);
      WithoutIdKeepsOrder(ts[1..], id);
      if ts[0].id != id {
        forall j | 0 <= j < |rest|
          ensures ts[0].id < rest[j].id
        {
          assert rest[j] in ts[1..];
          var k :| 0 <= k < |ts[1..]| && ts[1..][k] == rest[j];
          assert ts[k + 1] == rest[j];
        }
        ConsIncreasing(ts[0], rest);
      } else {
        assert WithoutId(ts, id) == rest;
      }
    }
  }

  /** Removing twice is removing once. */
  lemma {:induction false} WithoutIdIdempotent(ts: seq<Toast>, id: nat)
    ensures WithoutId(WithoutId(ts, id), id) == WithoutId(ts, id)
    decreases |ts|
  {
    if ts != [] {
      var rest := WithoutId(ts[1..], id);
      WithoutIdIdempotent(ts[1..], id);
      if ts[0].id != id {
        var r := [ts[0]] + rest;
        assert WithoutId(ts, id) == r;
        assert r[0] == ts[0] && r[1..] == rest;
        assert WithoutId(r, id) == [ts[0]] + WithoutId(rest, id);
      } else {
        assert WithoutId(ts, id) == [] + rest == rest;
      }
    }
  }

  /** Removing an id no toast carries changes nothing. */
  lemma {:induction false} WithoutAbsentId(ts: seq<Toast>, id: nat)
    requires forall i :: 0 <= i < |ts| ==> ts[i].id != id
    ensures WithoutId(ts, id) == ts
    decreases |ts|
  {
    if ts != [] {
      assert ts[0].id != id;
      WithoutAbsentId(ts[1..], id);
      assert [ts[0]] + ts[1..] == ts;
    }
  }

  /** Filtering distributes over concatenation. */
  lemma {:induction false} WithoutIdAppend(a: seq<Toast>, b: seq<Toast>, id: nat)
    ensures WithoutId(a + b, id) == WithoutId(a, id) + WithoutId(b, id)
    decreases |a|
  {
    if a == [] {
      assert a + b == b;
    } else {
      assert (a + b)[0] == a[0] && (a + b)[1..] == a[1..] + b;
      WithoutIdAppend(a[1..], b, id);
    }
  }

  /** The auto-removal undoes the append: removing the id just issued
      leaves the queue as it was before the toast was added. */
  lemma AddedToastRemovable(ts: seq<Toast>, bound: nat, t: Toast)
    requires IdsAtMost(ts, bound) && t.id == bound + 1
    ensures WithoutId(ts + [t], t.id) == ts
  {
    WithoutIdAppend(ts, [t], t.id);
    WithoutAbsentId(ts, t.id);
    assert WithoutId([t], t.id) == [];
  }

  class Store {
    var isSidebarOpen: bool
    var isLegendOpen: bool
    var isHelpOpen: bool
    var mobileSheetState: SheetState
    var toasts: seq<Toast>
    var toastIdRef: nat

    /** Ids in the queue increase and none exceeds the last id issued. */
    predicate Valid()
      reads this
    {
      IdsIncreasing(toasts) && IdsAtMost(toasts, toastIdRef)
    }

    constructor ()
      ensures isSidebarOpen && !isLegendOpen && !isHelpOpen && mobileSheetState == Collapsed
      ensures toasts == [] && toastIdRef == 0
      ensures Valid()
    {
      isSidebarOpen := true;
      isLegendOpen := false;
      isHelpOpen := false;
      mobileSheetState := Collapsed;
      toasts := [];
      toastIdRef := 0;
    }

    method ToggleSidebar()
      modifies this
      ensures isSidebarOpen == !old(isSidebarOpen)
      ensures isLegendOpen == old(isLegendOpen) && isHelpOpen == old(isHelpOpen)
      ensures mobileSheetState == old(mobileSheetState)
      ensures toasts == old(toasts) && toastIdRef == old(toastIdRef)
    {
      isSidebarOpen := !isSidebarOpen;
    }

    method SetSidebarOpen(isOpen: bool)
      modifies this
      ensures isSidebarOpen == isOpen
      ensures isLegendOpen == old(isLegendOpen) && isHelpOpen == old(isHelpOpen)
      ensures mobileSheetState == old(mobileSheetState)
      ensures toasts == old(toasts) && toastIdRef == old(toastIdRef)
    {
      isSidebarOpen := isOpen;
    }

    method SetLegendOpen(isOpen: bool)
      modifies this
      ensures isLegendOpen == isOpen
      ensures isSidebarOpen == old(isSidebarOpen) && isHelpOpen == old(isHelpOpen)
      ensures mobileSheetState == old(mobileSheetState)
      ensures toasts == old(toasts) && toastIdRef == old(toastIdRef)
    {
      isLegendOpen := isOpen;
    }

    method SetHelpOpen(isOpen: bool)
      modifies this
      ensures isHelpOpen == isOpen
      ensures isSidebarOpen == old(isSidebarOpen) && isLegendOpen == old(isLegendOpen)
      ensures mobileSheetState == old(mobileSheetState)
      ensures toasts == old(toasts) && toastIdRef == old(toastIdRef)
    {
      isHelpOpen := isOpen;
    }

    method SetMobileSheetState(s: SheetState)
      modifies this
      ensures mobileSheetState == s
      ensures isSidebarOpen == old(isSidebarOpen) && isLegendOpen == old(isLegendOpen)
      ensures isHelpOpen == old(isHelpOpen)
      ensures toasts == old(toasts) && toastIdRef == old(toastIdRef)
    {
      mobileSheetState := s;
    }

    /** `addToast(message, type = 'info')`: append a toast with the next id.
        The timer that later removes it is a separate `RemoveToast` call. */
    method AddToast(message: string, kind: Option<string>)
      requires Valid()
      modifies this
      ensures toastIdRef == old(toastIdRef) + 1
      ensures toasts == old(toasts) + [Toast(toastIdRef, message, kind.GetOr(DefaultKind))]
      ensures isSidebarOpen == old(isSidebarOpen) && isLegendOpen == old(isLegendOpen)
      ensures isHelpOpen == old(isHelpOpen) && mobileSheetState == old(mobileSheetState)
      ensures Valid()
    {
      var id := toastIdRef + 1;
      var t := Toast(id, message, kind.GetOr(DefaultKind));
      toasts := toasts + [t];
      toastIdRef := id;
    }

    /** `removeToast(id)`: drop exactly the toasts with this id. */
    method RemoveToast(id: nat)
      requires Valid()
      modifies this
      ensures toasts == WithoutId(old(toasts), id)
      ensures toastIdRef == old(toastIdRef)
      ensures isSidebarOpen == old(isSidebarOpen) && isLegendOpen == old(isLegendOpen)
      ensures isHelpOpen == old(isHelpOpen) && mobileSheetState == old(mobileSheetState)
      ensures Valid()
    {
      WithoutIdKeepsOrder(toasts, id);
      toasts := WithoutId(toasts, id);
    }

    /** `resetUI`: sidebar open, legend closed, sheet collapsed; the help
        flag and the toast queue are kept. */
    method ResetUI()
      modifies this
      ensures isSidebarOpen && !isLegendOpen && mobileSheetState == Collapsed
      ensures isHelpOpen == old(isHelpOpen)
      ensures toasts == old(toasts) && toastIdRef == old(toastIdRef)
    {
      isSidebarOpen := true;
      isLegendOpen := false;
      mobileSheetState := Collapsed;
    }
  }
}
