/**
 * The documents hub page: which sub-product is active, the hub's own toast queue that
 * every sub-product posts to, and the plans hub, which is mounted only while it is the
 * active one. A toast's id is the clock reading, in milliseconds, at the moment it was
 * added; the clock is a parameter.
 */
module DocumentsHubPage {
  import opened DocumentTypes
  import PlansHub

  /** The component each hub renders. */
  datatype HubApp = ShowPlans | ShowDecks | ShowProposals | ShowForms

  /** `renderActiveHub`: each hub dispatches to its own module. */
  function RenderHub(h: HubModule): (app: HubApp)
    ensures h == Plans <==> app == ShowPlans
    ensures h == Decks <==> app == ShowDecks
    ensures h == Proposals <==> app == ShowProposals
    ensures h == Forms <==> app == ShowForms
  {
    match h
    case Plans => ShowPlans
    case Decks => ShowDecks
    case Proposals => ShowProposals
    case Forms => ShowForms
  }

  /** The toasts whose id differs from `id`, in their original order. */
  function WithoutId(ts: seq<ToastMessage>, id: int): (r: seq<ToastMessage>)
    ensures |r| <= |ts|
  {
    if ts == [] then []
    else (if ts[0].id != id then [ts[0]] else []) + WithoutId(ts[1..], id)
  }

  /** A toast is kept exactly when its id differs. */
  lemma {:induction false} WithoutIdMembers(ts: seq<ToastMessage>, id: int)
    ensures forall t :: t in WithoutId(ts, id) <==> t in ts && t.id != id
    decreases |ts|
  {
    if ts != [] {
      WithoutIdMembers(ts[1..], id);
      assert ts == [ts[0]] + ts[1..];
    }
  }

  /** Removal works toast by toast: it distributes over concatenation, so what is kept
      stays in its original order. */
  lemma {:induction false} WithoutIdDistributes(a: seq<ToastMessage>, b: seq<ToastMessage>, id: int)
    ensures WithoutId(a + b, id) == WithoutId(a, id) + WithoutId(b, id)
    decreases |a|
  {
    if a == [] {
      assert a + b == b;
    } else {
      var head := if a[0].id != id then [a[0]] else [];
      assert (a + b)[0] == a[0];
      assert (a + b)[1..] == a[1..] + b;
      assert WithoutId(a + b, id) == head + WithoutId(a[1..] + b, id);
      WithoutIdDistributes(a[1..], b, id);
      assert WithoutId(a, id) == head + WithoutId(a[1..], id);
    }
  }

  /** Removing an id that no toast has changes nothing. */
  lemma {:induction false} WithoutAbsentId(ts: seq<ToastMessage>, id: int)
    requires forall t :: t in ts ==> t.id != id
    ensures WithoutId(ts, id) == ts
    decreases |ts|
  {
    if ts != [] {
      assert ts[0] in ts;
      assert forall t :: t in ts[1..] ==> t in ts;
      WithoutAbsentId(ts[1..], id);
      assert ts == [ts[0]] + ts[1..];
    }
  }

  /** Removing the same id twice is removing it once. */
  lemma WithoutIdIdempotent(ts: seq<ToastMessage>, id: int)
    ensures WithoutId(WithoutId(ts, id), id) == WithoutId(ts, id)
  {
    WithoutIdMembers(ts, id);
    WithoutAbsentId(WithoutId(ts, id), id);
  }

  /** Two toasts added in the same millisecond share their id, so closing either one
      closes both, and the rest of the queue is untouched. */
  lemma SameMillisecondToastsCloseTogether(ts: seq<ToastMessage>, now: int, m1: string, k1: ToastType, m2: string, k2: ToastType)
    ensures WithoutId(ts + [ToastMessage(now, m1, k1)] + [ToastMessage(now, m2, k2)], now) == WithoutId(ts, now)
  {
    var t1, t2 := ToastMessage(now, m1, k1), ToastMessage(now, m2, k2);
    WithoutIdDistributes(ts + [t1], [t2], now);
    WithoutIdDistributes(ts, [t1], now);
    assert WithoutId([t1], now) == [] && WithoutId([t2], now) == [];
  }

  /** The hub page's state. */
  class DocumentsHub {
    var activeHub: HubModule
    var toasts: seq<ToastMessage>
    /** The state of the plans hub; it is the mounted one while plans is the active hub. */
    var plans: PlansHub.PlansApp
    /** Generation timers started by a plans hub that has since been unmounted. */
    var orphanTimers: nat

    /** The page opens on a freshly mounted plans hub with no toasts. */
    constructor ()
      ensures activeHub == Plans && toasts == []
      ensures fresh(plans) && plans.Initial() && orphanTimers == 0
    {
      activeHub := Plans;
      toasts := [];
      plans := new PlansHub.PlansApp();
      orphanTimers := 0;
    }

    /** `addToast`: one toast, stamped with the current time, at the end of the queue. */
    method AddToast(message: string, kind: ToastType, now: int)
      modifies this
      ensures toasts == old(toasts) + [ToastMessage(now, message, kind)]
      ensures activeHub == old(activeHub) && plans == old(plans) && orphanTimers == old(orphanTimers)
    {
      toasts := toasts + [ToastMessage(now, message, kind)];
    }

    /** `removeToast`: the toasts with that id leave the queue. */
    method RemoveToast(id: int)
      modifies this
      ensures toasts == WithoutId(old(toasts), id)
      ensures activeHub == old(activeHub) && plans == old(plans) && orphanTimers == old(orphanTimers)
    {
      toasts := WithoutId(toasts, id);
    }

    /** A click on a hub's tab. Leaving plans unmounts the plans hub: its state is gone,
        but a generation timer it started stays pending. Coming back to plans mounts a
        fresh plans hub. */
    method SelectHub(h: HubModule)
      modifies this
      ensures activeHub == h && toasts == old(toasts)
      ensures old(activeHub) != Plans && h == Plans ==> fresh(plans) && plans.Initial()
      ensures !(old(activeHub) != Plans && h == Plans) ==> plans == old(plans)
      ensures orphanTimers == old(orphanTimers)
                + if old(activeHub) == Plans && h != Plans && old(plans.isLoading) then 1 else 0
    {
      if activeHub == Plans && h != Plans && plans.isLoading {
        orphanTimers := orphanTimers + 1;
      }
      if activeHub != Plans && h == Plans {
        plans := new PlansHub.PlansApp();
      }
      activeHub := h;
    }

    /** The mounted plans hub's generation timer fires: the plans hub shows the generated
        assumptions and its success toast joins the queue. */
    method PlansGenerationFinished(now: int)
      requires activeHub == Plans && plans.isLoading
      modifies this, plans
      ensures plans == old(plans)
      ensures plans.assumptions == PlansHub.MockAssumptions && plans.mode == ValidatedMode
      ensures !plans.isLoading && plans.formData == old(plans.formData)
      ensures toasts == old(toasts) + [ToastMessage(now, PlansHub.GeneratedMessage, Success)]
      ensures activeHub == old(activeHub) && orphanTimers == old(orphanTimers)
    {
      var t := plans.GenerationFinished();
      AddToast(t.message, t.kind, now);
    }

    /** The timer of an unmounted plans hub fires: the state it would update is gone, so
        only its success toast joins the queue. */
    method OrphanGenerationFinished(now: int)
      requires orphanTimers > 0
      modifies this
      ensures orphanTimers == old(orphanTimers) - 1
      ensures toasts == old(toasts) + [ToastMessage(now, PlansHub.GeneratedMessage, Success)]
      ensures activeHub == old(activeHub) && plans == old(plans)
    {
      orphanTimers := orphanTimers - 1;
      toasts := toasts + [ToastMessage(now, PlansHub.GeneratedMessage, Success)];
    }

    /** The mounted plans hub's close button: its dashboard is cleared and its info toast
        joins the queue. */
    method PlansClearAssumptions(now: int)
      requires activeHub == Plans
      modifies this, plans
      ensures plans == old(plans)
      ensures plans.assumptions == [] && plans.mode == FastTrack
      ensures plans.formData == old(plans.formData) && plans.isLoading == old(plans.isLoading)
      ensures toasts == old(toasts) + [ToastMessage(now, PlansHub.ClearedMessage, Info)]
      ensures activeHub == old(activeHub) && orphanTimers == old(orphanTimers)
    {
      var t := plans.ClearAssumptions();
      AddToast(t.message, t.kind, now);
    }

    /** The component shown for the active hub. */
    function RenderActiveHub(): HubApp
      reads this
    {
      RenderHub(activeHub)
    }
  }
}
