/** The toast notifications: a module-level queue of toasts and a list of mounted
    `Toaster` components that are sent a copy of the queue after every change. */
module Toaster {
  import Seqs
  import opened Wrappers

  datatype ToastType = Success | Error | Info

  datatype Toast = Toast(id: string, message: string, kind: ToastType)

  /** A mounted `Toaster`, standing for its `setToasts` callback. */
  type ListenerId = nat

  function IdIsNot(id: string): Toast -> bool {
    (t: Toast) => t.id != id
  }

  predicate HasId(ts: seq<Toast>, id: string) {
    exists i :: 0 <= i < |ts| && ts[i].id == id
  }

  /** `memoryToasts.filter(t => t.id !== id)`: every toast with the id goes, the
      others stay in order. */
  function WithoutId(ts: seq<Toast>, id: string): (r: seq<Toast>)
    ensures Seqs.IsSubsequence(r, ts)
    ensures forall t :: t in r <==> t in ts && t.id != id
    ensures forall t :: multiset(r)[t] == if t.id != id then multiset(ts)[t] else 0
  {
    Seqs.FilterIsSubsequence(ts, IdIsNot(id));
    Seqs.FilterMultiplicities(ts, IdIsNot(id));
    Seqs.Filter(ts, IdIsNot(id))
  }

  /** Dismissing an id no toast carries changes nothing. */
  lemma DismissUnknown(ts: seq<Toast>, id: string)
    requires !HasId(ts, id)
    ensures WithoutId(ts, id) == ts
  {
    forall t | t in ts ensures IdIsNot(id)(t) {
      var i :| 0 <= i < |ts| && ts[i] == t;
    }
    Seqs.FilterAll(ts, IdIsNot(id));
  }

  /** Pushing a toast with a fresh id and then dismissing that id gives back the
      queue as it was. */
  lemma PushThenDismiss(ts: seq<Toast>, t: Toast)
    requires !HasId(ts, t.id)
    ensures WithoutId(ts + [t], t.id) == ts
  {
    Seqs.FilterAppend(ts, [t], IdIsNot(t.id));
    DismissUnknown(ts, t.id);
    assert Seqs.Filter([t], IdIsNot(t.id)) == [];
  }

  function ListenerIsNot(l: ListenerId): ListenerId -> bool {
    (m: ListenerId) => m != l
  }

  /** The queue, the mounted toasters and what each of them was last sent (its
      `toasts` state). */
  class ToastCenter {
    var memoryToasts: seq<Toast>
    var listeners: seq<ListenerId>
    var views: map<ListenerId, seq<Toast>>

    /** Every mounted toaster has a view. */
    predicate Valid()
      reads this
    {
      forall i :: 0 <= i < |listeners| ==> listeners[i] in views
    }

    constructor ()
      ensures memoryToasts == [] && listeners == [] && views == map[]
      ensures Valid()
    {
      memoryToasts := [];
      listeners := [];
      views := map[];
    }

    /** `notify`: every mounted toaster is sent a copy of the queue; the views of
        toasters no longer mounted are left alone. */
    method Notify()
      requires Valid()
      modifies this
      ensures Valid()
      ensures memoryToasts == old(memoryToasts) && listeners == old(listeners)
      ensures views.Keys == old(views.Keys)
      ensures forall i :: 0 <= i < |listeners| ==> views[listeners[i]] == memoryToasts
      ensures forall l :: l in views && l !in listeners ==> views[l] == old(views[l])
    {
      var i := 0;
      while i < |listeners|
        invariant 0 <= i <= |listeners|
        invariant memoryToasts == old(memoryToasts) && listeners == old(listeners)
        invariant views.Keys == old(views.Keys)
        invariant forall j :: 0 <= j < i ==> views[listeners[j]] == memoryToasts
        invariant forall l :: l in views && l !in listeners[..i] ==> views[l] == old(views[l])
      {
        views := views[listeners[i] := memoryToasts];
        i := i + 1;
      }
    }

    /** `toast.success(message)`, with the random id given. The auto-dismiss timer
        is a later call to `Dismiss`. */
    method ToastSuccess(id: string, message: string)
      requires Valid()
      modifies this
      ensures Valid()
      ensures memoryToasts == old(memoryToasts) + [Toast(id, message, Success)]
      ensures listeners == old(listeners)
      ensures views.Keys == old(views.Keys)
      ensures forall i :: 0 <= i < |listeners| ==> views[listeners[i]] == memoryToasts
      ensures forall l :: l in views && l !in listeners ==> views[l] == old(views[l])
    {
      memoryToasts := memoryToasts + [Toast(id, message, Success)];
      Notify();
    }

    /** `toast.error(message)`. */
    method ToastError(id: string, message: string)
      requires Valid()
      modifies this
      ensures Valid()
      ensures memoryToasts == old(memoryToasts) + [Toast(id, message, Error)]
      ensures listeners == old(listeners)
      ensures views.Keys == old(views.Keys)
      ensures forall i :: 0 <= i < |listeners| ==> views[listeners[i]] == memoryToasts
      ensures forall l :: l in views && l !in listeners ==> views[l] == old(views[l])
    {
      memoryToasts := memoryToasts + [Toast(id, message, Error)];
      Notify();
    }

    /** `toast.dismiss(id)`. */
    method Dismiss(id: string)
      requires Valid()
      modifies this
      ensures Valid()
      ensures memoryToasts == WithoutId(old(memoryToasts), id)
      ensures listeners == old(listeners)
      ensures views.Keys == old(views.Keys)
      ensures forall i :: 0 <= i < |listeners| ==> views[listeners[i]] == memoryToasts
      ensures forall l :: l in views && l !in listeners ==> views[l] == old(views[l])
    {
      memoryToasts := WithoutId(memoryToasts, id);
      Notify();
    }

    /** Mounting a `Toaster`: its callback joins the list and it sees the queue from
        the next notification on. A new toaster's state starts empty; a callback
        already listed keeps the state it has and is listed once more. */
    method Subscribe(l: ListenerId)
      requires Valid()
      modifies this
      ensures Valid()
      ensures listeners == old(listeners) + [l]
      ensures l in old(views) ==> views == old(views)
      ensures l !in old(views) ==> views == old(views)[l := []]
      ensures memoryToasts == old(memoryToasts)
    {
      if l !in views {
        views := views[l := []];
      }
      listeners := listeners + [l];
    }

    /** Unmounting: every entry of that callback leaves the list. */
    method Unsubscribe(l: ListenerId)
      requires Valid()
      modifies this
      ensures Valid()
      ensures listeners == Seqs.Filter(old(listeners), ListenerIsNot(l)) && l !in listeners
      ensures views == old(views) - {l} && memoryToasts == old(memoryToasts)
    {
      listeners := Seqs.Filter(listeners, ListenerIsNot(l));
      views := views - {l};
    }

    /** What a mounted toaster draws: nothing for an empty list, else its toasts. */
    function Render(l: ListenerId): (r: Option<seq<Toast>>)
      requires l in views
      reads this
      ensures r.None? <==> views[l] == []
      ensures r.Some? ==> r.value == views[l]
    {
      if views[l] == [] then None else Some(views[l])
    }
  }

  /** A success toast followed by its dismissal: the queue is back where it was,
      every mounted toaster is sent the old queue, and the listeners and the views
      of unmounted toasters are as before. */
  method ToastThenDismiss(c: ToastCenter, id: string, message: string)
    requires c.Valid() && !HasId(c.memoryToasts, id)
    modifies c
    ensures c.Valid() && c.memoryToasts == old(c.memoryToasts)
    ensures forall i :: 0 <= i < |c.listeners| ==> c.views[c.listeners[i]] == old(c.memoryToasts)
    ensures c.listeners == old(c.listeners) && c.views.Keys == old(c.views.Keys)
    ensures forall l :: l in c.views && l !in c.listeners ==> c.views[l] == old(c.views[l])
  {
    c.ToastSuccess(id, message);
    c.Dismiss(id);
    PushThenDismiss(old(c.memoryToasts), Toast(id, message, Success));
  }
}
