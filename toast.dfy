/** The client's toast notifications: an ordered list of messages on screen.
    Adding a toast appends it and sets a timer that removes it again; closing
    it removes it at once. A toast's id is the clock reading, in
    milliseconds, when it was added, so two toasts added in the same
    millisecond share an id. */
module Toasts {
  import opened Seqs

  datatype ToastType = Success | Error | Info | Warning

  datatype Toast = Toast(id: int, message: string, kind: ToastType)

  /** How long a toast stays before its timer removes it. */
  const DisplayMillis: int := 3000

  function IdOf(t: Toast): int
  {
    t.id
  }

  /** The toasts left after removing every toast with id `id`. */
  function WithoutId(ts: seq<Toast>, id: int): (r: seq<Toast>)
    ensures |r| <= |ts|
    ensures forall t :: t in r <==> t in ts && t.id != id
  {
    var r := RemoveKey(ts, IdOf, id);
    assert forall t :: t in ts && t.id != id ==> t in r by {
      forall t | t in ts && t.id != id ensures t in r {
        var i :| 0 <= i < |ts| && ts[i] == t;
      }
    }
    r
  }

  /** Removing the same id twice removes no more than removing it once. */
  lemma RemoveIdempotent(ts: seq<Toast>, id: int)
    ensures WithoutId(WithoutId(ts, id), id) == WithoutId(ts, id)
  {
    RemoveKeyIdempotent(ts, IdOf, id);
  }

  /** Removing an id no toast has leaves the list as it is. */
  lemma RemoveAbsent(ts: seq<Toast>, id: int)
    requires forall i :: 0 <= i < |ts| ==> ts[i].id != id
    ensures WithoutId(ts, id) == ts
  {
    RemoveKeyAbsent(ts, IdOf, id);
  }

  /** Removing an id keeps the other toasts in the order they were in:
      the removal splits over any split of the list. */
  lemma RemoveKeepsOrder(a: seq<Toast>, b: seq<Toast>, id: int)
    ensures WithoutId(a + b, id) == WithoutId(a, id) + WithoutId(b, id)
  {
    RemoveKeyAppend(a, b, IdOf, id);
  }

  /** Two toasts added in the same millisecond share an id, so one removal
      takes both away, together with any older toast of that id. */
  lemma SameMillisecondCollision(ts: seq<Toast>, now: int, m1: string, k1: ToastType, m2: string, k2: ToastType)
    ensures WithoutId(ts + [Toast(now, m1, k1)] + [Toast(now, m2, k2)], now) == WithoutId(ts, now)
  {
    RemoveKeepsOrder(ts + [Toast(now, m1, k1)], [Toast(now, m2, k2)], now);
    RemoveKeepsOrder(ts, [Toast(now, m1, k1)], now);
    assert WithoutId([Toast(now, m1, k1)], now) == [];
    assert WithoutId([Toast(now, m2, k2)], now) == [];
  }

  /** The `ToastProvider` state: the toasts on screen and the ids whose
      removal timers are set and have not fired yet. */
  class ToastQueue {
    var toasts: seq<Toast>
    var pending: seq<int>

    /** Every toast on screen has a timer that will remove it. */
    ghost predicate Valid()
      reads this
    {
      forall i :: 0 <= i < |toasts| ==> toasts[i].id in pending
    }

    constructor ()
      ensures Valid()
      ensures toasts == [] && pending == []
    {
      toasts, pending := [], [];
    }

    /** addToast: append the toast, with the clock reading as its id, and
        set its removal timer. */
    method AddToast(message: string, kind: ToastType, now: int)
      requires Valid()
      modifies this
      ensures Valid()
      ensures toasts == old(toasts) + [Toast(now, message, kind)]
      ensures pending == old(pending) + [now]
    {
      toasts := toasts + [Toast(now, message, kind)];
      pending := pending + [now];
    }

    /** removeToast: drop every toast with that id, keeping the rest in
        order; pending timers stay set. */
    method RemoveToast(id: int)
      requires Valid()
      modifies this
      ensures Valid()
      ensures toasts == WithoutId(old(toasts), id)
      ensures pending == old(pending)
    {
      toasts := WithoutId(toasts, id);
    }

    /** The `k`th pending timer fires and removes its id. Once no timer is
        left, no toast is left either. */
    method FireTimer(k: nat)
      requires Valid() && k < |pending|
      modifies this
      ensures Valid()
      ensures toasts == WithoutId(old(toasts), old(pending)[k])
      ensures pending == old(pending)[..k] + old(pending)[k + 1..]
      ensures pending == [] ==> toasts == []
    {
      var id := pending[k];
      var rest := pending[..k] + pending[k + 1..];
      var left := WithoutId(toasts, id);
      forall i | 0 <= i < |left| ensures left[i].id in rest {
        assert left[i] in toasts;
        var m :| 0 <= m < |pending| && pending[m] == left[i].id;
        if m < k {
          assert rest[m] == pending[m];
        } else {
          assert rest[m - 1] == pending[m];
        }
      }
      assert left != [] ==> left[0].id in rest;
      toasts, pending := left, rest;
    }
  }
}
