/**
 * The toast notification queue: `addToast` appends a toast under a fresh id
 * taken from a counter, and `removeToast` (also run when a toast's timer
 * expires) filters the toasts with a given id out of the list.
 */
module Toast {
  import opened Wrappers

  datatype ToastType = Success | Error | Warning | Info

  /** A queued toast; `kind` is the optional `type` field of the source's record. */
  datatype Toast = Toast(id: nat, message: string, kind: Option<ToastType>, duration: int)

  const DefaultDuration := 6000

  /** The toast `addToast(message, { type: kind })` queues under the id `id`. */
  function Issued(id: nat, message: string, kind: ToastType): Toast {
    Toast(id, message, Some(kind), DefaultDuration)
  }

  /** Ids strictly increase along the list. */
  ghost predicate IdsIncreasing(ts: seq<Toast>) {
    forall i, j :: 0 <= i < j < |ts| ==> ts[i].id < ts[j].id
  }

  /** `ts.filter((t) => t.id !== id)`. */
  function Without(ts: seq<Toast>, id: nat): (r: seq<Toast>)
    ensures |r| <= |ts|
    ensures forall t :: t in r <==> t in ts && t.id != id
  {
    if ts == [] then []
    else if ts[0].id == id then Without(ts[1..], id)
    else [ts[0]] + Without(ts[1..], id)
  }

  /** With increasing ids, the first toast's id is below every later toast's. */
  lemma HeadBelowTail(ts: seq<Toast>)
    requires ts != [] && IdsIncreasing(ts)
    ensures forall t :: t in ts[1..] ==> ts[0].id < t.id
  {
    forall t | t in ts[1..] ensures ts[0].id < t.id {
      var k :| 0 <= k < |ts[1..]| && ts[1..][k] == t;
      assert ts[k + 1] == t;
    }
  }

  /** Filtering keeps the remaining toasts in their order, so increasing ids stay increasing. */
  lemma {:induction false} WithoutKeepsOrder(ts: seq<Toast>, id: nat)
    requires IdsIncreasing(ts)
    ensures IdsIncreasing(Without(ts, id))
  {
    if ts != [] {
      assert IdsIncreasing(ts[1..]);
      WithoutKeepsOrder(ts[1..], id);
      var rest := Without(ts[1..], id);
      if ts[0].id != id {
        HeadBelowTail(ts);
        var r := [ts[0]] + rest;
        forall i, j | 0 <= i < j < |r| ensures r[i].id < r[j].id {
          assert r[j] == rest[j - 1] && rest[j - 1] in rest;
          if i > 0 {
            assert r[i] == rest[i - 1];
          }
        }
      }
    }
  }

  /** Removing an id that no toast carries leaves the list unchanged. */
  lemma {:induction false} WithoutAbsentId(ts: seq<Toast>, id: nat)
    requires forall t :: t in ts ==> t.id != id
    ensures Without(ts, id) == ts
  {
    if ts != [] {
      assert ts[0] in ts;
      WithoutAbsentId(ts[1..], id);
      assert ts == [ts[0]] + ts[1..];
    }
  }

  /** Removal is idempotent: a toast removed by hand is not removed again when its timer fires. */
  lemma RemoveTwiceIsRemoveOnce(ts: seq<Toast>, id: nat)
    ensures Without(Without(ts, id), id) == Without(ts, id)
  {
    WithoutAbsentId(Without(ts, id), id);
  }

  /** With increasing ids, removing an id that is present drops exactly one toast. */
  lemma {:induction false} RemoveDropsOne(ts: seq<Toast>, id: nat)
    requires IdsIncreasing(ts)
    requires exists t :: t in ts && t.id == id
    ensures |Without(ts, id)| == |ts| - 1
  {
    if ts[0].id == id {
      forall t | t in ts[1..] ensures t.id != id {
        var k :| 0 <= k < |ts[1..]| && ts[1..][k] == t;
        assert ts[k + 1] == t;
      }
      WithoutAbsentId(ts[1..], id);
    } else {
      var t :| t in ts && t.id == id;
      assert t in ts[1..] by { assert t != ts[0]; }
      assert IdsIncreasing(ts[1..]);
      RemoveDropsOne(ts[1..], id);
    }
  }

  /** The type's name as the source spells it. */
  function TypeName(t: ToastType): string {
    match t
    case Success => "success"
    case Error => "error"
    case Warning => "warning"
    case Info => "info"
  }

  /** Upper-cases an ASCII letter (`toUpperCase` on the type names). */
  function UpperAscii(c: char): char {
    if 'a' <= c <= 'z' then (c as int - 32) as char else c
  }

  /** The style key of a toast: "toast" and the type with its first letter upper-cased, "toastSuccess" without a type. */
  function StyleKey(kind: Option<ToastType>): string {
    match kind
    case None => "toastSuccess"
    case Some(t) =>
      var name := TypeName(t);
      "toast" + [UpperAscii(name[0])] + name[1..]
  }

  /** A missing type is styled as success, and the four types get four different styles. */
  lemma StyleKeys()
    ensures StyleKey(None) == StyleKey(Some(Success)) == "toastSuccess"
    ensures StyleKey(Some(Error)) == "toastError"
    ensures StyleKey(Some(Warning)) == "toastWarning"
    ensures StyleKey(Some(Info)) == "toastInfo"
  {
  }

  class ToastProvider {
    /** The module-level `toastIdCounter`. */
    var counter: nat
    var toasts: seq<Toast>

    ghost predicate Valid()
      reads this
    {
      && IdsIncreasing(toasts)
      && (forall t :: t in toasts ==> t.id < counter && t.kind.Some?)
    }

    /** A fresh page: the counter at 0 and no toasts. */
    constructor ()
      ensures Valid() && counter == 0 && toasts == []
    {
      counter := 0;
      toasts := [];
    }

    /**
     * `addToast(message, { type, duration })`: appends one toast under the
     * current counter value, with "success" and 6000 ms for omitted options.
     */
    method AddToast(message: string, kind: Option<ToastType>, duration: Option<int>) returns (id: nat)
      requires Valid()
      modifies this
      ensures Valid()
      ensures id == old(counter) && counter == old(counter) + 1
      ensures toasts == old(toasts) + [Toast(id, message, Some(kind.GetOr(Success)), duration.GetOr(DefaultDuration))]
      ensures forall t :: t in old(toasts) ==> t.id < id
    {
      id := counter;
      counter := counter + 1;
      toasts := toasts + [Toast(id, message, Some(kind.GetOr(Success)), duration.GetOr(DefaultDuration))];
    }

    /** `removeToast(id)`, and the removal its timer performs: keeps the other toasts in order. */
    method RemoveToast(id: nat)
      requires Valid()
      modifies this
      ensures Valid()
      ensures toasts == Without(old(toasts), id) && counter == old(counter)
      ensures forall t :: t in toasts ==> t.id != id
    {
      WithoutKeepsOrder(toasts, id);
      toasts := Without(toasts, id);
    }
  }

  /** Every id handed out is distinct: two toasts added in a row get consecutive ids. */
  method AddTwice(p: ToastProvider, m1: string, m2: string) returns (a: nat, b: nat)
    requires p.Valid()
    modifies p
    ensures p.Valid() && a < b && b == a + 1
    ensures |p.toasts| == |old(p.toasts)| + 2
  {
    a := p.AddToast(m1, None, None);
    b := p.AddToast(m2, Some(Error), Some(3000));
  }
}
