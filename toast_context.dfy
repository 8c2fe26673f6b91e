/**
 * The toast notification bus: an ordered list of notifications held by the
 * provider, with `showToast` appending one entry and `removeToast` filtering
 * out every entry with a given id.
 */
module ToastContext {
  import opened Wrappers

  datatype ToastType = Success | Error | Info | Warning

  /** What a caller hands to `showToast`: a notification without its id. */
  datatype ToastProps = ToastProps(kind: ToastType, title: string, message: Option<string>, duration: Option<nat>)

  /**
   * A notification on the bus. Every entry's close callback is the provider's
   * own `removeToast`, so it is not stored.
   */
  datatype Toast = Toast(id: string, props: ToastProps)

  /** The number of entries carrying `id`; ids are random and may repeat. */
  function CountId(toasts: seq<Toast>, id: string): (n: nat)
    ensures n <= |toasts|
  {
    if toasts == [] then 0
    else (if toasts[0].id == id then 1 else 0) + CountId(toasts[1..], id)
  }

  /** `toasts.filter(toast => toast.id !== id)`. */
  function Without(toasts: seq<Toast>, id: string): (r: seq<Toast>)
    ensures forall i :: 0 <= i < |r| ==> r[i].id != id
    ensures |r| == |toasts| - CountId(toasts, id)
  {
    if toasts == [] then []
    else if toasts[0].id == id then Without(toasts[1..], id)
    else [toasts[0]] + Without(toasts[1..], id)
  }

  /** `r` is `s` with some entries dropped and the rest kept in their order. */
  ghost predicate IsSubsequence(r: seq<Toast>, s: seq<Toast>)
    decreases |s|
  {
    if r == [] then true
    else if s == [] then false
    else (r[0] == s[0] && IsSubsequence(r[1..], s[1..])) || IsSubsequence(r, s[1..])
  }

  /** The survivors of a removal keep their original relative order. */
  lemma {:induction false} WithoutIsSubsequence(toasts: seq<Toast>, id: string)
    ensures IsSubsequence(Without(toasts, id), toasts)
  {
    if toasts != [] {
      WithoutIsSubsequence(toasts[1..], id);
      var r := Without(toasts, id);
      if toasts[0].id != id {
        assert r[0] == toasts[0] && r[1..] == Without(toasts[1..], id);
      }
    }
  }

  /** Every entry with another id survives, as often as it occurred; none with `id` does. */
  lemma {:induction false} WithoutKeepsOthers(toasts: seq<Toast>, id: string)
    ensures forall t :: multiset(Without(toasts, id))[t] == if t.id == id then 0 else multiset(toasts)[t]
  {
    if toasts != [] {
      WithoutKeepsOthers(toasts[1..], id);
      assert toasts == [toasts[0]] + toasts[1..];
      assert multiset(toasts) == multiset([toasts[0]]) + multiset(toasts[1..]);
    }
  }

  /** Removing an id that no entry carries changes nothing. */
  lemma {:induction false} WithoutAbsentId(toasts: seq<Toast>, id: string)
    requires forall i :: 0 <= i < |toasts| ==> toasts[i].id != id
    ensures Without(toasts, id) == toasts
  {
    if toasts != [] {
      WithoutAbsentId(toasts[1..], id);
      assert toasts == [toasts[0]] + toasts[1..];
    }
  }

  /** Removing the same id twice is the same as removing it once. */
  lemma {:induction false} WithoutIdempotent(toasts: seq<Toast>, id: string)
    ensures Without(Without(toasts, id), id) == Without(toasts, id)
  {
    WithoutAbsentId(Without(toasts, id), id);
  }

  /** Removal works entry by entry: it distributes over concatenation. */
  lemma {:induction false} WithoutAppend(a: seq<Toast>, b: seq<Toast>, id: string)
    ensures Without(a + b, id) == Without(a, id) + Without(b, id)
  {
    if a == [] {
      assert a + b == b;
    } else {
      var ab := a + b;
      assert ab[0] == a[0] && ab[1..] == a[1..] + b;
      WithoutAppend(a[1..], b, id);
      if a[0].id == id {
        assert Without(ab, id) == Without(a[1..] + b, id);
      } else {
        assert Without(ab, id) == [a[0]] + Without(a[1..] + b, id);
        assert Without(a, id) == [a[0]] + Without(a[1..], id);
      }
    }
  }

  /** Removals of two ids can be done in either order. */
  lemma {:induction false} WithoutCommutes(toasts: seq<Toast>, id1: string, id2: string)
    ensures Without(Without(toasts, id1), id2) == Without(Without(toasts, id2), id1)
  {
    if toasts != [] {
      WithoutCommutes(toasts[1..], id1, id2);
    }
  }

  /**
   * The close callback of a freshly shown toast removes it again, together with
   * any older entry that happens to carry the same id; a removal of another id
   * leaves the new entry last.
   */
  lemma CloseAfterShow(toasts: seq<Toast>, props: ToastProps, id: string, other: string)
    requires other != id
    ensures Without(toasts + [Toast(id, props)], id) == Without(toasts, id)
    ensures Without(toasts + [Toast(id, props)], other) == Without(toasts, other) + [Toast(id, props)]
  {
    WithoutAppend(toasts, [Toast(id, props)], id);
    WithoutAppend(toasts, [Toast(id, props)], other);
    assert [Toast(id, props)][1..] == [];
  }

  /** The provider's state: the list of notifications currently on screen. */
  class ToastProvider {
    var toasts: seq<Toast>

    constructor ()
      ensures toasts == []
    {
      toasts := [];
    }

    /** Appends one notification with the given id (the source draws it at random). */
    method ShowToast(props: ToastProps, id: string)
      modifies this
      ensures toasts == old(toasts) + [Toast(id, props)]
      ensures |toasts| == |old(toasts)| + 1 && toasts[|old(toasts)|] == Toast(id, props)
      ensures forall i :: 0 <= i < |old(toasts)| ==> toasts[i] == old(toasts)[i]
    {
      toasts := toasts + [Toast(id, props)];
    }

    /** Drops every notification with the given id; the others keep their order. */
    method RemoveToast(id: string)
      modifies this
      ensures toasts == Without(old(toasts), id)
      ensures forall i :: 0 <= i < |toasts| ==> toasts[i].id != id
      ensures |toasts| == |old(toasts)| - CountId(old(toasts), id)
      ensures IsSubsequence(toasts, old(toasts))
      ensures forall t: Toast :: t.id != id ==> multiset(toasts)[t] == multiset(old(toasts))[t]
      ensures (forall i :: 0 <= i < |old(toasts)| ==> old(toasts)[i].id != id) ==> toasts == old(toasts)
    {
      WithoutIsSubsequence(toasts, id);
      WithoutKeepsOthers(toasts, id);
      if forall i :: 0 <= i < |toasts| ==> toasts[i].id != id {
        WithoutAbsentId(toasts, id);
      }
      toasts := Without(toasts, id);
    }
  }

  const OutsideProviderMessage := "useToast must be used within a ToastProvider"

  /** Looks up the enclosing provider; outside one it throws instead of returning. */
  function UseToast(context: Option<ToastProvider>): (r: Result<ToastProvider, string>)
    ensures r.Err? <==> context.None?
    ensures r.Err? ==> r.error == OutsideProviderMessage
    ensures r.Ok? ==> r.value == context.value
  {
    match context
    case None => Err(OutsideProviderMessage)
    case Some(provider) => Ok(provider)
  }
}
