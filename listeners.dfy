/**
 * The listener set shared by both settings stores: a JavaScript `Set` of
 * callbacks, iterated in insertion order, and the calls a store makes to the
 * outside world when a setting changes.
 */
module Listeners {
  import opened JsValues

  /** A listener callback, known only by its identity (the function object). */
  datatype Listener = Listener(id: nat)

  /**
   * What `addListener` returns: a closure that deletes the listener it was
   * created for.
   */
  datatype Remover = Remover(listener: Listener)

  /** A call a settings store makes: `BdApi.saveData` or one listener invocation. */
  datatype Call =
    | SaveData(settings: Record<JsValue>)
    | Notify(listener: Listener, key: string, value: JsValue)

  /** A `Set` holds each element once. */
  predicate Distinct(ls: seq<Listener>) {
    forall i, j :: 0 <= i < j < |ls| ==> ls[i] != ls[j]
  }

  /** `set.add(l)`: a listener already present keeps its place, a new one goes last. */
  function Added(ls: seq<Listener>, l: Listener): (r: seq<Listener>)
    ensures forall m :: m in r <==> m in ls || m == l
    ensures Distinct(ls) ==> Distinct(r)
    ensures l in ls ==> r == ls
  {
    if l in ls then ls else ls + [l]
  }

  /** `set.delete(l)`: every other listener stays, in its order. */
  function Deleted(ls: seq<Listener>, l: Listener): (r: seq<Listener>)
    ensures forall m :: m in r <==> m in ls && m != l
    ensures Distinct(ls) ==> Distinct(r)
    ensures |r| <= |ls|
  {
    if ls == [] then []
    else if ls[0] == l then Deleted(ls[1..], l)
    else
      var rest := Deleted(ls[1..], l);
      assert Distinct(ls) ==> ls[0] !in ls[1..] && Distinct(ls[1..]) by {
        if Distinct(ls) {
          forall i | 0 <= i < |ls| - 1 ensures ls[1..][i] != ls[0] {
            assert ls[1..][i] == ls[i + 1];
          }
        }
      }
      [ls[0]] + rest
  }

  /** Deleting a listener that is not registered changes nothing. */
  lemma {:induction false} DeletedAbsent(ls: seq<Listener>, l: Listener)
    requires l !in ls
    ensures Deleted(ls, l) == ls
  {
    if ls != [] {
      DeletedAbsent(ls[1..], l);
      assert ls == [ls[0]] + ls[1..];
    }
  }

  /**
   * The remover returned for a new listener undoes exactly that `add`: the set
   * is as it was before, order included.
   */
  lemma {:induction false} RemoverUndoesAdd(ls: seq<Listener>, l: Listener)
    requires l !in ls
    ensures Deleted(Added(ls, l), l) == ls
  {
    if ls == [] {
      assert Deleted([l], l) == Deleted([], l);
    } else {
      assert (ls + [l])[1..] == ls[1..] + [l];
      RemoverUndoesAdd(ls[1..], l);
      assert ls == [ls[0]] + ls[1..];
    }
  }

  /** `for (const listener of listeners) listener(key, value)`, in insertion order. */
  function Notifications(ls: seq<Listener>, key: string, value: JsValue): (r: seq<Call>)
    ensures |r| == |ls|
    ensures forall i :: 0 <= i < |r| ==> r[i] == Notify(ls[i], key, value)
  {
    if ls == [] then [] else [Notify(ls[0], key, value)] + Notifications(ls[1..], key, value)
  }

  /** The loop that calls every registered listener with the changed key and its value. */
  method NotifyAll(ls: seq<Listener>, key: string, value: JsValue) returns (calls: seq<Call>)
    ensures calls == Notifications(ls, key, value)
  {
    calls := [];
    var i := 0;
    while i < |ls|
      invariant 0 <= i <= |ls| && |calls| == i
      invariant forall j :: 0 <= j < i ==> calls[j] == Notify(ls[j], key, value)
    {
      calls := calls + [Notify(ls[i], key, value)];
      i := i + 1;
    }
  }
}
