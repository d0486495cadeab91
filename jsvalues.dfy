/**
 * JavaScript values as they reach the bundler from configuration files,
 * manifests and the command line, and JavaScript objects as ordered lists of
 * (key, value) pairs in insertion order, with the spread `{...a, ...b}`,
 * property assignment `o[k] = v` and `delete o[k]`.
 */
module JsValues {
  import opened Wrappers
  import Text

  /** An untyped JavaScript value; a function is known only by its source text. */
  datatype JsValue =
    | Undefined
    | Null
    | Bool(b: bool)
    | Num(n: int)
    | Str(s: string)
    | Arr(items: seq<JsValue>)
    | Obj(fields: seq<(string, JsValue)>)
    | Fn(source: string)

  /** JavaScript truthiness. */
  predicate Truthy(v: JsValue) {
    match v
    case Undefined => false
    case Null => false
    case Bool(b) => b
    case Num(n) => n != 0
    case Str(s) => s != []
    case _ => true
  }

  /** The values `??` and `?.` skip. */
  predicate Nullish(v: JsValue) {
    v.Undefined? || v.Null?
  }

  /** `a ?? b` */
  function Coalesce(a: JsValue, b: JsValue): (r: JsValue)
    ensures !Nullish(a) ==> r == a
    ensures Nullish(a) ==> r == b
  {
    if Nullish(a) then b else a
  }

  /** `a || b` */
  function Or(a: JsValue, b: JsValue): (r: JsValue)
    ensures Truthy(a) ==> r == a
    ensures !Truthy(a) ==> r == b
  {
    if Truthy(a) then a else b
  }

  /** An object's own properties in insertion order. */
  type Record<V> = seq<(string, V)>

  /** `Object.keys(o)` */
  function Keys<V>(r: Record<V>): seq<string> {
    if r == [] then [] else [r[0].0] + Keys(r[1..])
  }

  /** `k in o` */
  predicate HasKey<V>(r: Record<V>, k: string) {
    r != [] && (r[0].0 == k || HasKey(r[1..], k))
  }

  /** No key occurs twice, as in every JavaScript object. */
  predicate Unique<V>(r: Record<V>) {
    r == [] || (!HasKey(r[1..], r[0].0) && Unique(r[1..]))
  }

  lemma {:induction false} HasKeyIndex<V>(r: Record<V>, k: string)
    ensures HasKey(r, k) <==> exists i :: 0 <= i < |r| && r[i].0 == k
  {
    if r != [] {
      HasKeyIndex(r[1..], k);
      if HasKey(r[1..], k) {
        var i :| 0 <= i < |r[1..]| && r[1..][i].0 == k;
        assert r[i + 1].0 == k;
      }
      if exists i :: 0 <= i < |r| && r[i].0 == k {
        var i :| 0 <= i < |r| && r[i].0 == k;
        if i > 0 {
          assert r[1..][i - 1].0 == k;
        }
      }
    }
  }

  /** Uniqueness, pairwise. */
  lemma {:induction false} UniqueIndex<V>(r: Record<V>)
    ensures Unique(r) <==> forall i, j :: 0 <= i < j < |r| ==> r[i].0 != r[j].0
  {
    if r != [] {
      UniqueIndex(r[1..]);
      HasKeyIndex(r[1..], r[0].0);
      if forall i, j :: 0 <= i < j < |r| ==> r[i].0 != r[j].0 {
        assert forall i, j :: 0 <= i < j < |r[1..]| ==> r[1..][i].0 != r[1..][j].0 by {
          forall i, j | 0 <= i < j < |r[1..]| ensures r[1..][i].0 != r[1..][j].0 {
            assert r[1..][i] == r[i + 1] && r[1..][j] == r[j + 1];
          }
        }
        assert !HasKey(r[1..], r[0].0) by {
          forall i | 0 <= i < |r[1..]| ensures r[1..][i].0 != r[0].0 {
            assert r[1..][i] == r[i + 1];
          }
        }
      }
      if Unique(r) {
        forall i, j | 0 <= i < j < |r| ensures r[i].0 != r[j].0 {
          if i == 0 {
            assert r[1..][j - 1] == r[j];
          } else {
            assert r[1..][i - 1] == r[i] && r[1..][j - 1] == r[j];
          }
        }
      }
    }
  }

  lemma {:induction false} KeysHasKey<V>(r: Record<V>, k: string)
    ensures |Keys(r)| == |r|
    ensures HasKey(r, k) <==> k in Keys(r)
  {
    if r != [] {
      KeysHasKey(r[1..], k);
    }
  }

  /** `o[k]`, with `None` for a missing property. */
  function Get<V>(r: Record<V>, k: string): (v: Option<V>)
    ensures v.Some? <==> HasKey(r, k)
  {
    if r == [] then None
    else if r[0].0 == k then Some(r[0].1)
    else Get(r[1..], k)
  }

  /** `o[k]` on an object of JavaScript values, `undefined` when missing. */
  function Prop(r: Record<JsValue>, k: string): JsValue {
    match Get(r, k)
    case Some(v) => v
    case None => Undefined
  }

  /** `v[k]` for any value: only objects have properties here. */
  function Member(v: JsValue, k: string): JsValue {
    if v.Obj? then Prop(v.fields, k) else Undefined
  }

  /** `o[k] = v`: an existing key keeps its place, a new one goes last. */
  function Put<V>(r: Record<V>, k: string, v: V): Record<V> {
    if r == [] then [(k, v)]
    else if r[0].0 == k then [(k, v)] + r[1..]
    else [r[0]] + Put(r[1..], k, v)
  }

  /** `delete o[k]` */
  function Delete<V>(r: Record<V>, k: string): (r': Record<V>)
    ensures !HasKey(r', k)
    ensures forall j :: j != k ==> Get(r', j) == Get(r, j)
  {
    if r == [] then []
    else if r[0].0 == k then Delete(r[1..], k)
    else [r[0]] + Delete(r[1..], k)
  }

  /** `{...a, ...b}`: `b`'s properties assigned in order onto a copy of `a`. */
  function Spread<V>(a: Record<V>, b: Record<V>): Record<V>
    decreases |b|
  {
    if b == [] then a else Spread(Put(a, b[0].0, b[0].1), b[1..])
  }

  /** After `o[k] = v`, `o[k]` is `v` and every other property is as before. */
  lemma {:induction false} GetPut<V>(r: Record<V>, k: string, v: V, j: string)
    ensures Get(Put(r, k, v), j) == if j == k then Some(v) else Get(r, j)
  {
    if r != [] && r[0].0 != k {
      GetPut(r[1..], k, v, j);
    }
  }

  /** The first property with a key is the one `o[k]` reads. */
  lemma {:induction false} GetIndex<V>(r: Record<V>, i: nat)
    requires i < |r| && forall j :: 0 <= j < i ==> r[j].0 != r[i].0
    ensures Get(r, r[i].0) == Some(r[i].1)
  {
    if i > 0 {
      GetIndex(r[1..], i - 1);
    }
  }

  /** Appending a property whose key is new, or is not the one looked up. */
  lemma {:induction false} GetAppend<V>(r: Record<V>, e: (string, V), k: string)
    requires !HasKey(r, e.0) || e.0 != k
    ensures Get(r + [e], k) == if HasKey(r, k) then Get(r, k) else if e.0 == k then Some(e.1) else None
  {
    if r != [] {
      assert (r + [e])[1..] == r[1..] + [e];
      if r[0].0 != k {
        GetAppend(r[1..], e, k);
      }
    }
  }

  /** An assignment keeps the key order and appends a new key. */
  lemma {:induction false} PutKeys<V>(r: Record<V>, k: string, v: V)
    ensures Keys(Put(r, k, v)) == if HasKey(r, k) then Keys(r) else Keys(r) + [k]
  {
    if r != [] && r[0].0 != k {
      PutKeys(r[1..], k, v);
    }
  }

  lemma PutHasKey<V>(r: Record<V>, k: string, v: V, j: string)
    ensures HasKey(Put(r, k, v), j) <==> j == k || HasKey(r, j)
  {
    GetPut(r, k, v, j);
  }

  lemma {:induction false} PutUnique<V>(r: Record<V>, k: string, v: V)
    requires Unique(r)
    ensures Unique(Put(r, k, v))
  {
    if r != [] && r[0].0 != k {
      PutUnique(r[1..], k, v);
      PutHasKey(r[1..], k, v, r[0].0);
      assert Put(r, k, v)[1..] == Put(r[1..], k, v);
    }
  }

  /** Precedence of the spread: a key of `b` takes `b`'s value, every other key keeps `a`'s. */
  lemma {:induction false} SpreadGet<V>(a: Record<V>, b: Record<V>, k: string)
    requires Unique(b)
    ensures Get(Spread(a, b), k) == if HasKey(b, k) then Get(b, k) else Get(a, k)
    decreases |b|
  {
    if b != [] {
      SpreadGet(Put(a, b[0].0, b[0].1), b[1..], k);
      GetPut(a, b[0].0, b[0].1, k);
    }
  }

  /** The spread has exactly the keys of `a` and of `b`. */
  lemma {:induction false} SpreadHasKey<V>(a: Record<V>, b: Record<V>, k: string)
    ensures HasKey(Spread(a, b), k) <==> HasKey(a, k) || HasKey(b, k)
    decreases |b|
  {
    if b != [] {
      SpreadHasKey(Put(a, b[0].0, b[0].1), b[1..], k);
      PutHasKey(a, b[0].0, b[0].1, k);
    }
  }

  /** The spread keeps `a`'s keys first, in their order. */
  lemma {:induction false} SpreadKeysPrefix<V>(a: Record<V>, b: Record<V>)
    ensures |Keys(a)| <= |Keys(Spread(a, b))| && Keys(Spread(a, b))[..|Keys(a)|] == Keys(a)
    decreases |b|
  {
    if b != [] {
      var a' := Put(a, b[0].0, b[0].1);
      SpreadKeysPrefix(a', b[1..]);
      PutKeys(a, b[0].0, b[0].1);
      assert Keys(a')[..|Keys(a)|] == Keys(a);
    }
  }

  lemma {:induction false} SpreadUnique<V>(a: Record<V>, b: Record<V>)
    requires Unique(a)
    ensures Unique(Spread(a, b))
    decreases |b|
  {
    if b != [] {
      PutUnique(a, b[0].0, b[0].1);
      SpreadUnique(Put(a, b[0].0, b[0].1), b[1..]);
    }
  }

  /** The assignment `o[k] = v` when there is one. */
  function Assign<V>(r: Record<V>, write: Option<(string, V)>): Record<V> {
    match write
    case Some(kv) => Put(r, kv.0, kv.1)
    case None => r
  }

  /** The assignments `o[k] = v` of `writes` applied in order onto `r`; `None` assigns nothing. */
  function AssignAll<V>(r: Record<V>, writes: seq<Option<(string, V)>>): Record<V> {
    if writes == [] then r
    else Assign(AssignAll(r, writes[..|writes| - 1]), writes[|writes| - 1])
  }

  /** One more assignment: `AssignAll` unfolded on its last write. */
  lemma AssignAllSnoc<V>(r: Record<V>, writes: seq<Option<(string, V)>>, w: Option<(string, V)>)
    ensures AssignAll(r, writes + [w]) == Assign(AssignAll(r, writes), w)
  {
    assert (writes + [w])[..|writes|] == writes;
  }

  /** The value of the last assignment to `k` in `writes`. */
  function LastWrite<V>(writes: seq<Option<(string, V)>>, k: string): Option<V> {
    if writes == [] then None
    else match writes[|writes| - 1]
      case Some(kv) => if kv.0 == k then Some(kv.1) else LastWrite(writes[..|writes| - 1], k)
      case None => LastWrite(writes[..|writes| - 1], k)
  }

  /** After a series of assignments a key holds its last assigned value, or what it held before. */
  lemma {:induction false} AssignAllGet<V>(r: Record<V>, writes: seq<Option<(string, V)>>, k: string)
    ensures Get(AssignAll(r, writes), k) == if LastWrite(writes, k).Some? then LastWrite(writes, k) else Get(r, k)
  {
    if writes != [] {
      var init := writes[..|writes| - 1];
      AssignAllGet(r, init, k);
      match writes[|writes| - 1]
      case Some(kv) => GetPut(AssignAll(r, init), kv.0, kv.1, k);
      case None =>
    }
  }

  /** A key has a last assignment exactly when some assignment writes it. */
  lemma {:induction false} LastWriteFound<V>(writes: seq<Option<(string, V)>>, k: string)
    ensures LastWrite(writes, k).Some? <==> exists i :: 0 <= i < |writes| && writes[i].Some? && writes[i].value.0 == k
  {
    if writes != [] {
      var init := writes[..|writes| - 1];
      LastWriteFound(init, k);
      assert forall i :: 0 <= i < |init| ==> init[i] == writes[i];
    }
  }

  /** Assigning never introduces a repeated key. */
  lemma {:induction false} AssignAllUnique<V>(r: Record<V>, writes: seq<Option<(string, V)>>)
    requires Unique(r)
    ensures Unique(AssignAll(r, writes))
  {
    if writes != [] {
      var init := writes[..|writes| - 1];
      AssignAllUnique(r, init);
      match writes[|writes| - 1]
      case Some(kv) => PutUnique(AssignAll(r, init), kv.0, kv.1);
      case None =>
    }
  }

  /** `String(v)` for the values that reach a template string. */
  function ToJsString(v: JsValue): string
    decreases v, if v.Arr? then |v.items| + 1 else 0
  {
    match v
    case Undefined => "undefined"
    case Null => "null"
    case Bool(b) => if b then "true" else "false"
    case Num(n) => if n < 0 then "-" + Text.NatToString(-n) else Text.NatToString(n)
    case Str(s) => s
    case Arr(items) => JoinItemsFrom(v, 0)
    case Obj(_) => "[object Object]"
    case Fn(source) => source
  }

  /** `items.slice(i).join(",")`, where `null` and `undefined` print as nothing. */
  function JoinItemsFrom(v: JsValue, i: nat): string
    requires v.Arr? && i <= |v.items|
    decreases v, |v.items| - i
  {
    if i == |v.items| then []
    else
      var first := if Nullish(v.items[i]) then [] else ToJsString(v.items[i]);
      if i + 1 == |v.items| then first else first + "," + JoinItemsFrom(v, i + 1)
  }

  /** Reading a property of `null` or `undefined` throws. */
  function PropertyOfNullish(v: JsValue, k: string): string {
    "TypeError: Cannot read properties of " + ToJsString(v) + " (reading '" + k + "')"
  }

  /** The enumerable own properties that `for...in` and the spread see. */
  function OwnProps(v: JsValue): Record<JsValue> {
    match v
    case Obj(fields) => fields
    case Str(s) => IndexedChars(s, 0)
    case Arr(items) => IndexedItems(items, 0)
    case _ => []
  }

  /** The properties "i", "i+1", ... of a string primitive. */
  function IndexedChars(s: string, i: nat): Record<JsValue>
    requires i <= |s|
    decreases |s| - i
  {
    if i == |s| then [] else [(Text.NatToString(i), Str([s[i]]))] + IndexedChars(s, i + 1)
  }

  /** The properties "i", "i+1", ... of an array. */
  function IndexedItems(items: seq<JsValue>, i: nat): Record<JsValue>
    requires i <= |items|
    decreases |items| - i
  {
    if i == |items| then [] else [(Text.NatToString(i), items[i])] + IndexedItems(items, i + 1)
  }

  /** A JavaScript object whose properties are updated in place and may be shared. */
  class JsObject {
    var fields: Record<JsValue>

    constructor(fields: Record<JsValue>)
      ensures this.fields == fields
    {
      this.fields := fields;
    }
  }
}
