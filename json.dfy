/**
 * JavaScript values as the token scripts see them after `JSON.parse`: objects keep their
 * entries in enumeration order (the order `Object.entries` yields them), integral numbers are
 * integers and any other number is carried by the text JavaScript prints for it.
 * `NaN` is not a JSON value; it appears only as the result of a failed `parseInt`.
 */
module JsonValue {
  import opened Wrappers
  import opened JsText

  datatype Json =
    | Null
    | Bool(b: bool)
    | Int(i: int)
    | Dec(text: string)
    | NaN
    | Str(s: string)
    | Arr(items: seq<Json>)
    | Obj(entries: seq<(string, Json)>)

  function Keys<V>(es: seq<(string, V)>): (ks: seq<string>)
    ensures |ks| == |es| && forall i :: 0 <= i < |es| ==> ks[i] == es[i].0
  {
    seq(|es|, i requires 0 <= i < |es| => es[i].0)
  }

  predicate DistinctKeys<V>(es: seq<(string, V)>) {
    forall i, j :: 0 <= i < j < |es| ==> es[i].0 != es[j].0
  }

  /** Every object, at every depth, has distinct keys: what `JSON.parse` always builds. */
  predicate WellFormed(v: Json)
    decreases v
  {
    match v
    case Obj(es) => DistinctKeys(es) && forall i :: 0 <= i < |es| ==> WellFormed(es[i].1)
    case Arr(xs) => forall i :: 0 <= i < |xs| ==> WellFormed(xs[i])
    case _ => true
  }

  /** No entry before position `i` has key `k`. */
  predicate FirstWithKey<V>(es: seq<(string, V)>, k: string, i: nat) {
    forall j :: 0 <= j < i && j < |es| ==> es[j].0 != k
  }

  /** The value stored under `k`, if any (the first entry with that key). */
  function Lookup<V(==)>(es: seq<(string, V)>, k: string): (r: Option<V>)
    ensures r.None? <==> forall i :: 0 <= i < |es| ==> es[i].0 != k
    ensures r.Some? ==> exists i :: 0 <= i < |es| && es[i] == (k, r.value) && FirstWithKey(es, k, i)
  {
    if es == [] then None
    else if es[0].0 == k then Some(es[0].1)
    else
      var r := Lookup(es[1..], k);
      assert forall j :: 1 <= j < |es| ==> es[j] == es[1..][j - 1];
      if r.Some? then
        var i :| 0 <= i < |es[1..]| && es[1..][i] == (k, r.value) && FirstWithKey(es[1..], k, i);
        assert es[i + 1] == (k, r.value);
        r
      else r
  }

  /** With distinct keys, looking up the key of entry `i` finds entry `i`. */
  lemma LookupAt<V>(es: seq<(string, V)>, i: nat)
    requires DistinctKeys(es) && i < |es|
    ensures Lookup(es, es[i].0) == Some(es[i].1)
  {
    var r := Lookup(es, es[i].0);
    var j :| 0 <= j < |es| && es[j] == (es[i].0, r.value) && FirstWithKey(es, es[i].0, j);
  }

  /**
   * `v[k]` on a value that is not `null`: an object's own entry, `None` (undefined) otherwise.
   * The scripts only read keys that arrays and strings do not have as properties.
   */
  function Get(v: Json, k: string): (r: Option<Json>)
    ensures r.Some? ==> v.Obj?
  {
    if v.Obj? then Lookup(v.entries, k) else None
  }

  /** JavaScript truthiness, with `None` for undefined. */
  predicate Truthy(x: Option<Json>) {
    match x
    case None => false
    case Some(v) =>
      match v
      case Null => false
      case Bool(b) => b
      case Int(i) => i != 0
      case Dec(_) => true
      case NaN => false
      case Str(s) => s != ""
      case Arr(_) => true
      case Obj(_) => true
  }

  /** `String(v)`, as a template literal prints a value. */
  function JsString(v: Json): string
    decreases v
  {
    match v
    case Null => "null"
    case Bool(b) => if b then "true" else "false"
    case Int(i) => IntToString(i)
    case Dec(t) => t
    case NaN => "NaN"
    case Str(s) => s
    case Arr(xs) => JoinWith(ElementStrings(xs), ",")
    case Obj(_) => "[object Object]"
  }

  /** `Array.prototype.join` prints `null` elements as empty strings. */
  function ElementStrings(xs: seq<Json>): (r: seq<string>)
    ensures |r| == |xs|
    decreases xs
  {
    if xs == [] then []
    else [if xs[0].Null? then "" else JsString(xs[0])] + ElementStrings(xs[1..])
  }

  /**
   * `Object.entries(v)` on a value that is not `null`: an object's entries, an array's
   * elements and a string's characters under their decimal indices, nothing for the rest.
   * A string is taken character by character, where JavaScript takes UTF-16 code units.
   */
  function Entries(v: Json): (es: seq<(string, Json)>)
    ensures v.Obj? ==> es == v.entries
    ensures v.Arr? ==> |es| == |v.items| && forall i :: 0 <= i < |es| ==> es[i] == (NatToString(i), v.items[i])
    ensures v.Str? ==> |es| == |v.s| && forall i :: 0 <= i < |es| ==> es[i] == (NatToString(i), Str([v.s[i]]))
    ensures !v.Obj? && !v.Arr? && !v.Str? ==> es == []
  {
    match v
    case Obj(es) => es
    case Arr(xs) => seq(|xs|, i requires 0 <= i < |xs| => (NatToString(i), xs[i]))
    case Str(s) => seq(|s|, i requires 0 <= i < |s| => (NatToString(i), Str([s[i]])))
    case _ => []
  }

  /** `obj[k] = x`: afterwards `k` holds `x`. */
  function Assign<V(==)>(es: seq<(string, V)>, k: string, x: V): (r: seq<(string, V)>)
    ensures Lookup(r, k) == Some(x)
  {
    if es == [] then [(k, x)]
    else if es[0].0 == k then [(k, x)] + es[1..]
    else
      var rest := Assign(es[1..], k, x);
      LookupCons(es[0], rest);
      [es[0]] + rest
  }

  /** Looking up a key in an object whose first entry is `e`. */
  lemma LookupCons<V>(e: (string, V), rest: seq<(string, V)>)
    ensures forall k :: Lookup([e] + rest, k) == if e.0 == k then Some(e.1) else Lookup(rest, k)
  {
    forall k
      ensures Lookup([e] + rest, k) == if e.0 == k then Some(e.1) else Lookup(rest, k)
    {
      assert ([e] + rest)[1..] == rest;
    }
  }

  /** Every other key keeps its value. */
  lemma {:induction false} AssignKeepsOthers<V>(es: seq<(string, V)>, k: string, x: V)
    ensures forall k' :: k' != k ==> Lookup(Assign(es, k, x), k') == Lookup(es, k')
    decreases |es|
  {
    if es != [] {
      LookupCons(es[0], es[1..]);
      assert [es[0]] + es[1..] == es;
      if es[0].0 == k {
        LookupCons((k, x), es[1..]);
      } else {
        AssignKeepsOthers(es[1..], k, x);
        LookupCons(es[0], Assign(es[1..], k, x));
      }
    }
  }

  /** A key already present is replaced where it stands: the keys do not change. */
  lemma {:induction false} AssignReplaces<V>(es: seq<(string, V)>, k: string, x: V)
    requires Lookup(es, k).Some?
    ensures Keys(Assign(es, k, x)) == Keys(es)
    decreases |es|
  {
    var head, tail := es[0], es[1..];
    assert es == [head] + tail;
    KeysCons(head, tail);
    if head.0 == k {
      KeysCons((k, x), tail);
    } else {
      LookupCons(head, tail);
      AssignReplaces(tail, k, x);
      KeysCons(head, Assign(tail, k, x));
    }
  }

  lemma KeysCons<V>(e: (string, V), rest: seq<(string, V)>)
    ensures Keys([e] + rest) == [e.0] + Keys(rest)
  {
  }

  /** A new key is appended at the end. */
  lemma {:induction false} AssignAppends<V>(es: seq<(string, V)>, k: string, x: V)
    requires Lookup(es, k).None?
    ensures Assign(es, k, x) == es + [(k, x)]
    decreases |es|
  {
    if es != [] {
      LookupCons(es[0], es[1..]);
      assert [es[0]] + es[1..] == es;
      AssignAppends(es[1..], k, x);
      assert [es[0]] + (es[1..] + [(k, x)]) == es + [(k, x)];
    }
  }

  /** `Assign` keeps the keys distinct. */
  lemma AssignDistinct<V>(es: seq<(string, V)>, k: string, x: V)
    requires DistinctKeys(es)
    ensures DistinctKeys(Assign(es, k, x))
  {
    var r := Assign(es, k, x);
    if Lookup(es, k).Some? {
      AssignReplaces(es, k, x);
      assert forall i :: 0 <= i < |r| ==> r[i].0 == Keys(r)[i] == Keys(es)[i];
    } else {
      AssignAppends(es, k, x);
    }
  }
}
