/**
 * An abstract JSON value, standing for the parsed body of a provider's
 * response, and the JavaScript reading of property paths over it:
 * `a?.b?.[0]?.c` and `||` chains of such paths.
 */
module JsonData {
  import opened Wrappers
  import Strs
  import Chains

  /** Numbers are integers here; fractional and non-finite numbers are not modelled. */
  datatype Json =
    | JNull
    | JBool(b: bool)
    | JNum(n: int)
    | JStr(s: string)
    | JArr(items: seq<Json>)
    | JObj(fields: map<string, Json>)

  /** One step of a property path: `.name` or `[index]`. */
  datatype Seg = Key(name: string) | Idx(index: nat)

  type Path = seq<Seg>

  /** JavaScript truthiness of a present value (an absent value, `undefined`, is falsy). */
  predicate Truthy(v: Json)
  {
    match v
    case JNull => false
    case JBool(b) => b
    case JNum(n) => n != 0
    case JStr(s) => |s| > 0
    case JArr(_) => true
    case JObj(_) => true
  }

  /**
   * One property access. `None` is `undefined`: a missing key, an index past
   * the end, or any access on `null`, a boolean or a number. An index on an
   * object reads the key spelled by the index; an index on a string yields
   * that one character.
   */
  function Step(v: Json, seg: Seg): (r: Option<Json>)
    ensures v.JObj? && seg.Key? ==> (r.Some? <==> seg.name in v.fields)
    ensures v.JArr? && seg.Idx? ==> (r.Some? <==> seg.index < |v.items|)
    ensures v.JNull? || v.JBool? || v.JNum? ==> r.None?
  {
    match (v, seg)
    case (JObj(m), Key(k)) => if k in m then Some(m[k]) else None
    case (JObj(m), Idx(i)) =>
      var k := Strs.NatToString(i);
      if k in m then Some(m[k]) else None
    case (JArr(a), Idx(i)) => if i < |a| then Some(a[i]) else None
    case (JStr(t), Idx(i)) => if i < |t| then Some(JStr([t[i]])) else None
    case _ => None
  }

  /** The value at the end of a path read with optional chaining at every step. */
  function Lookup(v: Json, path: Path): (r: Option<Json>)
    decreases |path|
  {
    if |path| == 0 then Some(v)
    else
      match Step(v, path[0])
      case None => None
      case Some(w) => Lookup(w, path[1..])
  }

  /** Reading `p + q` is reading `p` and then reading `q` from where `p` ended. */
  lemma {:induction false} LookupAppend(v: Json, p: Path, q: Path)
    ensures Lookup(v, p + q) == (match Lookup(v, p) case None => None case Some(w) => Lookup(w, q))
    decreases |p|
  {
    if |p| == 0 {
      assert p + q == q;
    } else {
      assert (p + q)[0] == p[0];
      assert (p + q)[1..] == p[1..] + q;
      match Step(v, p[0])
      case None =>
      case Some(w) => LookupAppend(w, p[1..], q);
    }
  }

  /** Once a path is undefined, every longer path through it is undefined too. */
  lemma LookupUndefinedPrefix(v: Json, p: Path, q: Path)
    requires Lookup(v, p).None?
    ensures Lookup(v, p + q).None?
  {
    LookupAppend(v, p, q);
  }

  /** The value at `path` if it is present and truthy. */
  function TruthyAt(v: Json, path: Path): (r: Option<Json>)
    ensures r.Some? <==> Lookup(v, path).Some? && Truthy(Lookup(v, path).value)
    ensures r.Some? ==> r == Lookup(v, path)
  {
    match Lookup(v, path)
    case Some(w) => if Truthy(w) then Some(w) else None
    case None => None
  }

  /**
   * `v.p1 || v.p2 || …` used as a condition: the first truthy value along the
   * paths, or `None` when every one is falsy or absent.
   */
  function FirstTruthy(v: Json, paths: seq<Path>): (r: Option<Json>)
    ensures r.None? <==> forall i :: 0 <= i < |paths| ==> TruthyAt(v, paths[i]).None?
    ensures r.Some? ==> Truthy(r.value)
    ensures r.Some? ==> exists i :: 0 <= i < |paths| && r == Lookup(v, paths[i]) &&
                          forall j :: 0 <= j < i ==> TruthyAt(v, paths[j]).None?
  {
    var r := Chains.FirstSome(paths, (p: Path) => TruthyAt(v, p));
    assert r.Some? ==> exists i :: 0 <= i < |paths| && r == Lookup(v, paths[i]) &&
                          forall j :: 0 <= j < i ==> TruthyAt(v, paths[j]).None? by {
      if r.Some? {
        var i :| 0 <= i < |paths| && TruthyAt(v, paths[i]) == r && Chains.IsFirst(paths, (p: Path) => TruthyAt(v, p), i);
      }
    }
    r
  }

  /** Splitting one `||` chain into two chains joined by `||` changes nothing. */
  lemma FirstTruthyAppend(v: Json, a: seq<Path>, b: seq<Path>)
    ensures FirstTruthy(v, a + b) == FirstTruthy(v, a).Or(FirstTruthy(v, b))
  {
    Chains.FirstSomeAppend(a, b, (p: Path) => TruthyAt(v, p));
  }

}
