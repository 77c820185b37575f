/** JSON values as they cross the system's boundaries (request bodies, PostgREST
    rows, upstream payloads), with the JavaScript and Python conversions the core
    applies to them: template-literal rendering, truthiness, and the array
    filter/find used by the pages. */
module Values {

  import opened Wrappers
  import opened Text

  /** A JSON value. Numbers are integers: the ids, sizes and status codes the core
      handles are all whole numbers. */
  datatype Json =
    | Null
    | Bool(b: bool)
    | Num(n: int)
    | Str(s: string)
    | Arr(items: seq<Json>)
    | Obj(fields: map<string, Json>)

  /** A JSON object, such as a request body or a metadata row. */
  type Record = map<string, Json>

  /** Property access: a missing key is JavaScript's undefined (None). */
  function Field(r: Record, key: string): (v: Option<Json>)
    ensures v.Some? <==> key in r
    ensures v.Some? ==> v.value == r[key]
  {
    if key in r then Some(r[key]) else None
  }

  /** String(v) for a JSON value: what `${v}` inserts into a template literal. An
      array renders its elements joined by "," (null as ""), an object as
      "[object Object]". */
  function JsText(v: Json): string
    decreases v
  {
    match v
    case Null => "null"
    case Bool(b) => if b then "true" else "false"
    case Num(n) => IntText(n)
    case Str(s) => s
    case Arr(items) =>
      Join(seq(|items|, i requires 0 <= i < |items| => if items[i].Null? then "" else JsText(items[i])), ",")
    case Obj(_) => "[object Object]"
  }

  /** `${v}` where v may be undefined. */
  function Interp(v: Option<Json>): (s: string)
    ensures v.None? ==> s == "undefined"
    ensures v.Some? && v.value.Str? ==> s == v.value.s
    ensures v.Some? && v.value.Num? ==> s == IntText(v.value.n)
  {
    match v
    case None => "undefined"
    case Some(j) => JsText(j)
  }

  /** JavaScript truthiness of a possibly undefined value. */
  predicate JsTruthy(v: Option<Json>) {
    match v
    case None => false
    case Some(Null) => false
    case Some(Bool(b)) => b
    case Some(Num(n)) => n != 0
    case Some(Str(s)) => |s| > 0
    case Some(_) => true
  }

  /** Python truthiness (None is Null). */
  predicate PyTruthy(v: Json) {
    match v
    case Null => false
    case Bool(b) => b
    case Num(n) => n != 0
    case Str(s) => |s| > 0
    case Arr(items) => |items| > 0
    case Obj(fields) => |fields| > 0
  }

  /** Array.prototype.filter: the elements satisfying p, in their original order. */
  function Filter<T(!new)>(s: seq<T>, p: T -> bool): (r: seq<T>)
    ensures |r| <= |s|
    ensures forall x :: x in r <==> x in s && p(x)
    decreases |s|
  {
    if |s| == 0 then [] else (if p(s[0]) then [s[0]] else []) + Filter(s[1..], p)
  }

  /** Array.prototype.find: the first element satisfying p, or undefined. */
  function Find<T>(s: seq<T>, p: T -> bool): (r: Option<T>)
    ensures r.None? <==> forall i :: 0 <= i < |s| ==> !p(s[i])
    ensures r.Some? ==> exists k :: 0 <= k < |s| && s[k] == r.value && p(r.value) &&
                                    forall j :: 0 <= j < k ==> !p(s[j])
    decreases |s|
  {
    if |s| == 0 then None
    else if p(s[0]) then Some(s[0])
    else
      var r := Find(s[1..], p);
      if r.Some? then
        ghost var k :| 0 <= k < |s| - 1 && s[1..][k] == r.value && p(r.value) &&
                       forall j :: 0 <= j < k ==> !p(s[1..][j]);
        assert s[k + 1] == r.value && forall j :: 0 <= j < k + 1 ==> !p(s[j]) by {
          forall j | 0 <= j < k + 1 ensures !p(s[j]) {
            if j > 0 { assert s[j] == s[1..][j - 1]; }
          }
        }
        r
      else r
  }

  /** The head of a filter is the first element the predicate accepts. */
  lemma {:induction false} FilterHeadIsFind<T(!new)>(s: seq<T>, p: T -> bool)
    ensures |Filter(s, p)| > 0 <==> Find(s, p).Some?
    ensures |Filter(s, p)| > 0 ==> Filter(s, p)[0] == Find(s, p).value
    decreases |s|
  {
    if |s| > 0 && !p(s[0]) {
      FilterHeadIsFind(s[1..], p);
    }
  }

  /** Putting x in front of either part of a split of rest splits [x] + rest. */
  lemma ConsSplit<T>(x: T, rest: seq<T>, a: seq<T>, b: seq<T>)
    requires multiset(a) + multiset(b) == multiset(rest)
    ensures multiset([x] + a) + multiset(b) == multiset([x] + rest)
    ensures multiset(a) + multiset([x] + b) == multiset([x] + rest)
  {
  }

  /** Filtering by p and by its negation splits s into two parts that together hold
      every element exactly as often as s does. */
  lemma {:induction false} FilterPartition<T(!new)>(s: seq<T>, p: T -> bool, q: T -> bool)
    requires forall x :: q(x) == !p(x)
    ensures multiset(Filter(s, p)) + multiset(Filter(s, q)) == multiset(s)
    decreases |s|
  {
    if |s| > 0 {
      FilterPartition(s[1..], p, q);
      ConsSplit(s[0], s[1..], Filter(s[1..], p), Filter(s[1..], q));
      assert s == [s[0]] + s[1..];
      if p(s[0]) {
        assert Filter(s, p) == [s[0]] + Filter(s[1..], p);
        assert Filter(s, q) == Filter(s[1..], q);
      } else {
        assert Filter(s, p) == Filter(s[1..], p);
        assert Filter(s, q) == [s[0]] + Filter(s[1..], q);
      }
    }
  }
}
