/** JavaScript values as the handlers see them -- tool arguments and upstream
    payloads, both parsed from JSON -- and the few language rules the handlers
    depend on: truthiness, `||`, `===`, `String(x)`, property reads that throw
    on null/undefined, and the array methods `filter`, `map`, `find` and
    `some`, whose callbacks may themselves throw. */
module Js {

  datatype Option<+T> = None | Some(value: T)

  /** A JSON value, plus `undefined` for a property that is absent.
      Numbers are integers: no payload or argument here carries a fraction. */
  datatype Value =
    | Undefined
    | Null
    | Bool(b: bool)
    | Num(n: int)
    | Str(s: string)
    | Arr(items: seq<Value>)
    | Obj(fields: map<string, Value>)

  /** The MCP error codes the server raises. */
  datatype ErrorCode = InvalidParams | InternalError | MethodNotFound

  /** What a handler can throw: a runtime TypeError of JavaScript, an
      `McpError` raised on purpose, or the error axios raises when an upstream
      call fails (`responseData` is `error.response?.data`, `Undefined` when
      there was no response). */
  datatype Exception =
    | TypeError(message: string)
    | McpError(code: ErrorCode, message: string)
    | AxiosError(responseData: Value, message: string)

  /** Normal completion or a throw; usable with `:-`. */
  datatype Result<+T> = Ok(value: T) | Err(error: Exception) {
    predicate IsFailure() { Err? }
    function PropagateFailure<U>(): Result<U> requires Err? { Err(error) }
    function Extract(): T requires Ok? { value }
  }

  // ---------------------------------------------------------------------
  // Truthiness, `||`, `===`, typeof

  predicate Truthy(v: Value) {
    match v
    case Undefined => false
    case Null => false
    case Bool(b) => b
    case Num(n) => n != 0
    case Str(s) => s != ""
    case Arr(_) => true
    case Obj(_) => true
  }

  predicate Nullish(v: Value) {
    v.Undefined? || v.Null?
  }

  /** `a || b` */
  function Or(a: Value, b: Value): Value {
    if Truthy(a) then a else b
  }

  /** `a === b`. Primitives compare by value. Arrays and objects compare by
      reference, and the two sides of every comparison in the handlers come
      from different JSON documents (or one side is a literal), so two
      arrays or objects are never identical. */
  predicate StrictEq(a: Value, b: Value) {
    match (a, b)
    case (Undefined, Undefined) => true
    case (Null, Null) => true
    case (Bool(x), Bool(y)) => x == y
    case (Num(x), Num(y)) => x == y
    case (Str(x), Str(y)) => x == y
    case _ => false
  }

  /** `typeof v` */
  function TypeOf(v: Value): string {
    match v
    case Undefined => "undefined"
    case Null => "object"
    case Bool(_) => "boolean"
    case Num(_) => "number"
    case Str(_) => "string"
    case Arr(_) => "object"
    case Obj(_) => "object"
  }

  // ---------------------------------------------------------------------
  // String(v), also what a template literal `${v}` produces

  function DigitChar(d: nat): char
    requires d < 10
  {
    "0123456789"[d]
  }

  function NatToDecimal(n: nat): (s: string)
    ensures |s| > 0
    ensures forall i :: 0 <= i < |s| ==> '0' <= s[i] <= '9'
  {
    if n < 10 then [DigitChar(n)] else NatToDecimal(n / 10) + [DigitChar(n % 10)]
  }

  function IntToDecimal(n: int): (s: string)
    ensures |s| > 0
  {
    if n < 0 then "-" + NatToDecimal(-n) else NatToDecimal(n)
  }

  function JoinWithCommas(parts: seq<string>): string {
    if |parts| == 0 then ""
    else if |parts| == 1 then parts[0]
    else parts[0] + "," + JoinWithCommas(parts[1..])
  }

  /** `String(v)`: an array joins its elements with commas, writing null and
      undefined elements as empty strings. */
  function JsString(v: Value): string {
    match v
    case Undefined => "undefined"
    case Null => "null"
    case Bool(b) => if b then "true" else "false"
    case Num(n) => IntToDecimal(n)
    case Str(s) => s
    case Arr(items) =>
      JoinWithCommas(seq(|items|, i requires 0 <= i < |items| =>
                               if Nullish(items[i]) then "" else JsString(items[i])))
    case Obj(_) => "[object Object]"
  }

  /** A string, a number or a boolean that JavaScript treats as true has a
      non-empty string form; only an array can be truthy and print as "". */
  lemma TruthyScalarHasNonEmptyString(v: Value)
    requires Truthy(v) && !v.Arr?
    ensures JsString(v) != ""
  {
  }

  lemma EmptyArrayPrintsEmpty()
    ensures Truthy(Arr([])) && JsString(Arr([])) == ""
  {
    assert JsString(Arr([])) == JoinWithCommas([]);
  }

  // ---------------------------------------------------------------------
  // Property reads

  /** The own property `k` of a value that is not null or undefined.
      Built-in properties (`length`, prototype methods) are not modelled:
      the handlers read only data fields through this. */
  function Prop(v: Value, k: string): Value {
    match v
    case Obj(m) => if k in m then m[k] else Undefined
    case _ => Undefined
  }

  /** `v.k` */
  function Get(v: Value, k: string): (r: Result<Value>)
    ensures r.Err? <==> Nullish(v)
    ensures r.Ok? ==> r.value == Prop(v, k)
    ensures r.Err? ==> r.error.TypeError?
  {
    if Nullish(v) then Err(TypeError("Cannot read properties of " + JsString(v) + " (reading '" + k + "')"))
    else Ok(Prop(v, k))
  }

  /** `v?.k` */
  function OptGet(v: Value, k: string): (r: Value)
    ensures Nullish(v) ==> r == Undefined
    ensures !Nullish(v) ==> r == Prop(v, k)
  {
    if Nullish(v) then Undefined else Prop(v, k)
  }

  /** `v[i]` for a numeric index. */
  function Index(v: Value, i: nat): Result<Value> {
    match v
    case Undefined => Err(TypeError("Cannot read properties of undefined (reading '" + NatToDecimal(i) + "')"))
    case Null => Err(TypeError("Cannot read properties of null (reading '" + NatToDecimal(i) + "')"))
    case Arr(items) => Ok(if i < |items| then items[i] else Undefined)
    case Str(s) => Ok(if i < |s| then Str([s[i]]) else Undefined)
    case Obj(m) => Ok(if NatToDecimal(i) in m then m[NatToDecimal(i)] else Undefined)
    case _ => Ok(Undefined)
  }

  /** The elements of `v` when `v.name(...)` is called with `name` one of
      the array methods: only arrays have them. */
  function ArrayMethod(v: Value, name: string): (r: Result<seq<Value>>)
    ensures r.Ok? <==> v.Arr?
    ensures r.Ok? ==> r.value == v.items
    ensures r.Err? ==> r.error.TypeError?
  {
    match v
    case Arr(items) => Ok(items)
    case _ =>
      if Nullish(v) then Err(TypeError("Cannot read properties of " + JsString(v) + " (reading '" + name + "')"))
      else Err(TypeError(name + " is not a function"))
  }

  /** The text of `v` when a string method `name` is called on it. */
  function StringMethod(v: Value, name: string): (r: Result<string>)
    ensures r.Ok? <==> v.Str?
    ensures r.Ok? ==> r.value == v.s
    ensures r.Err? ==> r.error.TypeError?
  {
    match v
    case Str(s) => Ok(s)
    case _ =>
      if Nullish(v) then Err(TypeError("Cannot read properties of " + JsString(v) + " (reading '" + name + "')"))
      else Err(TypeError(name + " is not a function"))
  }

  /** What `for (const x of v)` visits: the elements of an array, the
      characters of a string, and a TypeError for anything else. */
  function Iterate(v: Value): (r: Result<seq<Value>>)
    ensures r.Ok? <==> v.Arr? || v.Str?
    ensures v.Arr? ==> r == Ok(v.items)
    ensures v.Str? ==> r.Ok? && |r.value| == |v.s|
  {
    match v
    case Arr(items) => Ok(items)
    case Str(s) => Ok(seq(|s|, i requires 0 <= i < |s| => Str([s[i]])))
    case _ => Err(TypeError(JsString(v) + " is not iterable"))
  }

  // ---------------------------------------------------------------------
  // Array methods with callbacks that may throw. Callbacks run left to
  // right and the first throw ends the call.

  /** `xs.filter(keep)` */
  function Filter(xs: seq<Value>, keep: Value -> Result<bool>): Result<seq<Value>>
    decreases |xs|
  {
    if xs == [] then Ok([])
    else
      var kept :- Filter(xs[..|xs| - 1], keep);
      var k :- keep(xs[|xs| - 1]);
      Ok(if k then kept + [xs[|xs| - 1]] else kept)
  }

  /** `xs.map(f)` */
  function MapAll<T>(xs: seq<Value>, f: Value -> Result<T>): Result<seq<T>>
    decreases |xs|
  {
    if xs == [] then Ok([])
    else
      var init :- MapAll(xs[..|xs| - 1], f);
      var y :- f(xs[|xs| - 1]);
      Ok(init + [y])
  }

  /** `xs.find(p)`: the first element the callback accepts, Undefined when
      there is none; it stops at the first acceptance. */
  function Find(xs: seq<Value>, p: Value -> Result<bool>): Result<Value>
    decreases |xs|
  {
    if xs == [] then Ok(Undefined)
    else
      var hit :- p(xs[0]);
      if hit then Ok(xs[0]) else Find(xs[1..], p)
  }

  /** `xs.some(p)`: it stops at the first acceptance. */
  function Any(xs: seq<Value>, p: Value -> Result<bool>): Result<bool>
    decreases |xs|
  {
    if xs == [] then Ok(false)
    else
      var hit :- p(xs[0]);
      if hit then Ok(true) else Any(xs[1..], p)
  }

  // ---------------------------------------------------------------------
  // What the array methods compute

  /** A filter that completes keeps exactly the accepted elements, in their
      input order: `idx` lists the positions it kept, strictly increasing,
      and every accepted position is among them. */
  lemma {:induction false} FilterKeepsAcceptedInOrder(xs: seq<Value>, keep: Value -> Result<bool>)
    returns (idx: seq<nat>)
    requires Filter(xs, keep).Ok?
    ensures forall i :: 0 <= i < |xs| ==> keep(xs[i]).Ok?
    ensures |idx| == |Filter(xs, keep).value|
    ensures forall k :: 0 <= k < |idx| ==>
              idx[k] < |xs| && Filter(xs, keep).value[k] == xs[idx[k]] && keep(xs[idx[k]]) == Ok(true)
    ensures forall k, l :: 0 <= k < l < |idx| ==> idx[k] < idx[l]
    ensures forall i :: 0 <= i < |xs| && keep(xs[i]) == Ok(true) ==> i in idx
    decreases |xs|
  {
    if xs == [] {
      idx := [];
    } else {
      var n := |xs| - 1;
      var prefix := xs[..n];
      var init := FilterKeepsAcceptedInOrder(prefix, keep);
      assert forall i :: 0 <= i < n ==> xs[i] == prefix[i];
      if keep(xs[n]) == Ok(true) {
        idx := init + [n];
      } else {
        idx := init;
      }
    }
  }

  /** A filter throws exactly when its callback throws on some element. */
  lemma {:induction false} FilterThrowsIffCallbackThrows(xs: seq<Value>, keep: Value -> Result<bool>)
    ensures Filter(xs, keep).Err? <==> exists i :: 0 <= i < |xs| && keep(xs[i]).Err?
    decreases |xs|
  {
    if xs != [] {
      var n := |xs| - 1;
      FilterThrowsIffCallbackThrows(xs[..n], keep);
      assert forall i :: 0 <= i < n ==> xs[..n][i] == xs[i];
    }
  }

  /** A map that completes has one result per element, in order. */
  lemma {:induction false} MapAllPointwise<T>(xs: seq<Value>, f: Value -> Result<T>)
    requires MapAll(xs, f).Ok?
    ensures |MapAll(xs, f).value| == |xs|
    ensures forall i :: 0 <= i < |xs| ==> f(xs[i]) == Ok(MapAll(xs, f).value[i])
    decreases |xs|
  {
    if xs != [] {
      var n := |xs| - 1;
      MapAllPointwise(xs[..n], f);
      assert forall i :: 0 <= i < n ==> xs[..n][i] == xs[i];
    }
  }

  /** A map completes exactly when its callback completes on every element. */
  lemma {:induction false} MapAllOkIffPointwiseOk<T>(xs: seq<Value>, f: Value -> Result<T>)
    ensures MapAll(xs, f).Ok? <==> forall i :: 0 <= i < |xs| ==> f(xs[i]).Ok?
    decreases |xs|
  {
    if xs != [] {
      var n := |xs| - 1;
      MapAllOkIffPointwiseOk(xs[..n], f);
      assert forall i :: 0 <= i < n ==> xs[..n][i] == xs[i];
    }
  }

  /** Once a prefix of the elements has been mapped, the map continues with
      the next element: a throw there is the throw of the whole map, a value
      there extends the results. */
  lemma {:induction false} MapAllStep<T>(xs: seq<Value>, f: Value -> Result<T>, j: nat)
    requires j < |xs| && MapAll(xs[..j], f).Ok?
    ensures f(xs[j]).Ok? ==> MapAll(xs[..j + 1], f) == Ok(MapAll(xs[..j], f).value + [f(xs[j]).value])
    ensures f(xs[j]).Err? ==> MapAll(xs, f) == Err(f(xs[j]).error)
    decreases |xs| - j
  {
    assert xs[..j + 1][..j] == xs[..j];
    if f(xs[j]).Err? {
      MapAllStopsAfter(xs, f, j + 1);
    }
  }

  /** A throw while mapping a prefix is the throw of the whole map. */
  lemma {:induction false} MapAllStopsAfter<T>(xs: seq<Value>, f: Value -> Result<T>, j: nat)
    requires j <= |xs| && MapAll(xs[..j], f).Err?
    ensures MapAll(xs, f) == MapAll(xs[..j], f)
    decreases |xs| - j
  {
    if j < |xs| {
      assert xs[..j + 1][..j] == xs[..j];
      MapAllStopsAfter(xs, f, j + 1);
    } else {
      assert xs[..j] == xs;
    }
  }

  /** `find` returns the first accepted element, after the callback rejected
      every earlier one, or Undefined after it rejected them all. */
  lemma {:induction false} FindFirstAccepted(xs: seq<Value>, p: Value -> Result<bool>)
    requires Find(xs, p).Ok?
    ensures (Find(xs, p).value == Undefined && forall j :: 0 <= j < |xs| ==> p(xs[j]) == Ok(false))
         || (exists i :: 0 <= i < |xs| && Find(xs, p).value == xs[i] && p(xs[i]) == Ok(true)
                         && forall j :: 0 <= j < i ==> p(xs[j]) == Ok(false))
    decreases |xs|
  {
    if xs != [] && p(xs[0]) == Ok(false) {
      FindFirstAccepted(xs[1..], p);
      if Find(xs[1..], p).value == Undefined && (forall j :: 0 <= j < |xs[1..]| ==> p(xs[1..][j]) == Ok(false)) {
        assert forall j :: 0 < j < |xs| ==> xs[j] == xs[1..][j - 1];
      } else {
        var i :| 0 <= i < |xs[1..]| && Find(xs[1..], p).value == xs[1..][i] && p(xs[1..][i]) == Ok(true)
                 && forall j :: 0 <= j < i ==> p(xs[1..][j]) == Ok(false);
        assert forall j :: 0 < j < i + 1 ==> xs[j] == xs[1..][j - 1];
        assert xs[i + 1] == xs[1..][i];
      }
    }
  }

  /** When the callback never throws, neither does `find`. */
  lemma {:induction false} FindTotal(xs: seq<Value>, p: Value -> Result<bool>)
    requires forall j :: 0 <= j < |xs| ==> p(xs[j]).Ok?
    ensures Find(xs, p).Ok?
    decreases |xs|
  {
    if xs != [] {
      assert forall j :: 0 < j < |xs| ==> xs[j] == xs[1..][j - 1];
      FindTotal(xs[1..], p);
    }
  }

  /** `some` answers true exactly when a callback accepted an element before
      any rejected-everything answer; false only after rejecting them all. */
  lemma {:induction false} AnyMeansSomeAccepted(xs: seq<Value>, p: Value -> Result<bool>)
    requires Any(xs, p).Ok?
    ensures Any(xs, p).value ==> exists i :: 0 <= i < |xs| && p(xs[i]) == Ok(true)
                                            && forall j :: 0 <= j < i ==> p(xs[j]) == Ok(false)
    ensures !Any(xs, p).value ==> forall j :: 0 <= j < |xs| ==> p(xs[j]) == Ok(false)
    decreases |xs|
  {
    if xs != [] && p(xs[0]) == Ok(false) {
      AnyMeansSomeAccepted(xs[1..], p);
      assert forall j :: 0 < j < |xs| ==> xs[j] == xs[1..][j - 1];
      if Any(xs, p).value {
        var i :| 0 <= i < |xs[1..]| && p(xs[1..][i]) == Ok(true) && forall j :: 0 <= j < i ==> p(xs[1..][j]) == Ok(false);
        assert xs[i + 1] == xs[1..][i];
      }
    }
  }

  /** A throw from `find` is the throw of its callback on some element. */
  lemma {:induction false} FindErrorFromCallback(xs: seq<Value>, p: Value -> Result<bool>)
    ensures Find(xs, p).Err? ==> exists i :: 0 <= i < |xs| && p(xs[i]) == Err(Find(xs, p).error)
    decreases |xs|
  {
    if Find(xs, p).Err? && p(xs[0]).Ok? {
      FindErrorFromCallback(xs[1..], p);
      var i :| 0 <= i < |xs[1..]| && p(xs[1..][i]) == Err(Find(xs[1..], p).error);
      assert xs[i + 1] == xs[1..][i];
    }
  }

  /** A throw from `map` is the throw of its callback on some element. */
  lemma {:induction false} MapAllErrorFromCallback<T>(xs: seq<Value>, f: Value -> Result<T>)
    ensures MapAll(xs, f).Err? ==> exists i :: 0 <= i < |xs| && f(xs[i]) == Err(MapAll(xs, f).error)
    decreases |xs|
  {
    var n := |xs| - 1;
    if MapAll(xs, f).Err? && MapAll(xs[..n], f).Err? {
      MapAllErrorFromCallback(xs[..n], f);
      var i :| 0 <= i < n && f(xs[..n][i]) == Err(MapAll(xs[..n], f).error);
      assert xs[..n][i] == xs[i];
    }
  }
}
