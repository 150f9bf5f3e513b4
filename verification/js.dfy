/** JavaScript values as the registration workflow sees them: the result of
    `JSON.parse`, plus `undefined` (written `None`), and the few property
    operations the workflow performs on them. An operation that would raise a
    TypeError in JavaScript yields `Throws`. */
module Js {

  datatype Option<+T> = None | Some(value: T)

  /** A parsed JSON value. Numbers are exact reals: floating-point rounding is
      not modelled. */
  datatype Value =
    | Null
    | Bool(b: bool)
    | Num(n: real)
    | Str(s: string)
    | Arr(items: seq<Value>)
    | Obj(fields: map<string, Value>)

  /** The outcome of evaluating an expression that may raise a TypeError. */
  datatype Result<+T> = Ok(value: T) | Throws

  /** `undefined` or `null`: the two values whose property access throws. */
  predicate Nullish(o: Option<Value>) {
    o == None || o == Some(Null)
  }

  /** The own property `key` of `v`, or `undefined`. Only objects carry own
      properties with the names the workflow reads (strings and arrays have
      only index and `length` properties, and none of those names is one). */
  function Own(v: Value, key: string): Option<Value> {
    if v.Obj? && key in v.fields then Some(v.fields[key]) else None
  }

  /** The value at `path` below `v`, following own properties only, or
      `undefined` when some step is missing. */
  function At(v: Value, path: seq<string>): Option<Value>
    decreases |path|
  {
    if path == [] then Some(v)
    else match Own(v, path[0])
      case None => None
      case Some(w) => At(w, path[1..])
  }

  /** `o.key`: throws on `undefined` and `null`, otherwise reads the own
      property. */
  function Prop(o: Option<Value>, key: string): (r: Result<Option<Value>>)
    ensures r.Throws? <==> Nullish(o)
    ensures r.Ok? ==> r.value == Own(o.value, key)
  {
    if Nullish(o) then Throws else Ok(Own(o.value, key))
  }

  /** `o.p0.p1…`: the chain of property reads along `path`, each of which
      throws on `undefined` and `null`. */
  function Access(o: Option<Value>, path: seq<string>): Result<Option<Value>>
    decreases |path|
  {
    if path == [] then Ok(o)
    else match Prop(o, path[0])
      case Throws => Throws
      case Ok(next) => Access(next, path[1..])
  }

  /** A chain of reads throws exactly when the value reached at some proper
      prefix of the path is `undefined` or `null`; otherwise it yields the
      value at the whole path, `undefined` when the last step is missing. */
  lemma {:induction false} AccessAt(v: Value, path: seq<string>)
    ensures Access(Some(v), path).Throws? <==> exists i :: 0 <= i < |path| && Nullish(At(v, path[..i]))
    ensures Access(Some(v), path).Ok? ==> Access(Some(v), path).value == At(v, path)
    decreases |path|
  {
    if path != [] {
      assert At(v, path[..0]) == Some(v);
      var rest := path[1..];
      forall i | 1 <= i <= |path|
        ensures At(v, path[..i]) == (match Own(v, path[0]) case None => None case Some(w) => At(w, rest[..i - 1]))
      {
        assert path[..i][1..] == rest[..i - 1];
      }
      if v != Null {
        match Own(v, path[0])
        case None =>
          if |path| > 1 {
            assert Nullish(At(v, path[..1]));
          }
        case Some(w) =>
          AccessAt(w, rest);
          if Access(Some(v), path).Throws? {
            var j :| 0 <= j < |rest| && Nullish(At(w, rest[..j]));
            assert Nullish(At(v, path[..j + 1]));
          } else {
            assert path == [path[0]] + rest;
            assert At(v, path) == At(w, rest);
            forall i | 0 <= i < |path|
              ensures !Nullish(At(v, path[..i]))
            {
              if i > 0 {
                assert At(v, path[..i]) == At(w, rest[..i - 1]);
              }
            }
          }
      }
    }
  }

  /** `o.hasOwnProperty(key)`. An object that has an own property named
      `hasOwnProperty` shadows the method with a JSON value, and the call
      throws. */
  function HasOwnProperty(o: Option<Value>, key: string): (r: Result<bool>)
    ensures r.Throws? <==> Nullish(o) || Own(o.value, "hasOwnProperty").Some?
    ensures r.Ok? ==> (r.value <==> Own(o.value, key).Some?)
  {
    if Nullish(o) then Throws
    else if Own(o.value, "hasOwnProperty").Some? then Throws
    else Ok(Own(o.value, key).Some?)
  }

  /** `String(v)` as used by `Array.prototype.join` and by `v.toString()` on
      a non-nullish value. Number formatting is the runtime's and is passed in
      as `numeral`. An object whose own `toString` property shadows the
      prototype method cannot be converted and throws. */
  function Stringify(v: Value, numeral: real -> string): Result<string>
    decreases v, 1, 0
  {
    match v
    case Null => Ok("null")
    case Bool(b) => Ok(if b then "true" else "false")
    case Num(n) => Ok(numeral(n))
    case Str(s) => Ok(s)
    case Obj(m) => if "toString" in m then Throws else Ok("[object Object]")
    case Arr(items) => JoinFrom(v, 0, numeral)
  }

  /** `items.slice(i).join(",")`, where `null` elements become "". */
  function JoinFrom(v: Value, i: nat, numeral: real -> string): Result<string>
    requires v.Arr? && i <= |v.items|
    decreases v, 0, |v.items| - i
  {
    if i == |v.items| then Ok("")
    else
      var head := if v.items[i] == Null then Ok("") else Stringify(v.items[i], numeral);
      var rest := JoinFrom(v, i + 1, numeral);
      if head.Throws? || rest.Throws? then Throws
      else if i + 1 == |v.items| then Ok(head.value)
      else Ok(head.value + "," + rest.value)
  }

  /** The decimal digits of `n`, most significant first, without leading
      zeros. */
  function Decimal(n: nat): (r: string)
    ensures |r| >= 1 && forall i :: 0 <= i < |r| ==> '0' <= r[i] <= '9'
    ensures n >= 10 ==> r[0] != '0'
  {
    if n < 10 then [('0' as int + n) as char]
    else Decimal(n / 10) + [('0' as int + n % 10) as char]
  }

  /** What the language guarantees of number formatting: an integer below
      10^21 is written as its decimal digits. */
  predicate IntegerNumerals(numeral: real -> string) {
    forall n: nat {:trigger Decimal(n)} :: n < 1_000_000_000_000_000_000_000 ==> numeral(n as real) == Decimal(n)
  }

  /** A six-digit number is written with six digits. */
  lemma SixDigits(n: nat)
    requires 100000 <= n <= 999999
    ensures |Decimal(n)| == 6
  {
    var d1, d2, d3, d4, d5 := n / 10, n / 100, n / 1000, n / 10000, n / 100000;
    assert d1 / 10 == d2 && d2 / 10 == d3 && d3 / 10 == d4 && d4 / 10 == d5;
    assert 1 <= d5 <= 9 && 10 <= d4 && 10 <= d3 && 10 <= d2 && 10 <= d1;
    assert |Decimal(d5)| == 1;
    assert |Decimal(d4)| == 2;
    assert |Decimal(d3)| == 3;
    assert |Decimal(d2)| == 4;
    assert |Decimal(d1)| == 5;
  }

  /** `o.toString()`: throws on `undefined` and `null`. */
  function CallToString(o: Option<Value>, numeral: real -> string): (r: Result<string>)
    ensures Nullish(o) ==> r.Throws?
    ensures o.Some? && o.value.Str? ==> r == Ok(o.value.s)
    ensures o.Some? && o.value.Num? ==> r == Ok(numeral(o.value.n))
  {
    if Nullish(o) then Throws else Stringify(o.value, numeral)
  }
}
