/** The JavaScript values the dashboard code reads and writes, with the few
    language rules the modelled code relies on: truthiness, conversion of a
    value to a property key or text, and Array.prototype.join. */
module JsValues {

  datatype Option<+T> = None | Some(value: T)

  /** A primitive JavaScript value. Numbers are modelled as integers. */
  datatype Value = Undefined | Null | Bool(b: bool) | Num(n: int) | Str(s: string)

  /** A plain object: property name to value. A missing property reads as undefined. */
  type Object = map<string, Value>

  /** Property access `o[key]`. */
  function Get(o: Object, key: string): Value
  {
    if key in o then o[key] else Undefined
  }

  /** `!!v`: undefined, null, false, 0 and "" are falsy, everything else is truthy. */
  predicate Truthy(v: Value)
  {
    match v
    case Undefined => false
    case Null => false
    case Bool(b) => b
    case Num(n) => n != 0
    case Str(s) => s != ""
  }

  function DigitChar(d: nat): char
    requires d < 10
  {
    "0123456789"[d]
  }

  /** Decimal notation of a natural number. */
  function NatToString(n: nat): (s: string)
    ensures |s| >= 1
    ensures forall i :: 0 <= i < |s| ==> '0' <= s[i] <= '9'
  {
    if n < 10 then [DigitChar(n)] else NatToString(n / 10) + [DigitChar(n % 10)]
  }

  /** `String(v)`, which is also how a value becomes a property key (`o[v]`). */
  function ToString(v: Value): string
  {
    match v
    case Undefined => "undefined"
    case Null => "null"
    case Bool(b) => if b then "true" else "false"
    case Num(n) => if n < 0 then "-" + NatToString(-n) else NatToString(n)
    case Str(s) => s
  }

  /** The text `Array.prototype.join` writes for one element: nothing for
      null and undefined, `String(v)` otherwise. */
  function JoinText(v: Value): (t: string)
    ensures v == Null || v == Undefined ==> t == ""
    ensures v.Str? ==> t == v.s
  {
    if v == Null || v == Undefined then "" else ToString(v)
  }

  function Texts(xs: seq<Value>): (ts: seq<string>)
    ensures |ts| == |xs|
    ensures forall i :: 0 <= i < |xs| ==> ts[i] == JoinText(xs[i])
  {
    if xs == [] then [] else [JoinText(xs[0])] + Texts(xs[1..])
  }

  /** The parts written one after another with `sep` between neighbours. */
  function Join(parts: seq<string>, sep: string): string
  {
    if |parts| == 0 then ""
    else if |parts| == 1 then parts[0]
    else parts[0] + sep + Join(parts[1..], sep)
  }

  /** `xs.join(sep)`. */
  function ArrayJoin(xs: seq<Value>, sep: string): string
  {
    Join(Texts(xs), sep)
  }

  /** Position of the first `c` in `s`, or `|s|` when there is none. */
  function IndexOf(s: string, c: char): (i: nat)
    ensures i <= |s|
    ensures i < |s| ==> s[i] == c
    ensures forall j :: 0 <= j < i ==> s[j] != c
  {
    if |s| == 0 then 0 else if s[0] == c then 0 else 1 + IndexOf(s[1..], c)
  }

  /** Cuts `s` at each occurrence of the first character of `sep`, dropping
      the separator that starts there: the inverse of `Join`. */
  function Split(s: string, sep: string): seq<string>
    requires |sep| > 0
    decreases |s|
  {
    var i := IndexOf(s, sep[0]);
    if i == |s| then [s]
    else
      var next := if i + |sep| <= |s| then i + |sep| else |s|;
      [s[..i]] + Split(s[next..], sep)
  }

  /** Joining a non-empty list and splitting the result again gives the list
      back, as long as no part contains the separator's first character. */
  lemma {:induction false} SplitJoin(parts: seq<string>, sep: string)
    requires |sep| > 0 && |parts| > 0
    requires forall k :: 0 <= k < |parts| ==> sep[0] !in parts[k]
    ensures Split(Join(parts, sep), sep) == parts
  {
    var p := parts[0];
    assert sep[0] !in p;
    if |parts| == 1 {
      assert IndexOf(p, sep[0]) == |p|;
    } else {
      var rest := Join(parts[1..], sep);
      var s := p + sep + rest;
      assert Join(parts, sep) == s;
      var i := IndexOf(s, sep[0]);
      assert s[|p|] == sep[0];
      assert i == |p|;
      assert s[..i] == p;
      assert s[i + |sep|..] == rest;
      forall k | 0 <= k < |parts[1..]| ensures sep[0] !in parts[1..][k] {
        assert parts[1..][k] == parts[k + 1];
      }
      SplitJoin(parts[1..], sep);
      assert parts == [p] + parts[1..];
    }
  }
}
