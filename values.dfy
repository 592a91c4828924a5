/** JavaScript values as the agent handles them: configuration objects, action
    payloads, error codes and messages. Numbers are integers here (the agent only
    ever stores ports, error codes and timestamps in them). */
module Values {

  datatype Option<+T> = None | Some(value: T)

  datatype Value =
    | Undefined
    | Null
    | Bool(b: bool)
    | Num(n: int)
    | Str(s: string)
    | Arr(elems: seq<Value>)
    | Obj(props: map<string, Value>)

  /** How a promise returned by a thunk or an asynchronous step ends. */
  datatype Outcome =
    | Resolved(value: Value)
    | Rejected(reason: Value)
    | Thrown(message: string)   // a synchronous exception out of dispatch
    | Pending                   // still waiting for an event

  /** JavaScript truthiness: `if (v)`. */
  predicate Truthy(v: Value) {
    match v
    case Undefined => false
    case Null => false
    case Bool(b) => b
    case Num(n) => n != 0
    case Str(s) => s != ""
    case _ => true
  }

  /** `a || b` */
  function Or(a: Value, b: Value): (r: Value)
    ensures Truthy(a) ==> r == a
    ensures !Truthy(a) ==> r == b
  {
    if Truthy(a) then a else b
  }

  /** `v.key` on an object; a primitive or a missing key gives undefined. */
  function Prop(v: Value, key: string): Value {
    if v.Obj? && key in v.props then v.props[key] else Undefined
  }

  /** The own enumerable properties `Object.assign` copies from `v`. */
  function OwnProps(v: Value): map<string, Value> {
    if v.Obj? then v.props else map[]
  }

  /** `t` occurs in `s` at index `i`. */
  predicate At(s: string, t: string, i: int) {
    0 <= i && i + |t| <= |s| && s[i..i + |t|] == t
  }

  /** `s.indexOf(t) > -1` */
  predicate Contains(s: string, t: string) {
    exists i | 0 <= i <= |s| - |t| :: At(s, t, i)
  }

  lemma ContainsPrefixOf(s: string, t: string, u: string)
    requires Contains(s, t + u)
    ensures Contains(s, t)
  {
    var i :| 0 <= i <= |s| - |t + u| && At(s, t + u, i);
    assert s[i..i + |t|] == (t + u)[..|t|];
    assert At(s, t, i);
  }

  lemma ContainsSelf(s: string, t: string, u: string)
    ensures Contains(t + s + u, s)
  {
    assert (t + s + u)[|t|..|t| + |s|] == s;
    assert At(t + s + u, s, |t|);
  }

  lemma EmptyContained(s: string)
    ensures Contains(s, "")
  {
    assert At(s, "", 0);
  }

  /** `s.split(sep)` for a one-character separator: always at least one piece. */
  function Split(s: string, sep: char): (parts: seq<string>)
    ensures |parts| >= 1
    decreases |s|
  {
    if s == [] then [""]
    else
      var rest := Split(s[1..], sep);
      if s[0] == sep then [""] + rest else [[s[0]] + rest[0]] + rest[1..]
  }

  /** `parts.join(sep)` */
  function Join(parts: seq<string>, sep: char): string
    requires |parts| >= 1
    decreases |parts|
  {
    if |parts| == 1 then parts[0] else parts[0] + [sep] + Join(parts[1..], sep)
  }

  predicate NoSep(parts: seq<string>, sep: char) {
    forall i | 0 <= i < |parts| :: sep !in parts[i]
  }

  /** Splitting cuts at every separator and loses nothing: the pieces hold no
      separator and joining them gives the string back. */
  lemma {:induction false} SplitJoin(s: string, sep: char)
    ensures NoSep(Split(s, sep), sep)
    ensures Join(Split(s, sep), sep) == s
    decreases |s|
  {
    if s != [] {
      SplitJoin(s[1..], sep);
      var rest := Split(s[1..], sep);
      if s[0] == sep {
        assert Join([""] + rest, sep) == "" + [sep] + Join(rest, sep);
      } else {
        var parts := [[s[0]] + rest[0]] + rest[1..];
        assert parts[1..] == rest[1..];
        if |rest| > 1 {
          assert Join(rest, sep) == rest[0] + [sep] + Join(rest[1..], sep);
        }
      }
    }
  }

  /** Conversely, separator-free pieces come back out of the joined string. */
  lemma {:induction false} JoinSplit(parts: seq<string>, sep: char)
    requires |parts| >= 1 && NoSep(parts, sep)
    ensures Split(Join(parts, sep), sep) == parts
    decreases |parts|, |parts[0]|
  {
    var p := parts[0];
    if p == [] {
      if |parts| > 1 {
        JoinSplit(parts[1..], sep);
        assert Join(parts, sep) == [sep] + Join(parts[1..], sep);
        assert Join(parts, sep)[1..] == Join(parts[1..], sep);
      }
    } else {
      var tail := [p[1..]] + parts[1..];
      assert NoSep(tail, sep) by {
        assert forall c | c in p[1..] :: c in p;
      }
      JoinSplit(tail, sep);
      if |parts| == 1 {
        assert Join(parts, sep)[1..] == Join(tail, sep);
      } else {
        assert Join(parts, sep) == [p[0]] + (p[1..] + [sep] + Join(parts[1..], sep));
        assert Join(tail, sep) == p[1..] + [sep] + Join(tail[1..], sep);
        assert tail[1..] == parts[1..];
        assert Join(parts, sep)[1..] == Join(tail, sep);
      }
      assert p[0] in parts[0];
      var j := Join(parts, sep);
      assert j[0] == p[0] && j[0] != sep;
      assert Split(j, sep) == [[p[0]] + tail[0]] + tail[1..];
      assert [p[0]] + p[1..] == p;
      assert parts == [p] + parts[1..];
    }
  }

  /** Where piece `k` starts inside the joined string. */
  function PieceOffset(parts: seq<string>, k: nat): nat
    requires k < |parts|
    decreases k
  {
    if k == 0 then 0 else |parts[0]| + 1 + PieceOffset(parts[1..], k - 1)
  }

  lemma {:induction false} PieceAt(parts: seq<string>, sep: char, k: nat, i: nat)
    requires k < |parts| && i < |parts[k]|
    ensures PieceOffset(parts, k) + i < |Join(parts, sep)|
    ensures Join(parts, sep)[PieceOffset(parts, k) + i] == parts[k][i]
    decreases k
  {
    if k == 0 {
      if |parts| > 1 {
        assert Join(parts, sep) == parts[0] + ([sep] + Join(parts[1..], sep));
      }
    } else {
      PieceAt(parts[1..], sep, k - 1, i);
      assert Join(parts, sep) == (parts[0] + [sep]) + Join(parts[1..], sep);
    }
  }

  function Digit(d: int): char
    requires 0 <= d < 10
  {
    "0123456789"[d]
  }

  function DigitValue(c: char): (r: int)
    ensures 0 <= r < 10
  {
    if '0' <= c <= '9' then (c as int) - ('0' as int) else 0
  }

  /** Decimal text of a natural number, as `String(n)` prints it. */
  function NatToString(n: nat): (r: string)
    ensures |r| > 0
    decreases n
  {
    if n < 10 then [Digit(n)] else NatToString(n / 10) + [Digit(n % 10)]
  }

  /** Reads decimal text back, last digit first. */
  function ParseNat(s: string): nat {
    if s == [] then 0 else 10 * ParseNat(s[..|s| - 1]) + DigitValue(s[|s| - 1])
  }

  lemma {:induction false} ParseNatToString(n: nat)
    ensures ParseNat(NatToString(n)) == n
    decreases n
  {
    var s := NatToString(n);
    if n >= 10 {
      ParseNatToString(n / 10);
      assert s[..|s| - 1] == NatToString(n / 10);
    }
  }

  /** `String(i)` for an integer. */
  function IntToString(i: int): (r: string) {
    if i < 0 then "-" + NatToString(-i) else NatToString(i)
  }

  lemma {:induction false} NatToStringNoSign(n: nat)
    ensures NatToString(n)[0] != '-'
    decreases n
  {
    if n >= 10 {
      NatToStringNoSign(n / 10);
    }
  }

  /** Different numbers print differently: the agent relies on this when it
      correlates replies by `'success' + id`. */
  lemma IntToStringInjective(a: int, b: int)
    requires IntToString(a) == IntToString(b)
    ensures a == b
  {
    if a < 0 && b < 0 {
      assert IntToString(a)[1..] == NatToString(-a);
      assert IntToString(b)[1..] == NatToString(-b);
      ParseNatToString(-a);
      ParseNatToString(-b);
    } else if a >= 0 && b >= 0 {
      ParseNatToString(a);
      ParseNatToString(b);
    } else if a < 0 {
      NatToStringNoSign(b);
    } else {
      NatToStringNoSign(a);
    }
  }

  /** `String(v)`, which is also what `'' + v` and an object key do to `v`. */
  function ToStr(v: Value): string
    decreases v, 1
  {
    match v
    case Undefined => "undefined"
    case Null => "null"
    case Bool(b) => if b then "true" else "false"
    case Num(n) => IntToString(n)
    case Str(s) => s
    case Arr(es) => JoinElements(v, es)
    case Obj(_) => "[object Object]"
  }

  /** `Array.prototype.join(',')`: undefined and null elements print as nothing. */
  function JoinElements(v: Value, es: seq<Value>): string
    requires forall e | e in es :: e < v
    decreases v, 0, |es|
  {
    if es == [] then ""
    else
      assert es[0] in es;
      assert forall e | e in es[1..] :: e in es;
      var first := if es[0].Undefined? || es[0].Null? then "" else ToStr(es[0]);
      if |es| == 1 then first else first + "," + JoinElements(v, es[1..])
  }
}
