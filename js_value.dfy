/**
 * The slice of JavaScript's value semantics that the provenance core relies on:
 * JSON-shaped values whose objects keep their members in insertion order,
 * truthiness, property reads (with the TypeError thrown on null/undefined),
 * `||`, template-literal string conversion and `String.prototype.substr`.
 */
module JsValue {

  /** A JavaScript value as it flows through the core. Objects are ordered member lists. */
  datatype Value =
    | Undefined
    | Null
    | Bool(b: bool)
    | Num(n: int)
    | Str(s: string)
    | Arr(items: seq<Value>)
    | Obj(members: seq<Member>)

  datatype Member = Member(key: string, val: Value)

  /** The result of a computation that may throw; `Throw` carries the error's message. */
  datatype Outcome<T> = Ok(value: T) | Throw(message: string)

  datatype Option<T> = None | Some(value: T)

  /** JavaScript truthiness: `undefined`, `null`, `false`, `0` and `""` are falsy. */
  predicate Truthy(v: Value)
  {
    match v
    case Undefined => false
    case Null => false
    case Bool(b) => b
    case Num(n) => n != 0
    case Str(s) => s != ""
    case Arr(_) => true
    case Obj(_) => true
  }

  predicate Nullish(v: Value)
  {
    v.Undefined? || v.Null?
  }

  /** Position of the first member named `k`, or -1 when there is none. */
  function IndexOf(ms: seq<Member>, k: string): (i: int)
    ensures -1 <= i < |ms|
    ensures 0 <= i ==> ms[i].key == k && forall j :: 0 <= j < i ==> ms[j].key != k
    ensures i < 0 ==> forall j :: 0 <= j < |ms| ==> ms[j].key != k
  {
    IndexFrom(ms, k, 0)
  }

  /** The search behind `IndexOf`, from position `start` on. */
  function IndexFrom(ms: seq<Member>, k: string, start: nat): (i: int)
    requires start <= |ms|
    ensures -1 <= i < |ms|
    ensures 0 <= i ==> start <= i && ms[i].key == k && forall j :: start <= j < i ==> ms[j].key != k
    ensures i < 0 ==> forall j :: start <= j < |ms| ==> ms[j].key != k
    decreases |ms| - start
  {
    if start == |ms| then -1
    else if ms[start].key == k then start
    else IndexFrom(ms, k, start + 1)
  }

  /** `obj[k]` on an own member list: the member's value, or undefined. */
  function Lookup(ms: seq<Member>, k: string): Value
  {
    var i := IndexOf(ms, k);
    if 0 <= i then ms[i].val else Undefined
  }

  /** `IndexOf` is determined by where the key first occurs. */
  lemma IndexOfAt(ms: seq<Member>, k: string, i: int)
    requires -1 <= i < |ms|
    requires 0 <= i ==> ms[i].key == k
    requires forall j :: 0 <= j < |ms| && (i < 0 || j < i) ==> ms[j].key != k
    ensures IndexOf(ms, k) == i
  {
  }

  /** Two member lists with the same keys position by position find every key at the same place. */
  lemma IndexOfSameKeys(ms: seq<Member>, r: seq<Member>, k: string)
    requires |ms| == |r|
    requires forall j :: 0 <= j < |ms| ==> ms[j].key == r[j].key
    ensures IndexOf(r, k) == IndexOf(ms, k)
  {
    IndexOfAt(r, k, IndexOf(ms, k));
  }

  /** `obj[k] = v`: an existing member keeps its position, a new one goes last. */
  function SetMember(ms: seq<Member>, k: string, v: Value): (r: seq<Member>)
    ensures Lookup(r, k) == v
    ensures forall k' :: k' != k ==> Lookup(r, k') == Lookup(ms, k')
    ensures 0 <= IndexOf(ms, k) ==> |r| == |ms| && IndexOf(r, k) == IndexOf(ms, k)
    ensures 0 <= IndexOf(ms, k) ==> r == ms[IndexOf(ms, k) := Member(k, v)]
    ensures IndexOf(ms, k) < 0 ==> r == ms + [Member(k, v)] && IndexOf(r, k) == |ms|
  {
    var i := IndexOf(ms, k);
    if 0 <= i then
      var r := ms[i := Member(k, v)];
      IndexOfSameKeys(ms, r, k);
      assert forall k' :: k' != k ==> IndexOf(r, k') == IndexOf(ms, k') by {
        forall k' | k' != k { IndexOfSameKeys(ms, r, k'); }
      }
      r
    else
      var r := ms + [Member(k, v)];
      IndexOfAt(r, k, |ms|);
      assert forall k' :: k' != k ==> IndexOf(r, k') == IndexOf(ms, k') by {
        forall k' | k' != k { IndexOfAt(r, k', IndexOf(ms, k')); }
      }
      r
  }

  /** Setting the same key twice leaves the second value, at the position the first one took. */
  lemma SetMemberTwice(ms: seq<Member>, k: string, v1: Value, v2: Value)
    ensures var r1 := SetMember(ms, k, v1);
            var i := IndexOf(r1, k);
            0 <= i && r1[i] == Member(k, v1) && SetMember(r1, k, v2) == SetMember(ms, k, v2)
            && SetMember(ms, k, v2) == r1[i := Member(k, v2)]
  {
    var r1 := SetMember(ms, k, v1);
    if IndexOf(ms, k) < 0 {
      assert (ms + [Member(k, v1)])[|ms| := Member(k, v2)] == ms + [Member(k, v2)];
    }
  }

  /** `delete obj[k]`: removes the member named `k`, if any; the others keep their order. */
  function DeleteMember(ms: seq<Member>, k: string): seq<Member>
  {
    var i := IndexOf(ms, k);
    if 0 <= i then ms[..i] + ms[i + 1..] else ms
  }

  /** Deleting a key just set on its last member drops that member. */
  lemma DeleteAfterSetLast(ms: seq<Member>, k: string, v: Value)
    requires |ms| > 0 && IndexOf(ms, k) == |ms| - 1
    ensures DeleteMember(SetMember(ms, k, v), k) == ms[..|ms| - 1]
  {
    var r := SetMember(ms, k, v);
    assert r == ms[|ms| - 1 := Member(k, v)];
    assert r[..|ms| - 1] == ms[..|ms| - 1];
    assert r[|ms|..] == [];
  }

  /** Deleting one key leaves every other key's value as it was. */
  lemma LookupDelete(ms: seq<Member>, k: string, k': string)
    requires k' != k
    ensures Lookup(DeleteMember(ms, k), k') == Lookup(ms, k')
  {
    var i := IndexOf(ms, k);
    if 0 <= i {
      var r := DeleteMember(ms, k);
      var j := IndexOf(ms, k');
      assert forall x :: 0 <= x < i ==> r[x] == ms[x];
      assert forall x :: i <= x < |r| ==> r[x] == ms[x + 1];
      if j < 0 {
        IndexOfAt(r, k', -1);
      } else if j < i {
        IndexOfAt(r, k', j);
      } else {
        IndexOfAt(r, k', j - 1);
      }
    }
  }

  /** `v.k` where `v` is known not to be null or undefined; primitives have none of the keys read here. */
  function Prop(v: Value, k: string): Value
  {
    if v.Obj? then Lookup(v.members, k) else Undefined
  }

  /** `v?.k` */
  function OptProp(v: Value, k: string): (r: Value)
    ensures Nullish(v) ==> r == Undefined
  {
    if Nullish(v) then Undefined else Prop(v, k)
  }

  /** The message of the TypeError thrown by reading `k` from null or undefined. */
  function ReadError(v: Value, k: string): string
  {
    "Cannot read properties of " + (if v.Null? then "null" else "undefined") + " (reading '" + k + "')"
  }

  /**
   * The members every plain object inherits from `Object.prototype`. Reading
   * one of these from an object that lacks an own member of that name finds a
   * function, or for `__proto__` the prototype object, and so a truthy value
   * with none of the object's own fields.
   */
  const ObjectPrototypeKeys: set<string> := {
    "constructor", "hasOwnProperty", "isPrototypeOf", "propertyIsEnumerable", "toLocaleString",
    "toString", "valueOf", "__proto__", "__defineGetter__", "__defineSetter__", "__lookupGetter__",
    "__lookupSetter__"
  }

  /** Whether `obj[k]` on an object without an own member `k` is inherited rather than `undefined`. */
  predicate Inherited(k: string)
  {
    k in ObjectPrototypeKeys
  }

  /** `a || b` */
  function Or(a: Value, b: Value): (r: Value)
    ensures Truthy(a) ==> r == a
    ensures !Truthy(a) ==> r == b
  {
    if Truthy(a) then a else b
  }

  function DigitChar(d: nat): char
    requires d < 10
  {
    ('0' as int + d) as char
  }

  /** Decimal digits of a natural number, without leading zeros. */
  function NatToString(n: nat): (s: string)
    ensures |s| >= 1
    ensures forall i :: 0 <= i < |s| ==> '0' <= s[i] <= '9'
    ensures n < 10 <==> |s| == 1
  {
    if n < 10 then [DigitChar(n)] else NatToString(n / 10) + [DigitChar(n % 10)]
  }

  /** Different numbers have different decimal texts. */
  lemma {:induction false} NatToStringInjective(m: nat, n: nat)
    requires NatToString(m) == NatToString(n)
    ensures m == n
  {
    var s := NatToString(m);
    if m < 10 || n < 10 {
      assert |s| == 1;
      assert m < 10 && n < 10;
      assert DigitChar(m) == s[0] == DigitChar(n);
    } else {
      SnocInjective(NatToString(m / 10), NatToString(n / 10), DigitChar(m % 10), DigitChar(n % 10));
      NatToStringInjective(m / 10, n / 10);
    }
  }

  /** Appending one element is injective. */
  lemma SnocInjective<T>(a: seq<T>, b: seq<T>, x: T, y: T)
    requires a + [x] == b + [y]
    ensures a == b && x == y
  {
    assert |a| == |b|;
    assert a == (a + [x])[..|a|];
    assert b == (b + [y])[..|b|];
    assert x == (a + [x])[|a|];
  }

  function IntToString(i: int): (s: string)
    ensures s != ""
  {
    if i < 0 then "-" + NatToString(-i) else NatToString(i)
  }

  /** `String(v)`, as a template literal `${v}` converts its argument. */
  function ToStr(v: Value): string
  {
    match v
    case Undefined => "undefined"
    case Null => "null"
    case Bool(b) => if b then "true" else "false"
    case Num(n) => IntToString(n)
    case Str(s) => s
    case Arr(items) => JoinItems(items)
    case Obj(_) => "[object Object]"
  }

  /** `Array.prototype.join(",")`: null and undefined items become the empty string. */
  function JoinItems(items: seq<Value>): string
  {
    if items == [] then ""
    else
      var head := if Nullish(items[0]) then "" else ToStr(items[0]);
      if |items| == 1 then head else head + "," + JoinItems(items[1..])
  }

  /** The TypeError raised when an object yields no primitive value to convert. */
  const ToPrimitiveError: string := "Cannot convert object to primitive value"

  /**
   * Whether JavaScript can turn `v` into a primitive, as `String(v)`, a
   * template literal, `+`, a computed property key and `Number(v)` all must.
   * Values parsed from JSON are never functions, so an object's own
   * `toString` member is not callable: the conversion passes over it, the
   * inherited `valueOf` gives back the object itself, and the conversion
   * throws. Any other object converts through the inherited `toString`. An
   * array converts through `join`, item by item.
   */
  predicate StringConvertible(v: Value)
  {
    match v
    case Obj(ms) => IndexOf(ms, "toString") < 0
    case Arr(items) => forall x <- items :: StringConvertible(x)
    case _ => true
  }

  /** `String(v)`: its text, or the TypeError when `v` cannot be converted. */
  function StringOf(v: Value): (r: Outcome<string>)
    ensures r.Ok? <==> StringConvertible(v)
    ensures r.Ok? ==> r.value == ToStr(v)
    ensures r.Throw? ==> r.message == ToPrimitiveError
  {
    if StringConvertible(v) then Ok(ToStr(v)) else Throw(ToPrimitiveError)
  }

  /** `s.substr(start, len)` for non-negative arguments. */
  function Substr(s: string, start: nat, len: nat): (r: string)
    ensures |r| <= len
    ensures start <= |s| ==> r == s[start..if start + len <= |s| then start + len else |s|]
    ensures |s| < start ==> r == ""
  {
    if |s| <= start then ""
    else if start + len <= |s| then s[start..start + len]
    else s[start..]
  }
}
