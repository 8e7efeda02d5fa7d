/**
 * `JSON.stringify` over the values of JsValue, without the pretty-printing
 * whitespace: object members are written in insertion order and never sorted,
 * members whose value is undefined are left out, and undefined array items
 * are written as null. The lemmas measure how the text of an object changes
 * when one member is replaced or one is added, which is what the signature
 * flow needs to compare the bytes it signs with the bytes it verifies.
 */
module JsonText {
  import opened JsValue

  function HexDigit(d: nat): char
    requires d < 16
  {
    "0123456789abcdef"[d]
  }

  /** The escape sequence JSON.stringify writes for one character of a string. */
  function EscapeChar(c: char): (t: string)
    ensures |t| >= 1
  {
    if c == '"' then "\\\""
    else if c == '\\' then "\\\\"
    else if c == '\n' then "\\n"
    else if c == '\r' then "\\r"
    else if c == '\t' then "\\t"
    else if c as int == 8 then "\\b"
    else if c as int == 12 then "\\f"
    else if (c as int) < 32 then "\\u00" + [HexDigit(c as int / 16), HexDigit(c as int % 16)]
    else [c]
  }

  function Escape(s: string): string
  {
    if s == [] then "" else EscapeChar(s[0]) + Escape(s[1..])
  }

  function Quote(s: string): (t: string)
    ensures |t| >= 2
  {
    "\"" + Escape(s) + "\""
  }

  /** The JSON text of a value; undefined only reaches here as an array item, written null. */
  function Ser(v: Value): (t: string)
    ensures t != ""
  {
    match v
    case Undefined => "null"
    case Null => "null"
    case Bool(b) => if b then "true" else "false"
    case Num(n) => IntToString(n)
    case Str(s) => Quote(s)
    case Arr(items) => "[" + SerItems(items) + "]"
    case Obj(ms) => "{" + SerMembers(ms) + "}"
  }

  function SerItems(items: seq<Value>): string
  {
    if items == [] then ""
    else if |items| == 1 then Ser(items[0])
    else Ser(items[0]) + "," + SerItems(items[1..])
  }

  /** `"key":value` for one member whose value is not undefined. */
  function Entry(m: Member): string
  {
    Quote(m.key) + ":" + Ser(m.val)
  }

  /** The members of an object, comma separated, skipping those whose value is undefined. */
  function SerMembers(ms: seq<Member>): string
  {
    if ms == [] then ""
    else
      var rest := SerMembers(ms[1..]);
      if ms[0].val.Undefined? then rest
      else if rest == "" then Entry(ms[0])
      else Entry(ms[0]) + "," + rest
  }

  /** `JSON.stringify(obj)` for an object with the given members. */
  function Stringify(ms: seq<Member>): string
  {
    Ser(Obj(ms))
  }

  /** The members' text is empty exactly when every member's value is undefined. */
  lemma {:induction false} SerMembersEmpty(ms: seq<Member>)
    ensures SerMembers(ms) == "" <==> forall j :: 0 <= j < |ms| ==> ms[j].val.Undefined?
  {
    if ms != [] {
      SerMembersEmpty(ms[1..]);
      assert forall j :: 1 <= j < |ms| ==> ms[j] == ms[1..][j - 1];
    }
  }

  /**
   * Replacing the value of one member by another defined value changes the
   * length of the text by exactly the difference in the two values' lengths.
   */
  lemma {:induction false} SerMembersReplace(ms: seq<Member>, i: nat, v: Value)
    requires i < |ms|
    requires !ms[i].val.Undefined? && !v.Undefined?
    ensures |SerMembers(ms[i := Member(ms[i].key, v)])| + |Ser(ms[i].val)|
         == |SerMembers(ms)| + |Ser(v)|
  {
    var ms' := ms[i := Member(ms[i].key, v)];
    if i == 0 {
      assert ms'[1..] == ms[1..];
    } else {
      assert ms'[1..] == ms[1..][i - 1 := Member(ms[i].key, v)];
      SerMembersReplace(ms[1..], i - 1, v);
      SerMembersEmpty(ms[1..]);
      SerMembersEmpty(ms'[1..]);
      assert !ms[1..][i - 1].val.Undefined?;
      assert !ms'[1..][i - 1].val.Undefined?;
    }
  }

  /** Adding a defined member at the end always lengthens the text. */
  lemma {:induction false} SerMembersAppend(ms: seq<Member>, m: Member)
    requires !m.val.Undefined?
    ensures |SerMembers(ms)| < |SerMembers(ms + [m])|
  {
    if ms != [] {
      assert (ms + [m])[1..] == ms[1..] + [m];
      SerMembersAppend(ms[1..], m);
    }
  }
}
