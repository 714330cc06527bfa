/** The canonical JSON printer used for signed payloads, and what equal texts mean. */
module CanonicalJson {
  import opened Common
  import opened Lex

  /** A value as JavaScript holds it: object members in insertion order, `Undefined` anywhere.
      A number is its own JSON text. */
  datatype Json =
    | Undefined
    | Null
    | Bool(b: bool)
    | Num(text: string)
    | Str(s: string)
    | Arr(items: seq<Json>)
    | Obj(members: seq<Member>)

  datatype Member = Member(key: string, value: Json)

  // ------------------------------------------------------------------ printing

  function HexDigit(n: nat): char
    requires n < 16
  {
    "0123456789abcdef"[n]
  }

  /** One character of a JSON string literal. */
  function Escape(c: char): string {
    if c == '"' then "\\\""
    else if c == '\\' then "\\\\"
    else if c as int == 8 then "\\b"
    else if c as int == 9 then "\\t"
    else if c as int == 10 then "\\n"
    else if c as int == 12 then "\\f"
    else if c as int == 13 then "\\r"
    else if c as int < 0x20 then "\\u00" + [HexDigit(c as int / 16), HexDigit(c as int % 16)]
    else [c]
  }

  function EscapeAll(s: string): string { if s == [] then [] else Escape(s[0]) + EscapeAll(s[1..]) }

  function Quote(s: string): string { "\"" + EscapeAll(s) + "\"" }

  function Join(parts: seq<string>): string {
    if parts == [] then "" else if |parts| == 1 then parts[0] else parts[0] + "," + Join(parts[1..])
  }

  /** The printed members that are not undefined, in insertion order. */
  function PrintedMembers(members: seq<Member>): seq<Pair<string>> {
    if members == [] then []
    else (if members[0].value == Undefined then [] else [Pair(members[0].key, Canonical(members[0].value))])
         + PrintedMembers(members[1..])
  }

  function PrintedItems(items: seq<Json>): seq<string> {
    if items == [] then [] else [Canonical(items[0])] + PrintedItems(items[1..])
  }

  function KeyColonValue(pairs: seq<Pair<string>>): seq<string> {
    if pairs == [] then [] else [Quote(pairs[0].key) + ":" + pairs[0].value] + KeyColonValue(pairs[1..])
  }

  function Canonical(j: Json): string {
    match j
    case Undefined => "null"
    case Null => "null"
    case Bool(b) => if b then "true" else "false"
    case Num(text) => text
    case Str(s) => Quote(s)
    case Arr(items) => "[" + Join(PrintedItems(items)) + "]"
    case Obj(members) => "{" + Join(KeyColonValue(Sort(PrintedMembers(members)))) + "}"
  }

  // ------------------------------------------------------------------ meaning

  predicate NumberText(t: string) {
    t != "" && (t[0] == '-' || '0' <= t[0] <= '9') && forall c :: c in t ==> LeafChar(c)
  }

  predicate LeafChar(c: char) { c !in {',', ']', '}', '[', '{', '"', ':'} }

  /** Numbers print as numbers, and an object has a key once. */
  predicate Proper(j: Json) {
    match j
    case Num(text) => NumberText(text)
    case Arr(items) => forall i :: 0 <= i < |items| ==> Proper(items[i])
    case Obj(members) =>
      && (forall i, k :: 0 <= i < k < |members| ==> members[i].key != members[k].key)
      && (forall i :: 0 <= i < |members| ==> Proper(members[i].value))
    case _ => true
  }

  function DefinedKeys(members: seq<Member>): set<string> {
    set i | 0 <= i < |members| && members[i].value != Undefined :: members[i].key
  }

  /** Equal up to the order of object members; an undefined member is no member, and any other
      undefined is null. */
  predicate Same(a: Json, b: Json) {
    match a
    case Undefined => b == Undefined || b == Null
    case Null => b == Undefined || b == Null
    case Arr(x) => b.Arr? && |x| == |b.items| && forall i :: 0 <= i < |x| ==> Same(x[i], b.items[i])
    case Obj(x) =>
      && b.Obj? && DefinedKeys(x) == DefinedKeys(b.members)
      && (forall i, k :: 0 <= i < |x| && 0 <= k < |b.members| && x[i].key == b.members[k].key
                         && x[i].value != Undefined && b.members[k].value != Undefined
                         ==> Same(x[i].value, b.members[k].value))
    case _ => a == b
  }
}
