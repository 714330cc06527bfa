/** A reader of JSON text without white space, after RFC 8259, and that it reads every canonical text back. */
module JsonReader {
  import opened Common
  import opened Lex
  import opened CanonicalJson
  import opened CanonicalProof

  /** What was read and the text after it. */
  datatype Read<T> = Read(value: T, rest: string) | Malformed

  // ------------------------------------------------------------------ the grammar

  /** The value of a hexadecimal digit, or -1. */
  function HexOf(c: char): int {
    if '0' <= c <= '9' then c as int - '0' as int
    else if 'a' <= c <= 'f' then c as int - 'a' as int + 10
    else if 'A' <= c <= 'F' then c as int - 'A' as int + 10
    else -1
  }

  /** Section 7: an escape, after its backslash. */
  function ReadEscape(t: string): (r: Read<char>)
    ensures r.Read? ==> |r.rest| < |t|
  {
    if t == "" then Malformed
    else match t[0] {
      case '"' => Read('"', t[1..])
      case '\\' => Read('\\', t[1..])
      case '/' => Read('/', t[1..])
      case 'b' => Read(8 as char, t[1..])
      case 'f' => Read(12 as char, t[1..])
      case 'n' => Read(10 as char, t[1..])
      case 'r' => Read(13 as char, t[1..])
      case 't' => Read(9 as char, t[1..])
      case 'u' =>
        if |t| < 5 || HexOf(t[1]) < 0 || HexOf(t[2]) < 0 || HexOf(t[3]) < 0 || HexOf(t[4]) < 0 then Malformed
        else
          var code := 4096 * HexOf(t[1]) + 256 * HexOf(t[2]) + 16 * HexOf(t[3]) + HexOf(t[4]);
          if 0xD800 <= code < 0xE000 || code > 0xFFFF then Malformed else Read(code as char, t[5..])
      case _ => Malformed
    }
  }

  /** One character of a string; control characters stand escaped only. */
  function ReadChar(t: string): (r: Read<char>)
    ensures r.Read? ==> |r.rest| < |t|
  {
    if t == "" || t[0] as int < 0x20 then Malformed
    else if t[0] == '\\' then ReadEscape(t[1..])
    else Read(t[0], t[1..])
  }

  /** A string, after its opening quotation mark. */
  function ReadString(t: string): (r: Read<string>)
    ensures r.Read? ==> |r.rest| < |t|
    decreases |t|
  {
    if t == "" then Malformed
    else if t[0] == '"' then Read("", t[1..])
    else
      match ReadChar(t) {
        case Malformed => Malformed
        case Read(c, rest) => match ReadString(rest) { case Malformed => Malformed case Read(s, more) => Read([c] + s, more) }
      }
  }

  /** The text up to the next structural character. */
  function Word(t: string): (w: string)
    ensures |w| <= |t| && t[..|w|] == w
  {
    if t == "" || !LeafChar(t[0]) then "" else [t[0]] + Word(t[1..])
  }

  /** Section 3: a literal name or a number. */
  function ReadLeaf(t: string): (r: Read<Json>)
    ensures r.Read? ==> |r.rest| < |t|
  {
    var w := Word(t);
    if w == "true" then Read(Bool(true), t[|w|..])
    else if w == "false" then Read(Bool(false), t[|w|..])
    else if w == "null" then Read(Null, t[|w|..])
    else if NumberText(w) then Read(Num(w), t[|w|..])
    else Malformed
  }

  function ReadValue(t: string): (r: Read<Json>)
    ensures r.Read? ==> |r.rest| < |t|
    decreases |t|, 2
  {
    if t == "" then Malformed
    else if t[0] == '"' then
      match ReadString(t[1..]) { case Malformed => Malformed case Read(s, rest) => Read(Str(s), rest) }
    else if t[0] == '[' then
      if |t| > 1 && t[1] == ']' then Read(Arr([]), t[2..])
      else match ReadItems(t[1..]) { case Malformed => Malformed case Read(items, rest) => Read(Arr(items), rest) }
    else if t[0] == '{' then
      if |t| > 1 && t[1] == '}' then Read(Obj([]), t[2..])
      else match ReadMembers(t[1..]) { case Malformed => Malformed case Read(ms, rest) => Read(Obj(ms), rest) }
    else ReadLeaf(t)
  }

  /** Section 5: one or more values, up to the closing bracket. */
  function ReadItems(t: string): (r: Read<seq<Json>>)
    ensures r.Read? ==> |r.rest| < |t|
    decreases |t|, 3
  {
    match ReadValue(t)
    case Malformed => Malformed
    case Read(v, rest) =>
      if rest == "" then Malformed
      else if rest[0] == ']' then Read([v], rest[1..])
      else if rest[0] == ',' then
        match ReadItems(rest[1..]) { case Malformed => Malformed case Read(more, after) => Read([v] + more, after) }
      else Malformed
  }

  /** Section 4: a name, a colon and a value. */
  function ReadMember(t: string): (r: Read<Member>)
    ensures r.Read? ==> |r.rest| < |t|
    decreases |t|, 3
  {
    if t == "" || t[0] != '"' then Malformed
    else
      match ReadString(t[1..])
      case Malformed => Malformed
      case Read(key, rest) =>
        if rest == "" || rest[0] != ':' then Malformed
        else match ReadValue(rest[1..]) { case Malformed => Malformed case Read(v, after) => Read(Member(key, v), after) }
  }

  function ReadMembers(t: string): (r: Read<seq<Member>>)
    ensures r.Read? ==> |r.rest| < |t|
    decreases |t|, 4
  {
    match ReadMember(t)
    case Malformed => Malformed
    case Read(m, rest) =>
      if rest == "" then Malformed
      else if rest[0] == '}' then Read([m], rest[1..])
      else if rest[0] == ',' then
        match ReadMembers(rest[1..]) { case Malformed => Malformed case Read(more, after) => Read([m] + more, after) }
      else Malformed
  }

  // ------------------------------------------------------------------ strings read back

  lemma HexReads(n: nat)
    requires n < 16
    ensures HexOf(HexDigit(n)) == n
  {
    HexDigitValue(n);
  }

  lemma CharReads(c: char, x: string)
    ensures ReadChar(Escape(c) + x) == Read(c, x)
    ensures (Escape(c) + x)[0] != '"'
  {
    var t := Escape(c) + x;
    assert t[0] == Escape(c)[0] && t[|Escape(c)|..] == x;
    if |Escape(c)| == 2 {
      assert t[1..][0] == Escape(c)[1] && t[1..][1..] == x;
    } else if |Escape(c)| == 6 {
      HexReads(c as int / 16);
      HexReads(c as int % 16);
      var u := t[1..];
      assert u[0] == 'u' && u[1] == '0' && u[2] == '0' && u[3] == HexDigit(c as int / 16) && u[4] == HexDigit(c as int % 16);
      assert u[5..] == x;
    }
  }

  lemma {:induction false} StringReads(s: string, x: string)
    ensures ReadString(Literal(s, x)) == Read(s, x)
  {
    LiteralSplit(s, x);
    if s != [] {
      hide Literal, Escape, ReadChar;
      CharReads(s[0], Literal(s[1..], x));
      StringReads(s[1..], x);
      assert s == [s[0]] + s[1..];
    }
  }

  lemma QuoteReads(s: string, x: string)
    ensures var t := Quote(s) + x; t[0] == '"' && ReadString(t[1..]) == Read(s, x)
  {
    StringReads(s, x);
    hide EscapeAll, ReadString;
    assert Quote(s) + x == "\"" + Literal(s, x);
    assert (Quote(s) + x)[1..] == Literal(s, x);
  }

  // ------------------------------------------------------------------ forms read back

  /** The value a printed form stands for. */
  function ValueOf(f: Form): Json {
    match f
    case Leaf(t) => if t == "true" then Bool(true) else if t == "false" then Bool(false) else if t == "null" then Null else Num(t)
    case Text(s) => Str(s)
    case List(items) => Arr(ValuesOf(items))
    case Record(ms) => Obj(MembersOf(ms))
  }

  function ValuesOf(items: seq<Form>): seq<Json> {
    if items == [] then [] else [ValueOf(items[0])] + ValuesOf(items[1..])
  }

  function MembersOf(ms: seq<Pair<Form>>): seq<Member> {
    if ms == [] then [] else [Member(ms[0].key, ValueOf(ms[0].value))] + MembersOf(ms[1..])
  }

  predicate LeafOk(t: string) { t in {"true", "false", "null"} || NumberText(t) }

  predicate Readable(f: Form) {
    match f
    case Leaf(t) => LeafOk(t)
    case Text(_) => true
    case List(items) => forall i :: 0 <= i < |items| ==> Readable(items[i])
    case Record(ms) => forall i :: 0 <= i < |ms| ==> Readable(ms[i].value)
  }

  lemma {:induction false} ReadableIsOk(f: Form)
    requires Readable(f)
    ensures FormOk(f)
  {
    match f
    case Leaf(t) =>
    case Text(_) =>
    case List(items) => forall i | 0 <= i < |items| ensures FormOk(items[i]) { ReadableIsOk(items[i]); }
    case Record(ms) => forall i | 0 <= i < |ms| ensures FormOk(ms[i].value) { ReadableIsOk(ms[i].value); }
  }

  lemma {:induction false} WordReads(t: string, x: string)
    requires (forall c :: c in t ==> LeafChar(c)) && Rest(x)
    ensures Word(t + x) == t
  {
    if t == [] {
      assert t + x == x;
    } else {
      assert (t + x)[0] == t[0] && (t + x)[1..] == t[1..] + x && t[0] in t;
      WordReads(t[1..], x);
    }
  }

  lemma LeafReads(t: string, x: string)
    requires LeafOk(t) && Rest(x)
    ensures ReadLeaf(t + x) == Read(ValueOf(Leaf(t)), x)
    ensures t != "" && (t + x)[0] !in {'"', '[', '{'}
  {
    assert forall c :: c in t ==> LeafChar(c);
    assert t[0] in t;
    WordReads(t, x);
    assert (t + x)[|t|..] == x;
    assert NumberText(t) ==> t !in {"true", "false", "null"} by {
      if NumberText(t) { assert t[0] == '-' || '0' <= t[0] <= '9'; }
    }
    hide Word;
  }

  lemma {:induction false} FormReads(f: Form, x: string)
    requires Readable(f) && Rest(x)
    ensures ReadValue(Show(f) + x) == Read(ValueOf(f), x)
    decreases f, 1
  {
    match f
    case Leaf(t) => LeafReads(t, x);
    case Text(s) => QuoteReads(s, x);
    case List(items) => ListReads(f, x);
    case Record(ms) => RecordReads(f, x);
  }

  lemma {:induction false} ListReads(f: Form, x: string)
    requires Readable(f) && f.List? && Rest(x)
    ensures ReadValue(Show(f) + x) == Read(ValueOf(f), x)
    decreases f, 0
  {
    hide ShowItems, Body, Readable, ReadItems;
    var body := Body(ShowItems(f.items), ']', x);
    Bracketed('[', ShowItems(f.items), ']', x);
    DropOne('[', body);
    if f.items == [] {
      assert ShowItems(f.items) == "" by { NoItems(); }
      BodyNone(']', x);
      assert body == [']'] + x && ([']'] + x)[1..] == x;
    } else {
      AllReadable(f);
      ReadableIsOk(f.items[0]);
      ItemsSplit(f.items, x);
      ItemsRead(f.items, x);
      var t := ['['] + body;
      assert t[1..] == body && t[1] == body[0];
    }
  }

  lemma NoItems()
    ensures ShowItems([]) == "" && ShowMembers([]) == ""
  {
  }

  lemma AllReadable(f: Form)
    requires Readable(f)
    ensures f.List? ==> forall i :: 0 <= i < |f.items| ==> Readable(f.items[i])
    ensures f.Record? ==> forall i :: 0 <= i < |f.members| ==> Readable(f.members[i].value)
  {
  }

  lemma {:induction false} ItemsRead(items: seq<Form>, x: string)
    requires items != [] && forall i :: 0 <= i < |items| ==> Readable(items[i])
    ensures ReadItems(Body(ShowItems(items), ']', x)) == Read(ValuesOf(items), x)
    decreases items, 0
  {
    assert ItemsTail(items, x) != "";
    hide Show, Readable, Body, Tail, ShowItems, ReadValue;
    ReadableIsOk(items[0]);
    ItemsSplit(items, x);
    FormReads(items[0], ItemsTail(items, x));
    hide ItemsTail;
    if |items| > 1 {
      ItemsRead(items[1..], x);
    } else {
      assert items[1..] == [] && ValuesOf(items) == [ValueOf(items[0])];
    }
  }

  lemma {:induction false} RecordReads(f: Form, x: string)
    requires Readable(f) && f.Record? && Rest(x)
    ensures ReadValue(Show(f) + x) == Read(ValueOf(f), x)
    decreases f, 0
  {
    hide ShowMembers, Body, Readable, ReadMembers;
    var body := Body(ShowMembers(f.members), '}', x);
    Bracketed('{', ShowMembers(f.members), '}', x);
    DropOne('{', body);
    if f.members == [] {
      assert ShowMembers(f.members) == "" by { NoItems(); }
      BodyNone('}', x);
      assert body == ['}'] + x && (['}'] + x)[1..] == x;
    } else {
      AllReadable(f);
      MembersSplit(f.members, x);
      MembersRead(f.members, x);
      var t := ['{'] + body;
      assert t[1..] == body && t[1] == body[0];
    }
  }

  lemma {:induction false} MemberReads(m: Pair<Form>, x: string)
    requires Readable(m.value) && Rest(x)
    ensures ReadMember(ShowMember(m) + x) == Read(Member(m.key, ValueOf(m.value)), x)
    decreases m, 1
  {
    hide Show, Quote, Readable, ReadValue, ReadString;
    MemberText(m, x);
    var after := [':'] + (Show(m.value) + x);
    QuoteReads(m.key, after);
    DropOne(':', Show(m.value) + x);
    FormReads(m.value, x);
  }

  lemma {:induction false} MembersRead(ms: seq<Pair<Form>>, x: string)
    requires ms != [] && forall i :: 0 <= i < |ms| ==> Readable(ms[i].value)
    ensures ReadMembers(Body(ShowMembers(ms), '}', x)) == Read(MembersOf(ms), x)
    decreases ms, 0
  {
    assert MembersTail(ms, x) != "";
    hide ShowMember, Readable, Body, Tail, ShowMembers, ReadMember;
    MembersSplit(ms, x);
    MemberReads(ms[0], MembersTail(ms, x));
    hide MembersTail;
    if |ms| > 1 {
      MembersRead(ms[1..], x);
    } else {
      assert ms[1..] == [] && MembersOf(ms) == [Member(ms[0].key, ValueOf(ms[0].value))];
    }
  }

  // ------------------------------------------------------------------ values read back

  lemma {:induction false} NormalReadable(j: Json)
    requires Proper(j)
    ensures Readable(Normal(j))
  {
    match j
    case Arr(items) =>
      NormalItemsAre(items);
      forall i | 0 <= i < |items| ensures Readable(NormalItems(items)[i]) { NormalReadable(items[i]); }
    case Obj(members) =>
      var ms := Sort(NormalMembers(members));
      NormalMembersAre(members);
      SortSorts(NormalMembers(members));
      forall k | 0 <= k < |ms| ensures Readable(ms[k].value) {
        assert ms[k] in ms;
        var i :| From(members, i, ms[k]);
        NormalReadable(members[i].value);
      }
    case _ =>
  }

  lemma {:induction false} ValuesAre(items: seq<Form>)
    ensures |ValuesOf(items)| == |items| && forall i :: 0 <= i < |items| ==> ValuesOf(items)[i] == ValueOf(items[i])
  {
    if items != [] { ValuesAre(items[1..]); }
  }

  lemma {:induction false} MembersAre(ms: seq<Pair<Form>>)
    ensures |MembersOf(ms)| == |ms|
    ensures forall i :: 0 <= i < |ms| ==> MembersOf(ms)[i] == Member(ms[i].key, ValueOf(ms[i].value))
  {
    if ms != [] { MembersAre(ms[1..]); }
  }

  /** What a value prints as stands for the same value, up to key order, undefined members and undefined as null. */
  lemma {:induction false} ValueSame(j: Json)
    requires Proper(j)
    ensures Same(j, ValueOf(Normal(j))) && ValueOf(Normal(j)) != Undefined
  {
    match j
    case Num(t) => assert t !in {"true", "false", "null"} by { assert t[0] == '-' || '0' <= t[0] <= '9'; }
    case Arr(items) =>
      NormalItemsAre(items);
      ValuesAre(NormalItems(items));
      forall i | 0 <= i < |items| ensures Same(items[i], ValueOf(NormalItems(items)[i])) { ValueSame(items[i]); }
    case Obj(members) => ObjectSame(j);
    case _ =>
  }

  lemma {:induction false} ObjectSame(j: Json)
    requires Proper(j) && j.Obj?
    ensures Same(j, ValueOf(Normal(j)))
    decreases j, 0
  {
    var members, ms := j.members, Sort(NormalMembers(j.members));
    NormalMembersAre(members);
    SortSorts(NormalMembers(members));
    MembersAre(ms);
    var read := MembersOf(ms);
    forall k | 0 <= k < |read| ensures exists i :: From(members, i, ms[k]) && read[k] == Member(members[i].key, ValueOf(Normal(members[i].value))) {
      assert ms[k] in ms;
      var i :| From(members, i, ms[k]);
    }
    forall i | 0 <= i < |members| && members[i].value != Undefined
      ensures Same(members[i].value, ValueOf(Normal(members[i].value))) && ValueOf(Normal(members[i].value)) != Undefined {
      ValueSame(members[i].value);
    }
    forall key ensures key in DefinedKeys(members) <==> key in DefinedKeys(read) { KeyReads(members, ms, read, key); }
    forall i, k | 0 <= i < |members| && 0 <= k < |read| && members[i].key == read[k].key
                  && members[i].value != Undefined && read[k].value != Undefined
      ensures Same(members[i].value, read[k].value) {
      var m :| From(members, m, ms[k]) && read[k] == Member(members[m].key, ValueOf(Normal(members[m].value)));
      assert m == i;
    }
  }

  lemma KeyReads(members: seq<Member>, ms: seq<Pair<Form>>, read: seq<Member>, key: string)
    requires |read| == |ms| && forall k :: 0 <= k < |ms| ==> read[k] == Member(ms[k].key, ValueOf(ms[k].value))
    requires forall p :: p in ms <==> exists i :: From(members, i, p)
    ensures key in DefinedKeys(members) <==> key in DefinedKeys(read)
  {
    forall f: Form ensures ValueOf(f) != Undefined { }
    if key in DefinedKeys(members) {
      var i :| 0 <= i < |members| && members[i].value != Undefined && members[i].key == key;
      var p := Pair(members[i].key, Normal(members[i].value));
      assert From(members, i, p);
      assert p in ms;
      var k :| 0 <= k < |ms| && ms[k] == p;
      assert read[k].key == key && read[k].value != Undefined;
    }
    if key in DefinedKeys(read) {
      var k :| 0 <= k < |read| && read[k].value != Undefined && read[k].key == key;
      var p := ms[k];
      assert p in ms && exists i :: From(members, i, p);
      var i :| From(members, i, p);
      assert members[i].key == key;
    }
  }

  /** Round trip: a canonical text is JSON, and reading it gives the value back, up to key order, with undefined
      members dropped and any other undefined read as null. */
  lemma ReadsBack(j: Json)
    requires Proper(j)
    ensures var r := ReadValue(Canonical(j)); r.Read? && r.rest == "" && Same(j, r.value)
  {
    CanonicalIsShow(j);
    NormalReadable(j);
    FormReads(Normal(j), "");
    ValueSame(j);
    hide Canonical, Show, Normal, Same, ReadValue;
    assert Show(Normal(j)) + "" == Show(Normal(j));
  }
}
