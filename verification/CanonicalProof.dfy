/** The canonical text of a payload determines the payload, up to key order; and the other way round. */
module CanonicalProof {
  import opened Common
  import opened Lex
  import opened CanonicalJson

  // ------------------------------------------------------------------ string literals

  lemma HexDigitValue(n: nat)
    requires n < 16
    ensures (HexDigit(n) as int) == if n < 10 then 48 + n else 87 + n
  {
  }

  /** Escapes are recognisable from the left, and none starts with the closing quote. */
  lemma EscapeInjective(c: char, d: char, x: string, y: string)
    requires Escape(c) + x == Escape(d) + y
    ensures c == d && x == y
  {
    var p, q := Escape(c) + x, Escape(d) + y;
    EscapeShape(c, x);
    EscapeShape(d, y);
    assert Unescape(p) == Unescape(q);
    assert |Escape(c)| == |Escape(d)|;
    assert x == p[|Escape(c)|..] && y == q[|Escape(d)|..];
  }

  /** Reading one character of a literal back, and how much text it took. */
  function Unescape(t: string): (int, nat)
    requires t != []
  {
    if t[0] != '\\' then (t[0] as int, 1)
    else if |t| < 2 then (-1, 1)
    else if t[1] == '"' then ('"' as int, 2)
    else if t[1] == '\\' then ('\\' as int, 2)
    else if t[1] == 'b' then (8, 2)
    else if t[1] == 't' then (9, 2)
    else if t[1] == 'n' then (10, 2)
    else if t[1] == 'f' then (12, 2)
    else if t[1] == 'r' then (13, 2)
    else if |t| < 6 then (-1, 1)
    else (16 * HexValue(t[4]) + HexValue(t[5]), 6)
  }

  function HexValue(c: char): int { if c as int < 58 then c as int - 48 else c as int - 87 }

  lemma EscapeShape(c: char, x: string)
    ensures Escape(c) != [] && Escape(c)[0] != '"'
    ensures Unescape(Escape(c) + x) == (c as int, |Escape(c)|)
  {
    var t := Escape(c) + x;
    assert t[0] == Escape(c)[0];
    if |Escape(c)| > 1 { assert t[1] == Escape(c)[1]; }
    if |Escape(c)| == 6 {
      HexDigitValue(c as int / 16);
      HexDigitValue(c as int % 16);
      assert t[4] == HexDigit(c as int / 16) && t[5] == HexDigit(c as int % 16);
    }
  }

  function Literal(s: string, x: string): string { EscapeAll(s) + "\"" + x }

  lemma LiteralSplit(s: string, x: string)
    ensures Literal(s, x) != []
    ensures s == [] ==> Literal(s, x)[0] == '"' && Literal(s, x)[1..] == x
    ensures s != [] ==> Literal(s, x)[0] != '"' && Literal(s, x) == Escape(s[0]) + Literal(s[1..], x)
  {
    if s == [] {
      assert EscapeAll(s) == "";
      assert "" + "\"" + x == "\"" + x;
    } else {
      EscapeShape(s[0], "");
      hide Escape;
      Assoc(Escape(s[0]), EscapeAll(s[1..]), "\"");
      Assoc(Escape(s[0]), EscapeAll(s[1..]) + "\"", x);
      assert Literal(s, x) == Escape(s[0]) + Literal(s[1..], x);
    }
  }

  lemma Assoc(a: string, b: string, c: string)
    ensures (a + b) + c == a + (b + c)
  {
  }

  lemma {:induction false} EscapeAllInjective(s: string, t: string, x: string, y: string)
    requires Literal(s, x) == Literal(t, y)
    ensures s == t && x == y
  {
    hide Literal, Escape;
    LiteralSplit(s, x);
    LiteralSplit(t, y);
    assert s == [] <==> t == [];
    if s != [] {
      EscapeInjective(s[0], t[0], Literal(s[1..], x), Literal(t[1..], y));
      EscapeAllInjective(s[1..], t[1..], x, y);
      assert s == [s[0]] + s[1..] && t == [t[0]] + t[1..];
    }
  }

  lemma QuoteInjective(s: string, t: string, x: string, y: string)
    requires Quote(s) + x == Quote(t) + y
    ensures s == t && x == y
  {
    var p, q := Quote(s) + x, Quote(t) + y;
    hide EscapeAll;
    assert p == "\"" + Literal(s, x) && q == "\"" + Literal(t, y);
    assert p[1..] == Literal(s, x) && q[1..] == Literal(t, y);
    EscapeAllInjective(s, t, x, y);
  }

  // ------------------------------------------------------------------ the printed form

  /** A value in its printed shape: members defined, sorted and without undefined. */
  datatype Form = Leaf(text: string) | Text(s: string) | List(items: seq<Form>) | Record(members: seq<Pair<Form>>)

  predicate FormOk(f: Form) {
    match f
    case Leaf(t) => t != "" && forall c :: c in t ==> LeafChar(c)
    case Text(_) => true
    case List(items) => forall i :: 0 <= i < |items| ==> FormOk(items[i])
    case Record(ms) => forall i :: 0 <= i < |ms| ==> FormOk(ms[i].value)
  }

  function Show(f: Form): string {
    match f
    case Leaf(t) => t
    case Text(s) => Quote(s)
    case List(items) => "[" + ShowItems(items) + "]"
    case Record(ms) => "{" + ShowMembers(ms) + "}"
  }

  function ShowItems(items: seq<Form>): string {
    if items == [] then "" else if |items| == 1 then Show(items[0]) else Show(items[0]) + "," + ShowItems(items[1..])
  }

  function ShowMember(m: Pair<Form>): string { Quote(m.key) + ":" + Show(m.value) }

  function ShowMembers(ms: seq<Pair<Form>>): string {
    if ms == [] then "" else if |ms| == 1 then ShowMember(ms[0]) else ShowMember(ms[0]) + "," + ShowMembers(ms[1..])
  }

  /** Text after a value: nothing, or a character no leaf contains. */
  predicate Rest(x: string) { x == "" || x[0] in {',', ']', '}'} }

  lemma ShowStarts(f: Form)
    requires FormOk(f)
    ensures Show(f) != "" && Show(f)[0] !in {',', ']', '}'}
    ensures Show(f)[0] == '"' <==> f.Text?
    ensures Show(f)[0] == '[' <==> f.List?
    ensures Show(f)[0] == '{' <==> f.Record?
  {
    if f.Leaf? { assert f.text[0] in f.text; }
  }

  lemma {:induction false} LeafInjective(s: string, t: string, x: string, y: string)
    requires (forall c :: c in s ==> LeafChar(c)) && (forall c :: c in t ==> LeafChar(c))
    requires Rest(x) && Rest(y) && s + x == t + y
    ensures s == t && x == y
  {
    var p, q := s + x, t + y;
    if s != [] { LeafHead(s, x); }
    if t != [] { LeafHead(t, y); }
    assert s == [] ==> p == x;
    assert t == [] ==> q == y;
    assert s == [] <==> t == [];
    if s != [] {
      assert p[1..] == s[1..] + x && q[1..] == t[1..] + y;
      LeafInjective(s[1..], t[1..], x, y);
      assert s == [s[0]] + s[1..] && t == [t[0]] + t[1..];
    }
  }

  lemma LeafHead(t: string, x: string)
    requires t != [] && forall c :: c in t ==> LeafChar(c)
    ensures (t + x)[0] == t[0] && !Rest(t + x)
  {
    assert t[0] in t;
  }

  /** A list or record after its opening bracket, with `close` the closing one. */
  function Body(inner: string, close: char, x: string): string { inner + ([close] + x) }

  lemma Bracketed(open: char, inner: string, close: char, x: string)
    ensures ([open] + inner + [close]) + x == [open] + Body(inner, close, x)
  {
  }

  lemma DropOne(c: char, t: string)
    ensures ([c] + t)[1..] == t && ([c] + t)[0] == c
  {
  }

  lemma {:induction false} ShowInjective(f: Form, g: Form, x: string, y: string)
    requires FormOk(f) && FormOk(g) && Rest(x) && Rest(y) && Show(f) + x == Show(g) + y
    ensures f == g && x == y
    decreases f, 1
  {
    SameKind(f, g, x, y);
    hide ShowItems, ShowMembers, Quote, Body;
    match f
    case Leaf(s) => LeafInjective(s, g.text, x, y);
    case Text(s) => QuoteInjective(s, g.s, x, y);
    case List(items) =>
      Bracketed('[', ShowItems(items), ']', x);
      Bracketed('[', ShowItems(g.items), ']', y);
      DropOne('[', Body(ShowItems(items), ']', x));
      DropOne('[', Body(ShowItems(g.items), ']', y));
      ItemsInjective(items, g.items, x, y);
    case Record(ms) =>
      Bracketed('{', ShowMembers(ms), '}', x);
      Bracketed('{', ShowMembers(g.members), '}', y);
      DropOne('{', Body(ShowMembers(ms), '}', x));
      DropOne('{', Body(ShowMembers(g.members), '}', y));
      MembersInjective(ms, g.members, x, y);
  }

  lemma SameKind(f: Form, g: Form, x: string, y: string)
    requires FormOk(f) && FormOk(g) && Show(f) + x == Show(g) + y
    ensures (f.Leaf? <==> g.Leaf?) && (f.Text? <==> g.Text?) && (f.List? <==> g.List?) && (f.Record? <==> g.Record?)
  {
    ShowStarts(f);
    ShowStarts(g);
    hide Show;
    assert (Show(f) + x)[0] == Show(f)[0] && (Show(g) + y)[0] == Show(g)[0];
  }

  /** Elements separated by commas and closed by `close`: what follows the first. */
  function Tail(more: bool, rest: string, close: char, x: string): string {
    if more then "," + Body(rest, close, x) else [close] + x
  }

  lemma BodySplit(first: string, more: bool, rest: string, close: char, x: string)
    requires close in {']', '}'}
    ensures Body(if more then first + "," + rest else first, close, x) == first + Tail(more, rest, close, x)
    ensures Rest(Tail(more, rest, close, x))
    ensures Tail(more, rest, close, x)[0] == (if more then ',' else close)
    ensures Tail(more, rest, close, x)[1..] == if more then Body(rest, close, x) else x
  {
    if more {
      Assoc(first, ",", rest);
      Assoc(first, "," + rest, [close] + x);
      Assoc(",", rest, [close] + x);
    }
  }

  lemma BodyStarts(first: string, tail: string, close: char)
    requires first != "" && first[0] != close
    ensures (first + tail)[0] != close
  {
  }

  lemma BodyNone(close: char, x: string)
    ensures Body("", close, x) == [close] + x
  {
  }

  lemma {:induction false} ItemsInjective(a: seq<Form>, b: seq<Form>, x: string, y: string)
    requires (forall i :: 0 <= i < |a| ==> FormOk(a[i])) && (forall i :: 0 <= i < |b| ==> FormOk(b[i]))
    requires Body(ShowItems(a), ']', x) == Body(ShowItems(b), ']', y)
    ensures a == b && x == y
    decreases a, 0
  {
    hide Show, FormOk, Body, Tail;
    BodyNone(']', x);
    BodyNone(']', y);
    DropOne(']', x);
    DropOne(']', y);
    if a != [] { ItemsSplit(a, x); }
    if b != [] { ItemsSplit(b, y); }
    assert a == [] <==> b == [];
    if a != [] {
      hide ShowItems;
      ShowInjective(a[0], b[0], ItemsTail(a, x), ItemsTail(b, y));
      assert |a| > 1 <==> |b| > 1;
      assert a == [a[0]] + a[1..] && b == [b[0]] + b[1..];
      if |a| > 1 { ItemsInjective(a[1..], b[1..], x, y); }
    }
  }

  function ItemsTail(items: seq<Form>, x: string): string
    requires items != []
  {
    Tail(|items| > 1, ShowItems(items[1..]), ']', x)
  }

  lemma ItemsSplit(items: seq<Form>, x: string)
    requires items != [] && FormOk(items[0])
    ensures Body(ShowItems(items), ']', x) == Show(items[0]) + ItemsTail(items, x)
    ensures Body(ShowItems(items), ']', x) != [] && Body(ShowItems(items), ']', x)[0] != ']'
    ensures Rest(ItemsTail(items, x)) && ItemsTail(items, x)[0] == (if |items| > 1 then ',' else ']')
    ensures ItemsTail(items, x)[1..] == if |items| > 1 then Body(ShowItems(items[1..]), ']', x) else x
  {
    ShowStarts(items[0]);
    hide Show, Body, Tail;
    BodySplit(Show(items[0]), |items| > 1, ShowItems(items[1..]), ']', x);
    BodyStarts(Show(items[0]), ItemsTail(items, x), ']');
  }

  lemma {:induction false} MembersInjective(a: seq<Pair<Form>>, b: seq<Pair<Form>>, x: string, y: string)
    requires (forall i :: 0 <= i < |a| ==> FormOk(a[i].value)) && (forall i :: 0 <= i < |b| ==> FormOk(b[i].value))
    requires Body(ShowMembers(a), '}', x) == Body(ShowMembers(b), '}', y)
    ensures a == b && x == y
    decreases a, 0
  {
    hide Show, FormOk, Body, Tail, ShowMember;
    BodyNone('}', x);
    BodyNone('}', y);
    DropOne('}', x);
    DropOne('}', y);
    if a != [] { MembersSplit(a, x); }
    if b != [] { MembersSplit(b, y); }
    assert a == [] <==> b == [];
    if a != [] {
      hide ShowMembers;
      MemberInjective(a[0], b[0], MembersTail(a, x), MembersTail(b, y));
      assert |a| > 1 <==> |b| > 1;
      assert a == [a[0]] + a[1..] && b == [b[0]] + b[1..];
      if |a| > 1 { MembersInjective(a[1..], b[1..], x, y); }
    }
  }

  lemma MemberInjective(m: Pair<Form>, n: Pair<Form>, x: string, y: string)
    requires FormOk(m.value) && FormOk(n.value) && Rest(x) && Rest(y) && ShowMember(m) + x == ShowMember(n) + y
    ensures m == n && x == y
    decreases m, 1
  {
    hide Show, Quote, FormOk;
    var u, v := Show(m.value) + x, Show(n.value) + y;
    MemberText(m, x);
    MemberText(n, y);
    QuoteInjective(m.key, n.key, [':'] + u, [':'] + v);
    DropOne(':', u);
    DropOne(':', v);
    ShowInjective(m.value, n.value, x, y);
  }

  lemma MemberText(m: Pair<Form>, x: string)
    ensures ShowMember(m) + x == Quote(m.key) + ([':'] + (Show(m.value) + x))
  {
    hide Show, Quote;
    Assoc(Quote(m.key), ":", Show(m.value));
    Assoc(Quote(m.key), ":" + Show(m.value), x);
    Assoc(":", Show(m.value), x);
  }

  function MembersTail(ms: seq<Pair<Form>>, x: string): string
    requires ms != []
  {
    Tail(|ms| > 1, ShowMembers(ms[1..]), '}', x)
  }

  lemma MembersSplit(ms: seq<Pair<Form>>, x: string)
    requires ms != []
    ensures Body(ShowMembers(ms), '}', x) == ShowMember(ms[0]) + MembersTail(ms, x)
    ensures Body(ShowMembers(ms), '}', x) != [] && Body(ShowMembers(ms), '}', x)[0] != '}'
    ensures Rest(MembersTail(ms, x)) && MembersTail(ms, x)[0] == (if |ms| > 1 then ',' else '}')
    ensures MembersTail(ms, x)[1..] == if |ms| > 1 then Body(ShowMembers(ms[1..]), '}', x) else x
  {
    assert ShowMember(ms[0])[0] == '"';
    hide ShowMember, Body, Tail;
    BodySplit(ShowMember(ms[0]), |ms| > 1, ShowMembers(ms[1..]), '}', x);
    BodyStarts(ShowMember(ms[0]), MembersTail(ms, x), '}');
  }

  // ------------------------------------------------------------------ from values to forms

  function Normal(j: Json): Form {
    match j
    case Undefined => Leaf("null")
    case Null => Leaf("null")
    case Bool(b) => Leaf(if b then "true" else "false")
    case Num(text) => Leaf(text)
    case Str(s) => Text(s)
    case Arr(items) => List(NormalItems(items))
    case Obj(members) => Record(Sort(NormalMembers(members)))
  }

  function NormalItems(items: seq<Json>): seq<Form> {
    if items == [] then [] else [Normal(items[0])] + NormalItems(items[1..])
  }

  function NormalMembers(members: seq<Member>): seq<Pair<Form>> {
    if members == [] then []
    else (if members[0].value == Undefined then [] else [Pair(members[0].key, Normal(members[0].value))])
         + NormalMembers(members[1..])
  }

  function ShownPairs(ms: seq<Pair<Form>>): seq<Pair<string>> {
    if ms == [] then [] else [Pair(ms[0].key, Show(ms[0].value))] + ShownPairs(ms[1..])
  }

  lemma {:induction false} SortShown(ms: seq<Pair<Form>>)
    ensures Sort(ShownPairs(ms)) == ShownPairs(Sort(ms))
  {
    if ms != [] {
      SortShown(ms[1..]);
      InsertShown(ms[0], Sort(ms[1..]));
      assert ShownPairs(ms)[1..] == ShownPairs(ms[1..]);
    }
  }

  lemma {:induction false} InsertShown(m: Pair<Form>, ms: seq<Pair<Form>>)
    ensures Insert(Pair(m.key, Show(m.value)), ShownPairs(ms)) == ShownPairs(Insert(m, ms))
  {
    if ms != [] {
      assert ShownPairs(ms)[1..] == ShownPairs(ms[1..]);
      if Le(m.key, ms[0].key) {
        assert ([m] + ms)[1..] == ms;
      } else {
        InsertShown(m, ms[1..]);
        assert ([ms[0]] + Insert(m, ms[1..]))[1..] == Insert(m, ms[1..]);
      }
    }
  }

  lemma {:induction false} JoinShown(ms: seq<Pair<Form>>)
    ensures |KeyColonValue(ShownPairs(ms))| == |ms|
    ensures Join(KeyColonValue(ShownPairs(ms))) == ShowMembers(ms)
  {
    if ms != [] {
      hide Show, Quote;
      assert ShownPairs(ms)[1..] == ShownPairs(ms[1..]);
      JoinShown(ms[1..]);
      assert KeyColonValue(ShownPairs(ms))[1..] == KeyColonValue(ShownPairs(ms[1..]));
    }
  }

  lemma {:induction false} CanonicalIsShow(j: Json)
    ensures Canonical(j) == Show(Normal(j))
    decreases j, 0
  {
    match j
    case Arr(items) => ItemsShown(items);
    case Obj(members) =>
      MembersShown(members);
      SortShown(NormalMembers(members));
      JoinShown(Sort(NormalMembers(members)));
    case _ =>
  }

  lemma {:induction false} ItemsShown(items: seq<Json>)
    ensures |PrintedItems(items)| == |items| == |NormalItems(items)|
    ensures Join(PrintedItems(items)) == ShowItems(NormalItems(items))
    decreases items, 1
  {
    if items != [] {
      CanonicalIsShow(items[0]);
      ItemsShown(items[1..]);
      hide Canonical, Show, Normal;
      assert PrintedItems(items)[1..] == PrintedItems(items[1..]);
      assert NormalItems(items)[1..] == NormalItems(items[1..]);
    }
  }

  lemma {:induction false} MembersShown(members: seq<Member>)
    ensures PrintedMembers(members) == ShownPairs(NormalMembers(members))
    decreases members, 1
  {
    if members != [] {
      CanonicalIsShow(members[0].value);
      MembersShown(members[1..]);
      hide Canonical, Show, Normal;
      if members[0].value != Undefined {
        assert NormalMembers(members)[1..] == NormalMembers(members[1..]);
      } else {
        assert NormalMembers(members) == NormalMembers(members[1..]);
      }
    }
  }

  // ------------------------------------------------------------------ forms and meaning

  /** The pair a member contributes, and the members it can come from. */
  predicate From(members: seq<Member>, i: int, p: Pair<Form>) {
    0 <= i < |members| && members[i].value != Undefined && p == Pair(members[i].key, Normal(members[i].value))
  }

  lemma {:induction false} NormalMembersAre(members: seq<Member>)
    requires forall i, k :: 0 <= i < k < |members| ==> members[i].key != members[k].key
    ensures DistinctKeys(NormalMembers(members))
    ensures forall p :: p in NormalMembers(members) <==> exists i :: From(members, i, p)
  {
    hide Normal;
    if members != [] {
      var rest := members[1..];
      NormalMembersAre(rest);
      forall p ensures p in NormalMembers(members) <==> exists i :: From(members, i, p) {
        if p in NormalMembers(members) {
          if From(members, 0, p) {
          } else {
            assert p in NormalMembers(rest);
            var i :| From(rest, i, p);
            assert From(members, i + 1, p);
          }
        }
        if i :| From(members, i, p) {
          assert i > 0 ==> From(rest, i - 1, p);
        }
      }
      forall p | p in NormalMembers(rest) ensures p.key != members[0].key {
        var i :| From(rest, i, p);
        assert members[i + 1].key == p.key;
      }
    }
  }

  lemma {:induction false} NormalItemsAre(items: seq<Json>)
    ensures |NormalItems(items)| == |items| && forall i :: 0 <= i < |items| ==> NormalItems(items)[i] == Normal(items[i])
  {
    if items != [] { NormalItemsAre(items[1..]); }
  }

  lemma {:induction false} NormalOk(j: Json)
    requires Proper(j)
    ensures FormOk(Normal(j))
    decreases j
  {
    match j
    case Arr(items) =>
      NormalItemsAre(items);
      forall i | 0 <= i < |items| ensures FormOk(NormalItems(items)[i]) { NormalOk(items[i]); }
    case Obj(members) =>
      NormalMembersAre(members);
      SortSorts(NormalMembers(members));
      var ms := Sort(NormalMembers(members));
      forall k | 0 <= k < |ms| ensures FormOk(ms[k].value) {
        assert ms[k] in ms;
        var i :| From(members, i, ms[k]);
        NormalOk(members[i].value);
      }
    case _ =>
  }

  lemma {:induction false} NormalSame(a: Json, b: Json)
    requires Proper(a) && Proper(b)
    ensures Normal(a) == Normal(b) <==> Same(a, b)
    decreases a
  {
    if a.Arr? && b.Arr? {
      ArraysSame(a, b);
    } else if a.Obj? && b.Obj? {
      forall i, k | 0 <= i < |a.members| && 0 <= k < |b.members|
        ensures Normal(a.members[i].value) == Normal(b.members[k].value) <==> Same(a.members[i].value, b.members[k].value) {
        NormalSame(a.members[i].value, b.members[k].value);
      }
      ObjectsSame(a.members, b.members);
    } else {
      LeavesSame(a, b);
    }
  }

  lemma LeavesSame(a: Json, b: Json)
    requires Proper(a) && Proper(b) && !(a.Arr? && b.Arr?) && !(a.Obj? && b.Obj?)
    ensures Normal(a) == Normal(b) <==> Same(a, b)
  {
    assert "null"[0] == 'n' && "true"[0] == 't' && "false"[0] == 'f';
  }

  lemma {:induction false} ArraysSame(a: Json, b: Json)
    requires Proper(a) && Proper(b) && a.Arr? && b.Arr?
    ensures Normal(a) == Normal(b) <==> Same(a, b)
    decreases a, 0
  {
    var x, y := a.items, b.items;
    NormalItemsAre(x);
    NormalItemsAre(y);
    if |x| == |y| {
      forall i | 0 <= i < |x| ensures Normal(x[i]) == Normal(y[i]) <==> Same(x[i], y[i]) { NormalSame(x[i], y[i]); }
      hide Normal, Same;
      ItemsEqual(x, y);
    }
  }

  lemma ItemsEqual(x: seq<Json>, y: seq<Json>)
    requires |x| == |y|
    ensures NormalItems(x) == NormalItems(y) <==> forall i :: 0 <= i < |x| ==> Normal(x[i]) == Normal(y[i])
  {
    hide Normal;
    NormalItemsAre(x);
    NormalItemsAre(y);
    if forall i :: 0 <= i < |x| ==> Normal(x[i]) == Normal(y[i]) {
      forall i | 0 <= i < |x| ensures NormalItems(x)[i] == NormalItems(y)[i] { assert Normal(x[i]) == Normal(y[i]); }
    } else {
      var i :| 0 <= i < |x| && Normal(x[i]) != Normal(y[i]);
      assert NormalItems(x)[i] != NormalItems(y)[i];
    }
  }

  lemma ObjectsSame(x: seq<Member>, y: seq<Member>)
    requires Proper(Obj(x)) && Proper(Obj(y))
    requires forall i, k :: 0 <= i < |x| && 0 <= k < |y| ==>
               (Normal(x[i].value) == Normal(y[k].value) <==> Same(x[i].value, y[k].value))
    ensures Normal(Obj(x)) == Normal(Obj(y)) <==> Same(Obj(x), Obj(y))
  {
    NormalMembersAre(x);
    NormalMembersAre(y);
    var p, q := NormalMembers(x), NormalMembers(y);
    SortSorts(p);
    SortSorts(q);
    if Same(Obj(x), Obj(y)) {
      forall m ensures m in p <==> m in q { SameMembers(x, y, m); }
      SortedUnique(Sort(p), Sort(q));
    }
    if Sort(p) == Sort(q) {
      MembersGiveSame(x, y);
    }
  }

  lemma SameMembers(x: seq<Member>, y: seq<Member>, m: Pair<Form>)
    requires Same(Obj(x), Obj(y))
    requires forall i, k :: 0 <= i < |x| && 0 <= k < |y| ==>
               (Normal(x[i].value) == Normal(y[k].value) <==> Same(x[i].value, y[k].value))
    ensures (exists i :: From(x, i, m)) <==> (exists k :: From(y, k, m))
  {
    hide Normal;
    if i :| From(x, i, m) {
      assert x[i].key in DefinedKeys(x);
      var k :| 0 <= k < |y| && y[k].value != Undefined && y[k].key == x[i].key;
      assert Same(x[i].value, y[k].value);
      assert From(y, k, m);
    }
    if k :| From(y, k, m) {
      assert y[k].key in DefinedKeys(y);
      assert y[k].key in DefinedKeys(x);
      var i :| 0 <= i < |x| && x[i].value != Undefined && x[i].key == y[k].key;
      assert Same(x[i].value, y[k].value);
      assert From(x, i, m);
    }
  }

  lemma MembersGiveSame(x: seq<Member>, y: seq<Member>)
    requires Proper(Obj(x)) && Proper(Obj(y))
    requires forall i, k :: 0 <= i < |x| && 0 <= k < |y| ==>
               (Normal(x[i].value) == Normal(y[k].value) <==> Same(x[i].value, y[k].value))
    requires Sort(NormalMembers(x)) == Sort(NormalMembers(y))
    ensures Same(Obj(x), Obj(y))
  {
    hide Normal, NormalMembers, Sort, Proper;
    forall key ensures key in DefinedKeys(x) <==> key in DefinedKeys(y) {
      KeyCarries(x, y, key);
      KeyCarries(y, x, key);
    }
    forall i, k | 0 <= i < |x| && 0 <= k < |y| && x[i].key == y[k].key && x[i].value != Undefined && y[k].value != Undefined
      ensures Same(x[i].value, y[k].value) {
      SameKeySameForm(x, y, i, k);
    }
  }

  lemma SameKeySameForm(x: seq<Member>, y: seq<Member>, i: nat, k: nat)
    requires Proper(Obj(x)) && Proper(Obj(y)) && Sort(NormalMembers(x)) == Sort(NormalMembers(y))
    requires i < |x| && k < |y| && x[i].key == y[k].key && x[i].value != Undefined && y[k].value != Undefined
    ensures Normal(x[i].value) == Normal(y[k].value)
  {
    hide Normal;
    var p, q := NormalMembers(x), NormalMembers(y);
    NormalMembersAre(x);
    NormalMembersAre(y);
    SortSorts(p);
    SortSorts(q);
    hide NormalMembers, Sort;
    var m, n := Pair(x[i].key, Normal(x[i].value)), Pair(y[k].key, Normal(y[k].value));
    assert From(x, i, m) && From(y, k, n);
    assert m in p && n in q;
    assert m in Sort(p) && m in q;
    DistinctByKey(q, m, n);
  }

  lemma KeyCarries(x: seq<Member>, y: seq<Member>, key: string)
    requires Proper(Obj(x)) && Proper(Obj(y)) && Sort(NormalMembers(x)) == Sort(NormalMembers(y))
    ensures key in DefinedKeys(x) ==> key in DefinedKeys(y)
  {
    hide Normal;
    NormalMembersAre(x);
    NormalMembersAre(y);
    SortSorts(NormalMembers(x));
    SortSorts(NormalMembers(y));
    if key in DefinedKeys(x) {
      var i :| 0 <= i < |x| && x[i].value != Undefined && x[i].key == key;
      var m := Pair(key, Normal(x[i].value));
      assert From(x, i, m);
      assert m in NormalMembers(x);
      assert m in Sort(NormalMembers(x));
      assert m in NormalMembers(y);
      var k :| From(y, k, m);
    }
  }

  // ------------------------------------------------------------------ the theorems

  /** Two payloads have the same canonical text exactly when they are the same value up to key order. */
  lemma TextIffSame(a: Json, b: Json)
    requires Proper(a) && Proper(b)
    ensures Canonical(a) == Canonical(b) <==> Same(a, b)
  {
    CanonicalIsShow(a);
    CanonicalIsShow(b);
    NormalSame(a, b);
    NormalOk(a);
    NormalOk(b);
    hide Canonical, Show, Normal, Same, FormOk;
    if Canonical(a) == Canonical(b) {
      ShowInjective(Normal(a), Normal(b), "", "");
    }
  }

  lemma {:induction false} SameReflexive(a: Json)
    requires Proper(a)
    ensures Same(a, a)
  {
    NormalSame(a, a);
  }

  /** Rearranging an object's members leaves its text unchanged. */
  lemma KeyOrderIsIrrelevant(x: seq<Member>, y: seq<Member>)
    requires Proper(Obj(x)) && Proper(Obj(y)) && forall m :: m in x <==> m in y
    ensures Canonical(Obj(x)) == Canonical(Obj(y))
  {
    forall key ensures key in DefinedKeys(x) <==> key in DefinedKeys(y) {
      KeyOf(x, y, key);
      KeyOf(y, x, key);
    }
    forall i, k | 0 <= i < |x| && 0 <= k < |y| && x[i].key == y[k].key ensures Same(x[i].value, y[k].value) {
      assert x[i] in y;
      var l :| 0 <= l < |y| && y[l] == x[i];
      assert l == k;
      SameReflexive(x[i].value);
    }
    TextIffSame(Obj(x), Obj(y));
  }

  lemma KeyOf(x: seq<Member>, y: seq<Member>, key: string)
    requires forall m :: m in x ==> m in y
    ensures key in DefinedKeys(x) ==> key in DefinedKeys(y)
  {
    if key in DefinedKeys(x) {
      var i :| 0 <= i < |x| && x[i].value != Undefined && x[i].key == key;
      assert x[i] in y;
    }
  }
}
