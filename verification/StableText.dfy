/** The canonical text of a JSON tree (`stableStringify`, design/assets/app.js): equal texts mean equal trees up to the order
    of object keys, and the other way round. */
module StableText {

  datatype Field = Field(key: string, value: Json)

  /** A number is given by its text, as JSON.stringify prints it. */
  datatype Json =
    | Null
    | Bool(b: bool)
    | Number(text: string)
    | Text(s: string)
    | Array(items: seq<Json>)
    | Object(fields: seq<Field>)

  // ----- the text of scalars ---------------------------------------------------------------------------------------------

  function Hex(n: nat): char
    requires n < 16
  {
    if n < 10 then '0' + n as char else 'a' + (n - 10) as char
  }

  /** JSON.stringify inside a string. */
  function Escape(c: char): string {
    if c == '"' then "\\\""
    else if c == '\\' then "\\\\"
    else if c as int == 8 then "\\b"
    else if c as int == 9 then "\\t"
    else if c as int == 10 then "\\n"
    else if c as int == 12 then "\\f"
    else if c as int == 13 then "\\r"
    else if c as int < 32 then "\\u00" + [Hex(c as int / 16), Hex(c as int % 16)]
    else [c]
  }

  function Escapes(s: string): string {
    if s == "" then "" else Escape(s[0]) + Escapes(s[1..])
  }

  function Quote(s: string): string { "\"" + Escapes(s) + "\"" }

  predicate Delimiter(c: char) { c == ',' || c == ']' || c == '}' }

  predicate NumberText(s: string) {
    s != "" && (s[0] == '-' || '0' <= s[0] <= '9') && forall c | c in s :: c == '-' || c == '+' || c == '.' || c == 'e' || '0' <= c <= '9'
  }

  /** Numbers have number texts, and keys are distinct. */
  predicate WellFormed(v: Json) {
    match v
    case Number(text) => NumberText(text)
    case Array(items) => forall i | 0 <= i < |items| :: WellFormed(items[i])
    case Object(fields) =>
      (forall i | 0 <= i < |fields| :: WellFormed(fields[i].value))
      && (forall i, j | 0 <= i < j < |fields| :: fields[i].key != fields[j].key)
    case _ => true
  }

  // ----- the text of a tree -------------------------------------------------------------------------------------------------

  datatype Entry = Entry(key: string, text: string)

  /** The order of Array.prototype.sort on strings. */
  predicate Before(a: string, b: string) {
    if a == "" || b == "" then b != ""
    else a[0] < b[0] || (a[0] == b[0] && Before(a[1..], b[1..]))
  }

  function Insert(e: Entry, es: seq<Entry>): seq<Entry> {
    if es == [] || Before(e.key, es[0].key) then [e] + es else [es[0]] + Insert(e, es[1..])
  }

  function Sort(es: seq<Entry>): seq<Entry> {
    if es == [] then [] else Insert(es[0], Sort(es[1..]))
  }

  function Join(texts: seq<string>): string {
    if texts == [] then "" else if |texts| == 1 then texts[0] else texts[0] + "," + Join(texts[1..])
  }

  function EntryText(e: Entry): string { Quote(e.key) + ":" + e.text }

  function EntryTexts(es: seq<Entry>): seq<string> {
    if es == [] then [] else [EntryText(es[0])] + EntryTexts(es[1..])
  }

  function Texts(items: seq<Json>): (r: seq<string>)
    ensures |r| == |items| && forall i :: 0 <= i < |items| ==> r[i] == Stable(items[i])
  {
    if items == [] then [] else [Stable(items[0])] + Texts(items[1..])
  }

  function Entries(fields: seq<Field>): (r: seq<Entry>)
    ensures |r| == |fields| && forall i :: 0 <= i < |fields| ==> r[i] == Entry(fields[i].key, Stable(fields[i].value))
  {
    if fields == [] then [] else [Entry(fields[0].key, Stable(fields[0].value))] + Entries(fields[1..])
  }

  /** `stableStringify` */
  function Stable(v: Json): string {
    match v
    case Null => "null"
    case Bool(b) => if b then "true" else "false"
    case Number(text) => text
    case Text(s) => Quote(s)
    case Array(items) => "[" + Join(Texts(items)) + "]"
    case Object(fields) => "{" + Join(EntryTexts(Sort(Entries(fields)))) + "}"
  }

  // ----- equality up to key order ---------------------------------------------------------------------------------------------

  /** The same tree, but for the order of keys. */
  ghost predicate Same(a: Json, b: Json)
    decreases a, 0
  {
    match (a, b)
    case (Null, Null) => true
    case (Bool(x), Bool(y)) => x == y
    case (Number(x), Number(y)) => x == y
    case (Text(x), Text(y)) => x == y
    case (Array(x), Array(y)) => |x| == |y| && forall i :: 0 <= i < |x| ==> Same(x[i], y[i])
    case (Object(x), Object(y)) => Covers(x, y) && KeysIn(x, y)
    case _ => false
  }

  /** Every field of x has one in y with its key and the same value up to key order. */
  ghost predicate Covers(x: seq<Field>, y: seq<Field>)
    decreases x, 2
  {
    forall i :: 0 <= i < |x| ==> HasValue(y, x[i].key, x[i].value)
  }

  ghost predicate HasValue(y: seq<Field>, key: string, value: Json)
    decreases value, 1
  {
    exists j :: 0 <= j < |y| && y[j].key == key && Same(value, y[j].value)
  }

  ghost predicate KeysIn(x: seq<Field>, y: seq<Field>) {
    forall j :: 0 <= j < |y| ==> HasKey(x, y[j].key)
  }

  ghost predicate HasKey(x: seq<Field>, key: string) { exists i :: 0 <= i < |x| && x[i].key == key }

  // ----- reading texts back: scalars --------------------------------------------------------------------------------------------

  lemma HexUnique(m: nat, n: nat)
    requires m < 16 && n < 16 && Hex(m) == Hex(n)
    ensures m == n
  {
  }

  lemma EscapeShape(c: char)
    ensures |Escape(c)| > 0 && Escape(c)[0] != '"'
    ensures Escape(c)[0] == '\\' <==> c == '"' || c == '\\' || c as int < 32
    ensures Escape(c)[0] != '\\' ==> Escape(c) == [c]
    ensures Escape(c)[0] == '\\' ==> |Escape(c)| == 2 || |Escape(c)| == 6
    ensures Escape(c)[0] == '\\' ==> (|Escape(c)| == 6 <==> Escape(c)[1] == 'u')
  {
  }

  /** An escape is read back in one way. */
  lemma EscapeUnique(c: char, d: char, x: string, y: string)
    requires Escape(c) + x == Escape(d) + y
    ensures c == d && x == y
  {
    EscapeShape(c);
    EscapeShape(d);
    var e, f := Escape(c), Escape(d);
    assert (e + x)[0] == (f + y)[0];
    if e[0] == '\\' {
      assert (e + x)[1] == (f + y)[1];
      if e[1] == 'u' {
        assert (e + x)[4] == (f + y)[4] && (e + x)[5] == (f + y)[5];
        assert e == "\\u00" + [Hex(c as int / 16), Hex(c as int % 16)];
        assert f == "\\u00" + [Hex(d as int / 16), Hex(d as int % 16)];
        HexUnique(c as int / 16, d as int / 16);
        HexUnique(c as int % 16, d as int % 16);
      }
    }
    assert c == d;
    assert (e + x)[|e|..] == x && (f + y)[|f|..] == y;
  }

  lemma {:induction false} EscapesUnique(s: string, t: string, x: string, y: string)
    requires Escapes(s) + "\"" + x == Escapes(t) + "\"" + y
    ensures s == t && x == y
  {
    hide Escape;
    var p, q := Escapes(s) + "\"" + x, Escapes(t) + "\"" + y;
    if s != "" { EscapeShape(s[0]); assert p[0] == Escape(s[0])[0]; }
    if t != "" { EscapeShape(t[0]); assert q[0] == Escape(t[0])[0]; }
    assert (s == "" ==> p[0] == '"') && (t == "" ==> q[0] == '"');
    assert s == "" <==> t == "";
    if s == "" {
      assert p == "\"" + x && q == "\"" + y;
      assert p[1..] == x && q[1..] == y;
    } else {
      assert p == Escape(s[0]) + (Escapes(s[1..]) + "\"" + x);
      assert q == Escape(t[0]) + (Escapes(t[1..]) + "\"" + y);
      EscapeUnique(s[0], t[0], Escapes(s[1..]) + "\"" + x, Escapes(t[1..]) + "\"" + y);
      EscapesUnique(s[1..], t[1..], x, y);
      assert s == [s[0]] + s[1..] && t == [t[0]] + t[1..];
    }
  }

  lemma QuoteUnique(s: string, t: string, x: string, y: string)
    requires Quote(s) + x == Quote(t) + y
    ensures s == t && x == y
  {
    hide Escapes;
    assert (Quote(s) + x)[1..] == Escapes(s) + "\"" + x;
    assert (Quote(t) + y)[1..] == Escapes(t) + "\"" + y;
    EscapesUnique(s, t, x, y);
  }

  /** What may follow a value. */
  predicate Ends(x: string) { x == "" || Delimiter(x[0]) }

  lemma InFront(t: string, y: string, i: int)
    ensures 0 <= i < |t| ==> (t + y)[i] == t[i] && t[i] in t
  {
  }

  lemma Behind(s: string, x: string)
    ensures x != "" ==> (s + x)[|s|] == x[0]
    ensures |s + x| == |s| + |x|
  {
  }

  lemma {:induction false} NumberUnique(s: string, t: string, x: string, y: string)
    requires s + x == t + y && Ends(x) && Ends(y)
    requires forall c | c in s :: !Delimiter(c)
    requires forall c | c in t :: !Delimiter(c)
    ensures s == t && x == y
  {
    if |s| < |t| {
      InFront(t, y, |s|);
      Behind(s, x);
      assert false;
    }
    if |t| < |s| {
      InFront(s, x, |t|);
      Behind(t, y);
      assert false;
    }
    assert (s + x)[..|s|] == s && (t + y)[..|t|] == t;
    assert (s + x)[|s|..] == x && (t + y)[|t|..] == y;
  }

  // ----- reading texts back: trees -----------------------------------------------------------------------------------------------

  /** The first character tells the kind of a value. */
  lemma StableStart(v: Json)
    requires WellFormed(v)
    ensures var t := Stable(v); t != "" && !Delimiter(t[0])
    ensures var c := Stable(v)[0];
      match v
      case Null => c == 'n'
      case Bool(b) => c == if b then 't' else 'f'
      case Number(_) => c == '-' || '0' <= c <= '9'
      case Text(_) => c == '"'
      case Array(_) => c == '['
      case Object(_) => c == '{'
  {
  }

  lemma StableScalar(a: Json, b: Json, x: string, y: string)
    requires WellFormed(a) && WellFormed(b) && Stable(a) + x == Stable(b) + y && Ends(x) && Ends(y)
    ensures a.Array? <==> b.Array?
    ensures a.Object? <==> b.Object?
    ensures !a.Array? && !a.Object? ==> a == b && x == y
  {
    hide Quote, Join;
    StableStart(a);
    StableStart(b);
    assert (Stable(a) + x)[0] == Stable(a)[0] && (Stable(b) + y)[0] == Stable(b)[0];
    match a
    case Null => Prefix("null", x, y);
    case Bool(c) => Prefix(Stable(a), x, y);
    case Number(s) => NumberUnique(s, b.text, x, y);
    case Text(s) => QuoteUnique(s, b.s, x, y);
    case _ =>
  }

  lemma Prefix(t: string, x: string, y: string)
    requires t + x == t + y
    ensures x == y
  {
    assert (t + x)[|t|..] == x && (t + y)[|t|..] == y;
  }

  /** Two texts that can be told apart, and from what follows them. */
  ghost predicate Readable(t: string, u: string) {
    forall x: string, y: string :: t + x == u + y && Ends(x) && Ends(y) ==> t == u && x == y
  }

  /** A text that starts like a value. */
  predicate Starts(t: string) { t != "" && !Delimiter(t[0]) }

  /** What follows the first item of a joined list. */
  function Rest(ts: seq<string>, close: char, x: string): string
    requires ts != []
  {
    if |ts| == 1 then [close] + x else "," + Join(ts[1..]) + [close] + x
  }

  lemma JoinHead(ts: seq<string>, close: char, x: string)
    ensures ts != [] ==> Join(ts) + [close] + x == ts[0] + Rest(ts, close, x)
    ensures ts == [] ==> Join(ts) + [close] + x == [close] + x
  {
    JoinStep(ts);
    hide Join;
    if |ts| > 1 {
      Regroup(ts[0], ",", Join(ts[1..]), [close], x);
    } else if ts != [] {
      Regroup(ts[0], "", "", [close], x);
    }
  }

  lemma JoinStep(ts: seq<string>)
    ensures ts == [] ==> Join(ts) == ""
    ensures |ts| == 1 ==> Join(ts) == ts[0]
    ensures |ts| > 1 ==> Join(ts) == ts[0] + "," + Join(ts[1..])
  {
  }

  lemma Regroup(a: string, b: string, c: string, d: string, e: string)
    ensures a + b + c + d + e == a + (b + c + d + e) && a + d + e == a + (d + e)
  {
  }

  lemma {:induction false} JoinUnique(ts: seq<string>, us: seq<string>, close: char, x: string, y: string)
    requires close == ']' || close == '}'
    requires forall i :: 0 <= i < |ts| ==> Starts(ts[i])
    requires forall i :: 0 <= i < |us| ==> Starts(us[i])
    requires forall i, j :: 0 <= i < |ts| && 0 <= j < |us| ==> Readable(ts[i], us[j])
    requires Join(ts) + [close] + x == Join(us) + [close] + y
    ensures ts == us && x == y
  {
    hide Join, Readable;
    JoinHead(ts, close, x);
    JoinHead(us, close, y);
    var p, q := Join(ts) + [close] + x, Join(us) + [close] + y;
    assert ts != [] ==> p[0] == ts[0][0];
    assert us != [] ==> q[0] == us[0][0];
    assert ts == [] <==> us == [];
    if ts == [] {
      Prefix([close], x, y);
    } else {
      ReadTwo(ts[0], us[0], Rest(ts, close, x), Rest(us, close, y));
      var r, v := Rest(ts, close, x), Rest(us, close, y);
      assert r[0] == v[0];
      assert |ts| == 1 <==> |us| == 1;
      if |ts| == 1 {
        Prefix([close], x, y);
        assert ts == [ts[0]] && us == [us[0]];
      } else {
        assert r[1..] == Join(ts[1..]) + [close] + x;
        assert v[1..] == Join(us[1..]) + [close] + y;
        JoinUnique(ts[1..], us[1..], close, x, y);
        assert ts == [ts[0]] + ts[1..] && us == [us[0]] + us[1..];
      }
    }
  }

  lemma ReadTwo(t: string, u: string, x: string, y: string)
    requires Readable(t, u) && t + x == u + y && Ends(x) && Ends(y)
    ensures t == u && x == y
  {
  }

  lemma EntryReadable(e: Entry, f: Entry)
    requires Readable(e.text, f.text)
    ensures Readable(EntryText(e), EntryText(f)) && Starts(EntryText(e))
    ensures EntryText(e) == EntryText(f) ==> e == f
  {
    hide Quote, Readable;
    forall x: string, y: string | EntryText(e) + x == EntryText(f) + y && Ends(x) && Ends(y)
      ensures e == f && x == y
    {
      assert EntryText(e) + x == Quote(e.key) + (":" + e.text + x);
      assert EntryText(f) + y == Quote(f.key) + (":" + f.text + y);
      QuoteUnique(e.key, f.key, ":" + e.text + x, ":" + f.text + y);
      assert (":" + e.text + x)[1..] == e.text + x && (":" + f.text + y)[1..] == f.text + y;
      ReadTwo(e.text, f.text, x, y);
    }
    ReadableIntro(e, f);
  }

  lemma ReadableIntro(e: Entry, f: Entry)
    requires forall x: string, y: string :: EntryText(e) + x == EntryText(f) + y && Ends(x) && Ends(y) ==> e == f && x == y
    ensures Readable(EntryText(e), EntryText(f)) && Starts(EntryText(e))
    ensures EntryText(e) == EntryText(f) ==> e == f
  {
    hide Escapes;
    assert EntryText(e) + "" == EntryText(e) && EntryText(f) + "" == EntryText(f);
  }

  // ----- sorting ------------------------------------------------------------------------------------------------------------------

  lemma {:induction false} BeforeTotal(a: string, b: string)
    ensures a == b || Before(a, b) || Before(b, a)
    ensures !(Before(a, b) && Before(b, a)) && !Before(a, a)
  {
    if a != "" && b != "" {
      BeforeTotal(a[1..], b[1..]);
      assert a == [a[0]] + a[1..] && b == [b[0]] + b[1..];
    }
    if a != "" { BeforeIrreflexive(a); }
  }

  lemma {:induction false} BeforeIrreflexive(a: string)
    ensures !Before(a, a)
  {
    if a != "" { BeforeIrreflexive(a[1..]); }
  }

  lemma {:induction false} BeforeTrans(a: string, b: string, c: string)
    requires Before(a, b) && Before(b, c)
    ensures Before(a, c)
  {
    if a != "" && a[0] == b[0] && b[0] == c[0] { BeforeTrans(a[1..], b[1..], c[1..]); }
  }

  /** Strictly ascending keys. */
  ghost predicate Ascending(es: seq<Entry>) {
    forall i, j :: 0 <= i < j < |es| ==> Before(es[i].key, es[j].key)
  }

  lemma {:induction false} InsertAscending(e: Entry, es: seq<Entry>)
    requires Ascending(es) && forall f :: f in es ==> f.key != e.key
    ensures Ascending(Insert(e, es))
    ensures forall f :: f in Insert(e, es) <==> f == e || f in es
  {
    hide Before;
    if es == [] {
    } else if Before(e.key, es[0].key) {
      forall j | 0 <= j < |es| ensures Before(e.key, es[j].key) {
        if j > 0 { BeforeTrans(e.key, es[0].key, es[j].key); }
      }
    } else {
      BeforeTotal(e.key, es[0].key);
      InsertAscending(e, es[1..]);
      assert es == [es[0]] + es[1..];
      var rest := Insert(e, es[1..]);
      forall j | 0 <= j < |rest| ensures Before(es[0].key, rest[j].key) {
        if rest[j] != e { assert rest[j] in es[1..]; }
      }
    }
  }

  lemma {:induction false} SortAscending(es: seq<Entry>)
    requires forall i, j :: 0 <= i < j < |es| ==> es[i].key != es[j].key
    ensures Ascending(Sort(es))
    ensures forall f :: f in Sort(es) <==> f in es
  {
    if es != [] {
      SortAscending(es[1..]);
      InsertAscending(es[0], Sort(es[1..]));
      assert es == [es[0]] + es[1..];
    }
  }

  /** Ascending lists of the same entries are equal. */
  lemma {:induction false} AscendingUnique(es: seq<Entry>, fs: seq<Entry>)
    requires Ascending(es) && Ascending(fs) && forall e :: e in es <==> e in fs
    ensures es == fs
  {
    hide Before;
    if es == [] {
      NoEntries(fs);
    } else {
      assert es[0] in fs && fs != [];
      assert fs[0] in es;
      FirstEqual(es, fs);
      forall e ensures e in es[1..] <==> e in fs[1..] {
        TailMember(es, e);
        TailMember(fs, e);
      }
      AscendingUnique(es[1..], fs[1..]);
      assert es == [es[0]] + es[1..] && fs == [fs[0]] + fs[1..];
    }
  }

  lemma NoEntries(fs: seq<Entry>)
    ensures (forall e :: e !in fs) ==> fs == []
  {
    if fs != [] { assert fs[0] in fs; }
  }

  lemma FirstEqual(es: seq<Entry>, fs: seq<Entry>)
    requires es != [] && fs != [] && Ascending(es) && Ascending(fs) && es[0] in fs && fs[0] in es
    ensures es[0] == fs[0]
  {
    hide Before;
    BeforeTotal(es[0].key, fs[0].key);
  }

  lemma TailMember(es: seq<Entry>, e: Entry)
    requires es != [] && Ascending(es)
    ensures e in es[1..] <==> e in es && e != es[0]
  {
    hide Before;
    BeforeTotal(es[0].key, es[0].key);
    assert es == [es[0]] + es[1..];
  }

  // ----- the main results -------------------------------------------------------------------------------------------------------------

  lemma EntryTextsAre(es: seq<Entry>)
    ensures |EntryTexts(es)| == |es| && forall i :: 0 <= i < |es| ==> EntryTexts(es)[i] == EntryText(es[i])
  {
    if es != [] { EntryTextsAre(es[1..]); }
  }

  ghost predicate EntryOf(fields: seq<Field>, e: Entry) {
    exists i :: 0 <= i < |fields| && e == Entry(fields[i].key, Stable(fields[i].value))
  }

  /** Each sorted entry is the text of one of the object's values. */
  lemma SortedEntries(fields: seq<Field>)
    requires WellFormed(Object(fields))
    ensures Ascending(Sort(Entries(fields)))
    ensures forall e :: e in Sort(Entries(fields)) <==> EntryOf(fields, e)
  {
    hide Before, Sort;
    SortAscending(Entries(fields));
    forall e ensures e in Entries(fields) <==> EntryOf(fields, e) { }
  }

  lemma ListReadable(ts: seq<string>, us: seq<string>, open: string, close: char)
    requires |open| == 1 && (close == ']' || close == '}')
    requires forall i :: 0 <= i < |ts| ==> Starts(ts[i])
    requires forall i :: 0 <= i < |us| ==> Starts(us[i])
    requires forall i, j :: 0 <= i < |ts| && 0 <= j < |us| ==> Readable(ts[i], us[j])
    ensures Readable(open + Join(ts) + [close], open + Join(us) + [close])
    ensures open + Join(ts) + [close] == open + Join(us) + [close] ==> ts == us
  {
    hide Join;
    forall x: string, y: string | open + Join(ts) + [close] + x == open + Join(us) + [close] + y && Ends(x) && Ends(y)
      ensures ts == us && x == y
    {
      ListUnique(ts, us, open, close, x, y);
    }
    if open + Join(ts) + [close] == open + Join(us) + [close] {
      assert open + Join(ts) + [close] + "" == open + Join(us) + [close] + "";
      ListUnique(ts, us, open, close, "", "");
    }
  }

  lemma ListUnique(ts: seq<string>, us: seq<string>, open: string, close: char, x: string, y: string)
    requires |open| == 1 && (close == ']' || close == '}')
    requires forall i :: 0 <= i < |ts| ==> Starts(ts[i])
    requires forall i :: 0 <= i < |us| ==> Starts(us[i])
    requires forall i, j :: 0 <= i < |ts| && 0 <= j < |us| ==> Readable(ts[i], us[j])
    requires open + Join(ts) + [close] + x == open + Join(us) + [close] + y
    ensures ts == us && x == y
  {
    hide Join, Readable, Starts;
    BehindFirst(open, Join(ts), [close], x);
    BehindFirst(open, Join(us), [close], y);
    JoinUnique(ts, us, close, x, y);
  }

  lemma BehindFirst(a: string, b: string, c: string, d: string)
    ensures (a + b + c + d)[|a|..] == b + c + d
  {
  }

  lemma ScalarReadable(a: Json, b: Json)
    requires WellFormed(a) && WellFormed(b) && !(a.Array? && b.Array?) && !(a.Object? && b.Object?)
    ensures Readable(Stable(a), Stable(b))
    ensures Stable(a) == Stable(b) ==> a == b
  {
    hide Stable, WellFormed;
    forall x: string, y: string | Stable(a) + x == Stable(b) + y && Ends(x) && Ends(y) ensures a == b && x == y {
      StableScalar(a, b, x, y);
    }
    if Stable(a) == Stable(b) {
      assert Stable(a) + "" == Stable(b) + "";
      StableScalar(a, b, "", "");
    }
  }

  /** The texts of two well-formed trees can be told apart wherever they stand. */
  lemma {:induction false} ReadableAll(a: Json, b: Json)
    requires WellFormed(a) && WellFormed(b)
    ensures Readable(Stable(a), Stable(b))
    ensures a.Array? && b.Array? && Stable(a) == Stable(b) ==> Texts(a.items) == Texts(b.items)
    ensures a.Object? && b.Object? && Stable(a) == Stable(b) ==> Sort(Entries(a.fields)) == Sort(Entries(b.fields))
    decreases a
  {
    hide Readable, Join, Quote, EntryText, Sort, EntryTexts, Starts;
    if a.Array? && b.Array? {
      forall i, j | 0 <= i < |a.items| && 0 <= j < |b.items| ensures Readable(Stable(a.items[i]), Stable(b.items[j])) {
        ReadableAll(a.items[i], b.items[j]);
      }
      ItemsStart(a.items);
      ItemsStart(b.items);
      ListReadable(Texts(a.items), Texts(b.items), "[", ']');
    } else if a.Object? && b.Object? {
      var es, fs := Sort(Entries(a.fields)), Sort(Entries(b.fields));
      SortedEntries(a.fields);
      SortedEntries(b.fields);
      EntryTextsAre(es);
      EntryTextsAre(fs);
      forall k, l | 0 <= k < |es| && 0 <= l < |fs|
        ensures Readable(EntryText(es[k]), EntryText(fs[l])) && Starts(EntryText(es[k])) && Starts(EntryText(fs[l]))
        ensures EntryText(es[k]) == EntryText(fs[l]) ==> es[k] == fs[l]
      {
        var i := FieldOf(a.fields, es, k);
        var j := FieldOf(b.fields, fs, l);
        ReadableAll(a.fields[i].value, b.fields[j].value);
        EntryReadable(es[k], fs[l]);
        EntryStarts(fs[l]);
      }
      forall k | 0 <= k < |es| ensures Starts(EntryText(es[k])) { EntryStarts(es[k]); }
      forall k | 0 <= k < |fs| ensures Starts(EntryText(fs[k])) { EntryStarts(fs[k]); }
      ListReadable(EntryTexts(es), EntryTexts(fs), "{", '}');
      if EntryTexts(es) == EntryTexts(fs) {
        forall k | 0 <= k < |es| ensures es[k] == fs[k] {
          assert EntryTexts(es)[k] == EntryTexts(fs)[k];
        }
      }
    } else {
      ScalarReadable(a, b);
    }
  }

  lemma FieldOf(fields: seq<Field>, es: seq<Entry>, k: nat) returns (i: nat)
    requires WellFormed(Object(fields)) && es == Sort(Entries(fields)) && k < |es|
    ensures i < |fields| && es[k] == Entry(fields[i].key, Stable(fields[i].value))
  {
    hide Sort, Stable;
    SortedEntries(fields);
    assert es[k] in es && EntryOf(fields, es[k]);
    i :| i < |fields| && es[k] == Entry(fields[i].key, Stable(fields[i].value));
  }

  lemma EntryStarts(e: Entry)
    ensures Starts(EntryText(e))
  {
  }

  lemma ItemsStart(items: seq<Json>)
    requires WellFormed(Array(items))
    ensures forall i :: 0 <= i < |items| ==> Starts(Texts(items)[i])
  {
    forall i | 0 <= i < |items| ensures Starts(Texts(items)[i]) { StableStart(items[i]); }
  }

  /** Equal texts mean equal trees up to key order. */
  lemma {:induction false} EqualTextsSame(a: Json, b: Json)
    requires WellFormed(a) && WellFormed(b) && Stable(a) == Stable(b)
    ensures Same(a, b)
    decreases a
  {
    hide Readable, Join, Quote, EntryText, EntryTexts, Sort;
    ReadableAll(a, b);
    if a.Array? && b.Array? {
      forall i | 0 <= i < |a.items| ensures i < |b.items| && Same(a.items[i], b.items[i]) {
        assert Texts(a.items)[i] == Texts(b.items)[i];
        EqualTextsSame(a.items[i], b.items[i]);
      }
      assert |Texts(a.items)| == |Texts(b.items)|;
    } else if a.Object? && b.Object? {
      forall i, j | 0 <= i < |a.fields| && 0 <= j < |b.fields| && Stable(a.fields[i].value) == Stable(b.fields[j].value)
        ensures Same(a.fields[i].value, b.fields[j].value)
      {
        EqualTextsSame(a.fields[i].value, b.fields[j].value);
      }
      EntriesSame(a.fields, b.fields);
    } else {
      ScalarReadable(a, b);
      ScalarSame(a);
    }
  }

  /** Equal texts of values of x and y mean the same values. */
  ghost predicate TextsTell(x: seq<Field>, y: seq<Field>) {
    forall i, j :: 0 <= i < |x| && 0 <= j < |y| && Stable(x[i].value) == Stable(y[j].value) ==> Same(x[i].value, y[j].value)
  }

  ghost predicate SameTell(x: seq<Field>, y: seq<Field>) {
    forall i, j :: 0 <= i < |x| && 0 <= j < |y| && Same(x[i].value, y[j].value) ==> Stable(x[i].value) == Stable(y[j].value)
  }

  lemma FindEntry(x: seq<Field>, y: seq<Field>, i: nat)
    requires i < |x| && TextsTell(x, y) && EntryOf(y, Entry(x[i].key, Stable(x[i].value)))
    ensures HasValue(y, x[i].key, x[i].value)
  {
    hide Same, Stable;
    var j :| 0 <= j < |y| && Entry(x[i].key, Stable(x[i].value)) == Entry(y[j].key, Stable(y[j].value));
    assert Same(x[i].value, y[j].value);
  }

  lemma IsEntry(x: seq<Field>, i: nat)
    requires i < |x|
    ensures EntryOf(x, Entry(x[i].key, Stable(x[i].value)))
  {
    hide Stable;
  }

  lemma EntriesSame(x: seq<Field>, y: seq<Field>)
    requires WellFormed(Object(x)) && WellFormed(Object(y)) && Sort(Entries(x)) == Sort(Entries(y)) && TextsTell(x, y)
    ensures Covers(x, y) && KeysIn(x, y)
  {
    hide Stable, Sort, Entries, WellFormed, EntryOf, TextsTell, Same, Before, Ascending;
    SortedEntries(x);
    SortedEntries(y);
    forall i | 0 <= i < |x| ensures HasValue(y, x[i].key, x[i].value) {
      IsEntry(x, i);
      FindEntry(x, y, i);
    }
    forall j | 0 <= j < |y| ensures HasKey(x, y[j].key) {
      IsEntry(y, j);
      KeyOf(x, y[j]);
    }
  }

  lemma KeyOf(x: seq<Field>, f: Field)
    requires EntryOf(x, Entry(f.key, Stable(f.value)))
    ensures HasKey(x, f.key)
  {
    hide Stable;
  }

  lemma ScalarSame(a: Json)
    ensures !a.Array? && !a.Object? ==> Same(a, a)
  {
  }

  /** Equal trees up to key order have equal texts. */
  lemma {:induction false} SameEqualTexts(a: Json, b: Json)
    requires WellFormed(a) && WellFormed(b) && Same(a, b)
    ensures Stable(a) == Stable(b)
    decreases a
  {
    hide Readable, Join, Quote, EntryText, EntryTexts, Sort;
    if a.Array? {
      forall i | 0 <= i < |a.items| ensures Texts(a.items)[i] == Texts(b.items)[i] { SameEqualTexts(a.items[i], b.items[i]); }
      assert Texts(a.items) == Texts(b.items);
    } else if a.Object? {
      forall i, j | 0 <= i < |a.fields| && 0 <= j < |b.fields| && Same(a.fields[i].value, b.fields[j].value)
        ensures Stable(a.fields[i].value) == Stable(b.fields[j].value)
      {
        SameEqualTexts(a.fields[i].value, b.fields[j].value);
      }
      SameEntries(a.fields, b.fields);
    }
  }

  lemma SameEntries(x: seq<Field>, y: seq<Field>)
    requires WellFormed(Object(x)) && WellFormed(Object(y)) && Covers(x, y) && KeysIn(x, y) && SameTell(x, y)
    ensures Sort(Entries(x)) == Sort(Entries(y))
  {
    hide Stable, Sort, Entries, WellFormed, EntryOf, SameTell, Same, Before, Covers, KeysIn;
    SortedEntries(x);
    SortedEntries(y);
    hide Ascending;
    forall e ensures EntryOf(x, e) <==> EntryOf(y, e) {
      if EntryOf(x, e) { EntryOver(x, y, e); }
      if EntryOf(y, e) { EntryBack(x, y, e); }
    }
    AscendingUnique(Sort(Entries(x)), Sort(Entries(y)));
  }

  lemma EntryOver(x: seq<Field>, y: seq<Field>, e: Entry)
    requires Covers(x, y) && SameTell(x, y) && EntryOf(x, e)
    ensures EntryOf(y, e)
  {
    hide Stable, Same;
    var i :| 0 <= i < |x| && e == Entry(x[i].key, Stable(x[i].value));
    assert HasValue(y, x[i].key, x[i].value);
    var j :| 0 <= j < |y| && y[j].key == x[i].key && Same(x[i].value, y[j].value);
    assert e == Entry(y[j].key, Stable(y[j].value));
  }

  lemma EntryBack(x: seq<Field>, y: seq<Field>, e: Entry)
    requires WellFormed(Object(y)) && Covers(x, y) && KeysIn(x, y) && SameTell(x, y) && EntryOf(y, e)
    ensures EntryOf(x, e)
  {
    hide Stable, Same, WellFormed;
    DistinctKeys(y);
    var j :| 0 <= j < |y| && e == Entry(y[j].key, Stable(y[j].value));
    assert HasKey(x, y[j].key);
    var i :| 0 <= i < |x| && x[i].key == y[j].key;
    assert HasValue(y, x[i].key, x[i].value);
    var l :| 0 <= l < |y| && y[l].key == x[i].key && Same(x[i].value, y[l].value);
    assert l == j;
    assert e == Entry(x[i].key, Stable(x[i].value));
  }

  lemma DistinctKeys(fields: seq<Field>)
    requires WellFormed(Object(fields))
    ensures forall i, j :: 0 <= i < |fields| && 0 <= j < |fields| && fields[i].key == fields[j].key ==> i == j
  {
  }

  /** `stableStringify` tells trees apart exactly up to the order of object keys. */
  lemma StableIffSame(a: Json, b: Json)
    requires WellFormed(a) && WellFormed(b)
    ensures Stable(a) == Stable(b) <==> Same(a, b)
  {
    hide Stable, Same, WellFormed;
    if Stable(a) == Stable(b) { EqualTextsSame(a, b); }
    if Same(a, b) { SameEqualTexts(a, b); }
  }
}
