/** What the texts of a node become, written out: intervals, ports and Boolean words
    (`_normalize_hysteria2_hop_interval`, `_normalize_bool_value`, `parse_strict_port`, src/normalizer.py). */
module NormalWords {
  import opened Options
  import opened RuleText
  import opened Normalizer

  // ----- decimal numbers -----------------------------------------------------------------------------------------------------

  /** A number as it is written in base ten. */
  function Written(n: nat): (s: string)
    ensures s != ""
  {
    if n < 10 then ['0' + n as char] else Written(n / 10) + ['0' + (n % 10) as char]
  }

  // ----- hop intervals ---------------------------------------------------------------------------------------------------------

  /** The text is x between blanks. */
  ghost predicate Inside(t: string, l: string, x: string, r: string) { t == l + x + r && Spaces(l, 0, |l|) && Spaces(r, 0, |r|) }

  ghost predicate Reads(x: string, n: int) { Digits(x) && n == Decimal(x) }

  ghost predicate Alone(t: string, n: int) { exists l, x, r :: Inside(t, l, x, r) && Reads(x, n) }

  ghost predicate Between(x: string, m: string, k: string, y: string, body: string) {
    body == x + m + "-" + k + y && Digits(x) && Digits(y) && Spaces(m, 0, |m|) && Spaces(k, 0, |k|)
  }

  ghost predicate FromTo(t: string, a: int, b: int) {
    exists l, body, r, x, m, k, y :: Inside(t, l, body, r) && Between(x, m, k, y, body) && Reads(x, a) && Reads(y, b)
  }

  /** n seconds: the digits of n alone, or a range of two positive numbers from n upwards. */
  ghost predicate Seconds(t: string, n: int) { n > 0 && (Alone(t, n) || exists b :: n <= b && FromTo(t, n, b)) }

  /** What a hop interval becomes; every other value is dropped. */
  ghost predicate HopBecomes(env: Env, v: Value, n: int) {
    match v
    case Nil => false
    case Bool(_) => false
    case Int(i) => n == i > 0
    case Float(whole, i) => whole && n == i > 0
    case _ => Seconds(env.shown(v), n)
  }

  lemma DigitsEnds(x: string)
    requires Digits(x)
    ensures !IsSpace(x[0]) && !IsSpace(x[|x| - 1]) && '-' !in x
  {
  }

  lemma TrimParts(t: string) returns (l: string, x: string, r: string)
    ensures Inside(t, l, x, r) && x == Trim(t)
  {
    var a, b := TrimIs(t);
    l, x, r := t[..a], t[a..b], t[b..];
    assert t == l + x + r;
  }

  lemma AloneIs(t: string, n: int)
    ensures Alone(t, n) <==> Digits(Trim(t)) && n == Decimal(Trim(t))
  {
    hide Trim, Digits, Decimal;
    var p, q, s := TrimParts(t);
    if Alone(t, n) {
      var l, x, r :| Inside(t, l, x, r) && Reads(x, n);
      DigitsEnds(x);
      NotEmpty(x);
      TrimOf(l, x, r);
    }
  }

  lemma NotEmpty(x: string)
    requires Digits(x)
    ensures x != ""
  {
  }

  lemma {:induction false} DashIs(a: string, b: string)
    requires '-' !in a
    ensures DashAt(a + "-" + b) == |a|
  {
    if a == "" {
      assert a + "-" + b == "-" + b;
    } else {
      DashIs(a[1..], b);
      assert (a + "-" + b)[1..] == a[1..] + "-" + b;
    }
  }

  lemma {:induction false} DashFound(t: string)
    ensures DashAt(t) < |t| ==> t[DashAt(t)] == '-'
  {
    if t != "" && t[0] != '-' { DashFound(t[1..]); }
  }

  lemma NoDashInBlanks(m: string)
    requires Spaces(m, 0, |m|)
    ensures '-' !in m
  {
    forall c | c in m ensures c != '-' {
      var i: nat :| i < |m| && m[i] == c;
      assert IsSpace(m[i]);
    }
  }

  lemma BetweenRange(x: string, m: string, k: string, y: string, body: string)
    requires Between(x, m, k, y, body)
    ensures Range(body) == Some((Decimal(x), Decimal(y)))
    ensures body != "" && !IsSpace(body[0]) && !IsSpace(body[|body| - 1]) && !Digits(body)
  {
    DigitsEnds(x);
    DigitsEnds(y);
    NoDashInBlanks(m);
    assert body == (x + m) + "-" + (k + y);
    DashIs(x + m, k + y);
    assert body[..|x + m|] == x + m && body[|x + m| + 1..] == k + y;
    hide Decimal;
    assert "" + x + m == x + m && k + y + "" == k + y;
    TrimOf("", x, m);
    TrimOf(k, y, "");
    assert body[|x + m|] == '-';
    assert body[|body| - 1] == y[|y| - 1];
  }

  lemma RangeBetween(t: string) returns (x: string, m: string, k: string, y: string)
    requires Range(t).Some? && Trim(t) == t
    ensures Between(x, m, k, y, t) && Range(t) == Some((Decimal(x), Decimal(y)))
  {
    hide Decimal;
    var at := DashAt(t);
    DashFound(t);
    var before, after;
    before, x, m := TrimParts(t[..at]);
    k, y, after := TrimParts(t[at + 1..]);
    DigitsEnds(x);
    DigitsEnds(y);
    assert t == before + x + m + "-" + k + y + after;
    EndsTrimmed(t);
    assert before == "" && after == "";
    assert t == x + m + "-" + k + y;
  }

  lemma EndsTrimmed(t: string)
    requires Trim(t) == t && t != ""
    ensures !IsSpace(t[0]) && !IsSpace(t[|t| - 1])
  {
    TrimTwice(t);
  }

  lemma BetweenDigits(x: string, m: string, k: string, y: string, body: string)
    requires Between(x, m, k, y, body)
    ensures Digits(x) && Digits(y)
  {
  }

  lemma FromToIs(t: string, a: int, b: int)
    ensures FromTo(t, a, b) <==> Range(Trim(t)).Some? && a == Range(Trim(t)).value.0 && b == Range(Trim(t)).value.1
    ensures FromTo(t, a, b) ==> !Digits(Trim(t))
  {
    hide Trim, Digits, Decimal, Range, Between, Spaces;
    if FromTo(t, a, b) {
      var l, body, r, x, m, k, y :| Inside(t, l, body, r) && Between(x, m, k, y, body) && Reads(x, a) && Reads(y, b);
      BetweenRange(x, m, k, y, body);
      TrimOf(l, body, r);
    }
    if Range(Trim(t)).Some? && a == Range(Trim(t)).value.0 && b == Range(Trim(t)).value.1 {
      var l, body, r := TrimParts(t);
      TrimTwice(t);
      var x, m, k, y := RangeBetween(body);
      assert Digits(x) && Digits(y) by { BetweenDigits(x, m, k, y, body); }
      assert Inside(t, l, body, r) && Between(x, m, k, y, body) && Reads(x, a) && Reads(y, b);
    }
  }

  /** A hop interval is kept as n exactly when it reads as n seconds. */
  lemma HopRead(env: Env, v: Value, n: int)
    ensures Hop(env, v) == Some(n) <==> HopBecomes(env, v, n)
  {
    hide Trim, Digits, Decimal, Range, Alone, FromTo;
    if v.Text? || v.List? || v.Dict? {
      var t := env.shown(v);
      AloneIs(t, n);
      forall b ensures FromTo(t, n, b) <==> Range(Trim(t)).Some? && n == Range(Trim(t)).value.0 && b == Range(Trim(t)).value.1
        ensures FromTo(t, n, b) ==> !Digits(Trim(t))
      {
        FromToIs(t, n, b);
      }
      if Range(Trim(t)).Some? && n == Range(Trim(t)).value.0 { assert FromTo(t, n, Range(Trim(t)).value.1); }
    }
  }

  lemma EarlyKeep(env: Env, p: Node, k: Key)
    ensures k != Kind ==> SameAt(p, TypeStep(env, p).0, k)
    ensures k != Name ==> SameAt(p, NameStep(env, p).0, k)
    ensures k != Server ==> SameAt(p, ServerStep(env, p).0, k)
    ensures k != Port ==> SameAt(p, PortStep(env, p).0, k)
    ensures k != HopInterval ==> SameAt(p, HopStep(env, p).0, k)
  {
    TypeKeeps(env, p, k);
    ServerKeeps(env, p, k);
    HopKeeps(env, p, k);
    hide TypeStep, NameStep, ServerStep, PortStep, HopStep;
  }

  lemma TypeKeeps(env: Env, p: Node, k: Key)
    ensures k != Kind ==> SameAt(p, TypeStep(env, p).0, k)
    ensures k != Name ==> SameAt(p, NameStep(env, p).0, k)
  {
    hide Trim, Lower;
  }

  lemma ServerKeeps(env: Env, p: Node, k: Key)
    ensures k != Server ==> SameAt(p, ServerStep(env, p).0, k)
    ensures k != Port ==> SameAt(p, PortStep(env, p).0, k)
  {
    hide ServerOf, StrictPort;
  }

  lemma HopKeeps(env: Env, p: Node, k: Key)
    ensures k != HopInterval ==> SameAt(p, HopStep(env, p).0, k)
  {
    hide Hop;
  }

  lemma LateKeep(env: Env, p: Node, k: Key)
    ensures k != EchOpts ==> SameAt(p, EchStep(env, p).0, k)
    ensures k != Fingerprint && k != ClientFingerprint ==> SameAt(p, FingerprintStep(env, p).0, k)
    ensures k != ClientFingerprint ==> SameAt(p, ClientStep(env, p).0, k)
    ensures k != Smux ==> SameAt(p, SmuxStep(env, p).0, k)
  {
    EchKeeps(env, p, k);
    FingerprintKeeps(env, p, k);
    hide EchStep, FingerprintStep, ClientStep, SmuxStep;
  }

  lemma EchKeeps(env: Env, p: Node, k: Key)
    ensures k != EchOpts ==> SameAt(p, EchStep(env, p).0, k)
    ensures k != Smux ==> SameAt(p, SmuxStep(env, p).0, k)
  {
    hide Ech, SmuxOn, BrutalOn, Contains, FlowText;
  }

  lemma FingerprintKeeps(env: Env, p: Node, k: Key)
    ensures k != Fingerprint && k != ClientFingerprint ==> SameAt(p, FingerprintStep(env, p).0, k)
    ensures k != ClientFingerprint ==> SameAt(p, ClientStep(env, p).0, k)
  {
    hide Trim, Lower, Browser, Truthy;
  }

  /** The node before each of the nine steps. */
  function Early(env: Env, p: Node): (s: seq<Node>)
    ensures |s| == 6 && s[0] == p
  {
    var a := TypeStep(env, p).0;
    var b := NameStep(env, a).0;
    var c := ServerStep(env, b).0;
    var d := PortStep(env, c).0;
    [p, a, b, c, d, HopStep(env, d).0]
  }

  function Late(env: Env, e: Node): (s: seq<Node>)
    ensures |s| == 5 && s[0] == e
  {
    var f := EchStep(env, e).0;
    var g := FingerprintStep(env, f).0;
    var h := ClientStep(env, g).0;
    [e, f, g, h, SmuxStep(env, h).0]
  }

  lemma NormalStages(env: Env, p: Node)
    ensures Normal(env, p).0 == Late(env, Early(env, p)[5])[4]
  {
    hide TypeStep, NameStep, ServerStep, PortStep, HopStep, EchStep, FingerprintStep, ClientStep, SmuxStep;
  }

  /** A key that only one of the first five steps writes. */
  lemma EarlyStages(env: Env, p: Node, k: Key)
    ensures k != Kind ==> SameAt(p, Early(env, p)[1], k)
    ensures k != Kind && k != Name ==> SameAt(p, Early(env, p)[2], k)
    ensures k != Kind && k != Name && k != Server ==> SameAt(p, Early(env, p)[3], k)
    ensures k != Name && k != Server && k != Port ==> SameAt(Early(env, p)[1], Early(env, p)[4], k)
    ensures k != Server && k != Port && k != HopInterval ==> SameAt(Early(env, p)[2], Early(env, p)[5], k)
    ensures k != Port && k != HopInterval ==> SameAt(Early(env, p)[3], Early(env, p)[5], k)
    ensures k != HopInterval ==> SameAt(Early(env, p)[4], Early(env, p)[5], k)
  {
    var s := Early(env, p);
    hide TypeStep, NameStep, ServerStep, PortStep, HopStep;
    EarlyKeep(env, s[0], k);
    EarlyKeep(env, s[1], k);
    EarlyKeep(env, s[2], k);
    EarlyKeep(env, s[3], k);
    EarlyKeep(env, s[4], k);
  }

  lemma LateStages(env: Env, e: Node, k: Key)
    ensures k != EchOpts ==> SameAt(e, Late(env, e)[1], k)
    ensures k != EchOpts && k != Fingerprint && k != ClientFingerprint ==> SameAt(e, Late(env, e)[3], k)
    ensures k != Fingerprint && k != ClientFingerprint && k != Smux ==> SameAt(Late(env, e)[1], Late(env, e)[4], k)
    ensures k != Smux ==> SameAt(Late(env, e)[3], Late(env, e)[4], k)
  {
    var s := Late(env, e);
    hide EchStep, FingerprintStep, ClientStep, SmuxStep;
    LateKeep(env, s[0], k);
    LateKeep(env, s[1], k);
    LateKeep(env, s[2], k);
    LateKeep(env, s[3], k);
  }

  /** Only the type decides whether the interval is looked at, and no other step touches it. */
  lemma HopStepAlone(env: Env, p: Node)
    ensures SameAt(HopStep(env, TypeStep(env, p).0).0, Normal(env, p).0, HopInterval)
  {
    NormalStages(env, p);
    EarlyStages(env, p, HopInterval);
    EarlyStages(env, p, Kind);
    LateStages(env, Early(env, p)[5], HopInterval);
    hide Normal, TypeStep, Hop, Late;
    assert Early(env, p)[5] == HopStep(env, Early(env, p)[4]).0 && Early(env, p)[1] == TypeStep(env, p).0;
    hide Early;
  }

  /** A Hysteria 2 node keeps its interval as the seconds it reads as, and loses any other; other nodes keep what they have. */
  lemma HopOfNode(env: Env, p: Node)
    requires HopInterval in p
    ensures var q := Normal(env, p).0;
      if Kind in p && (Lower(Trim(env.shown(p[Kind]))) == "hy2" || Lower(Trim(env.shown(p[Kind]))) == "hysteria2") then
        if HopInterval in q then exists n :: HopBecomes(env, p[HopInterval], n) && q[HopInterval] == Int(n)
        else forall n :: !HopBecomes(env, p[HopInterval], n)
      else HopInterval in q && q[HopInterval] == p[HopInterval]
  {
    HopStepAlone(env, p);
    hide HopBecomes, Hop, Trim, Lower, Normal;
    forall n ensures Hop(env, p[HopInterval]) == Some(n) <==> HopBecomes(env, p[HopInterval], n) { HopRead(env, p[HopInterval], n); }
  }

  // ----- Boolean words -----------------------------------------------------------------------------------------------------------

  /** The word between blanks, its letters in either case. */
  ghost predicate Says(s: string, word: string) {
    exists l, x, r ::
      Inside(s, l, x, r) && |x| == |word|
      && forall i: nat :: i < |x| ==> x[i] == word[i] || ('a' <= word[i] <= 'z' && x[i] == word[i] - 'a' + 'A')
  }

  ghost predicate LowerWord(word: string) { word != "" && forall i: nat :: i < |word| ==> !('A' <= word[i] <= 'Z') && !IsSpace(word[i]) }

  lemma {:induction false} LowerAt(s: string, i: nat)
    ensures |Lower(s)| == |s|
    ensures i < |s| ==> Lower(s)[i] == if 'A' <= s[i] <= 'Z' then s[i] - 'A' + 'a' else s[i]
  {
    if s != "" { LowerAt(s[1..], if i > 0 then i - 1 else 0); }
  }

  lemma SaysIs(s: string, word: string)
    requires LowerWord(word)
    ensures Says(s, word) <==> Lower(Trim(s)) == word
  {
    hide Lower, Trim;
    if Says(s, word) {
      var l, x, r :| Inside(s, l, x, r) && |x| == |word|
        && forall i: nat :: i < |x| ==> x[i] == word[i] || ('a' <= word[i] <= 'z' && x[i] == word[i] - 'a' + 'A');
      TrimOf(l, x, r);
      LowerAt(x, 0);
      forall i: nat | i < |x| ensures Lower(x)[i] == word[i] { LowerAt(x, i); }
      assert Lower(x) == word;
    }
    if Lower(Trim(s)) == word {
      var l, x, r := TrimParts(s);
      LowerAt(x, 0);
      forall i: nat | i < |x| ensures x[i] == word[i] || ('a' <= word[i] <= 'z' && x[i] == word[i] - 'a' + 'A') { LowerAt(x, i); }
    }
  }

  /** A value is true as true, 1 or one of four words, and false as false, 0 or one of four others. */
  lemma TruthWords(v: Value)
    ensures Truth(v) == Some(true) <==>
      match v
      case Bool(b) => b
      case Int(n) => n == 1
      case Text(s) => Says(s, "1") || Says(s, "true") || Says(s, "yes") || Says(s, "on")
      case _ => false
    ensures Truth(v) == Some(false) <==>
      match v
      case Bool(b) => !b
      case Int(n) => n == 0
      case Text(s) => Says(s, "0") || Says(s, "false") || Says(s, "no") || Says(s, "off")
      case _ => false
  {
    hide Says, Lower, Trim;
    if v.Text? {
      SaysIs(v.s, "1");
      SaysIs(v.s, "true");
      SaysIs(v.s, "yes");
      SaysIs(v.s, "on");
      SaysIs(v.s, "0");
      SaysIs(v.s, "false");
      SaysIs(v.s, "no");
      SaysIs(v.s, "off");
    }
  }

  // ----- ports ---------------------------------------------------------------------------------------------------------------------

  /** A port from 1 to 65535 is kept when it is written in digits alone, perhaps with zeros before it. */
  lemma PortRead(n: nat, zeros: string)
    requires forall i: nat :: i < |zeros| ==> zeros[i] == '0'
    ensures StrictPort(Text(zeros + Written(n))) == if 1 <= n <= 65535 then Some(n) else None
    ensures StrictPort(Int(n)) == if 1 <= n <= 65535 then Some(n) else None
  {
    hide Written, Decimal;
    ZerosRead(zeros, n);
  }

  lemma DigitAfter(front: string, last: char)
    requires (front == "" || Digits(front)) && '0' <= last <= '9'
    ensures Digits(front + [last]) && Decimal(front + [last]) == 10 * Decimal(front) + (last - '0') as int
  {
    assert (front + [last])[..|front|] == front;
  }

  lemma WrittenLast(n: nat)
    ensures var last := '0' + (n % 10) as char; Written(n) == if n < 10 then [last] else Written(n / 10) + [last]
  {
  }

  lemma {:induction false} ZerosRead(zeros: string, n: nat)
    requires forall i: nat :: i < |zeros| ==> zeros[i] == '0'
    ensures Digits(zeros + Written(n)) && Decimal(zeros + Written(n)) == n
    decreases n
  {
    hide Written, Decimal;
    WrittenLast(n);
    var last := '0' + (n % 10) as char;
    if n < 10 {
      ZerosAlone(zeros);
      DigitAfter(zeros, last);
    } else {
      ZerosRead(zeros, n / 10);
      DigitAfter(zeros + Written(n / 10), last);
      assert zeros + (Written(n / 10) + [last]) == (zeros + Written(n / 10)) + [last];
    }
  }

  lemma {:induction false} ZerosAlone(zeros: string)
    requires forall i: nat :: i < |zeros| ==> zeros[i] == '0'
    ensures Decimal(zeros) == 0
  {
    if zeros != "" { ZerosAlone(zeros[..|zeros| - 1]); }
  }

  /** Every text of digits alone is such a number. */
  lemma {:induction false} DigitsWritten(s: string) returns (zeros: string, n: nat)
    requires Digits(s)
    ensures s == zeros + Written(n) && forall i: nat :: i < |zeros| ==> zeros[i] == '0'
  {
    hide Written;
    var front, last := s[..|s| - 1], (s[|s| - 1] - '0') as int;
    assert s == front + ['0' + last as char];
    if front == "" {
      zeros, n := "", last;
      WrittenLast(n);
    } else {
      var z, m := DigitsWritten(front);
      zeros, n := DigitsMore(z, m, last);
      assert zeros + Written(n) == (z + Written(m)) + ['0' + last as char];
    }
  }

  lemma DigitsMore(z: string, m: nat, last: nat) returns (zeros: string, n: nat)
    requires last < 10 && forall i: nat :: i < |z| ==> z[i] == '0'
    ensures zeros + Written(n) == (z + Written(m)) + ['0' + last as char] && forall i: nat :: i < |zeros| ==> zeros[i] == '0'
  {
    hide Written;
    if m == 0 {
      zeros, n := z + "0", last;
      WrittenLast(0);
      WrittenLast(last);
    } else {
      zeros, n := z, 10 * m + last;
      WrittenLast(n);
      assert z + (Written(m) + ['0' + last as char]) == (z + Written(m)) + ['0' + last as char];
    }
  }

  // ----- the other fields ------------------------------------------------------------------------------------------------------------

  predicate IsExtension(k: Key) { k.Other? || k.Flow? }

  /** The fields a user adds stay as they are. */
  lemma ExtensionsKept(env: Env, p: Node, k: Key)
    requires IsExtension(k)
    ensures SameAt(p, Normal(env, p).0, k)
  {
    NormalStages(env, p);
    EarlyStages(env, p, k);
    LateStages(env, Early(env, p)[5], k);
    hide Normal, Early, Late;
  }

  const BROWSERS: seq<string> := ["chrome", "firefox", "safari", "ios", "android", "edge", "360", "qq", "random", "randomized"]

  /** Only two steps touch the fingerprints. */
  lemma FingerprintsAlone(env: Env, p: Node) returns (before: Node)
    ensures SameAt(p, before, Fingerprint) && SameAt(p, before, ClientFingerprint)
    ensures var after := ClientStep(env, FingerprintStep(env, before).0).0;
      SameAt(after, Normal(env, p).0, Fingerprint) && SameAt(after, Normal(env, p).0, ClientFingerprint)
  {
    var e := Early(env, p)[5];
    before := Late(env, e)[1];
    assert Late(env, e)[3] == ClientStep(env, FingerprintStep(env, before).0).0;
    hide Normal, ClientStep, FingerprintStep, Early, Late;
    NormalStages(env, p);
    EarlyStages(env, p, Fingerprint);
    EarlyStages(env, p, ClientFingerprint);
    LateStages(env, e, Fingerprint);
    LateStages(env, e, ClientFingerprint);
  }

  lemma WordMoved(env: Env, p: Node, word: string)
    requires Fingerprint in p && p[Fingerprint] != Nil && Lower(Trim(env.shown(p[Fingerprint]))) == word && ClientFingerprint !in p
    requires Browser(word) && word != "none" && word != "" && env.shown(Text(word)) == word && Trim(word) == word && Lower(word) == word
    ensures var q := ClientStep(env, FingerprintStep(env, p).0).0;
      Fingerprint !in q && ClientFingerprint in q && q[ClientFingerprint] == Text(word)
  {
    hide Browser, Lower, Trim;
  }

  /** A fingerprint that names a browser moves to the client fingerprint when the node has none of its own. */
  lemma BrowserMoved(env: Env, p: Node, word: string)
    requires Sound(env) && word in BROWSERS && Fingerprint in p && p[Fingerprint].Text? && Says(p[Fingerprint].s, word)
    requires ClientFingerprint !in p
    ensures var q := Normal(env, p).0; Fingerprint !in q && ClientFingerprint in q && q[ClientFingerprint] == Text(word)
  {
    BrowserWord(word);
    hide Normal, Says, Lower, Trim, Browser, ClientStep, FingerprintStep, LowerWord;
    var before := FingerprintsAlone(env, p);
    assert env.shown(p[Fingerprint]) == p[Fingerprint].s && env.shown(Text(word)) == word by { ShownText(env, p[Fingerprint].s, word); }
    SaysIs(p[Fingerprint].s, word);
    PlainWord(word);
    hide Sound;
    WordMoved(env, before, word);
  }

  lemma ShownText(env: Env, s: string, t: string)
    requires Sound(env)
    ensures env.shown(Text(s)) == s && env.shown(Text(t)) == t
  {
  }

  lemma BrowserWord(word: string)
    requires word in BROWSERS
    ensures LowerWord(word) && Browser(word) && word != "none" && word != ""
  {
    var i: nat :| i < |BROWSERS| && BROWSERS[i] == word;
  }

  lemma PlainWord(word: string)
    requires LowerWord(word)
    ensures Trim(word) == word && Lower(word) == word
  {
    Trimmed(word);
    LowerAt(word, 0);
    forall k: nat | k < |word| ensures Lower(word)[k] == word[k] { LowerAt(word, k); }
  }

  /** A fingerprint that is left is the null value or a certificate pin. */
  lemma FingerprintLeft(env: Env, p: Node)
    requires Fingerprint in Normal(env, p).0
    ensures Fingerprint in p && Normal(env, p).0[Fingerprint] == p[Fingerprint]
    ensures p[Fingerprint] == Nil || env.pin(Trim(env.shown(p[Fingerprint])))
  {
    var before := FingerprintsAlone(env, p);
    hide Normal, Lower, Trim, Browser, Truthy;
    LateKeep(env, FingerprintStep(env, before).0, Fingerprint);
  }

  // ----- the remaining fields ----------------------------------------------------------------------------------------------------------

  lemma SameField(env: Env, p: Node, q: Node)
    ensures SameAt(p, q, Name) ==> SameAt(NameStep(env, p).0, NameStep(env, q).0, Name)
    ensures SameAt(p, q, Server) ==> SameAt(ServerStep(env, p).0, ServerStep(env, q).0, Server)
    ensures SameAt(p, q, Port) ==> SameAt(PortStep(env, p).0, PortStep(env, q).0, Port)
    ensures SameAt(p, q, EchOpts) ==> SameAt(EchStep(env, p).0, EchStep(env, q).0, EchOpts)
  {
    hide Trim, ServerOf, StrictPort, Ech;
  }

  /** Type, name, server, port and ech-opts each come from one step. */
  lemma FieldsAlone(env: Env, p: Node)
    ensures var q := Normal(env, p).0;
      && SameAt(q, TypeStep(env, p).0, Kind) && SameAt(q, NameStep(env, p).0, Name) && SameAt(q, ServerStep(env, p).0, Server)
      && SameAt(q, PortStep(env, p).0, Port) && SameAt(q, EchStep(env, p).0, EchOpts)
  {
    NormalStages(env, p);
    FieldStages(env, p);
    LateStages(env, Early(env, p)[5], Kind);
    LateStages(env, Early(env, p)[5], Name);
    LateStages(env, Early(env, p)[5], Server);
    LateStages(env, Early(env, p)[5], Port);
    LateStages(env, Early(env, p)[5], EchOpts);
    assert Late(env, Early(env, p)[5])[1] == EchStep(env, Early(env, p)[5]).0;
    hide Normal, TypeStep, NameStep, ServerStep, PortStep, EchStep, Early, Late;
    SameField(env, Early(env, p)[5], p);
  }

  lemma EarlyNodes(env: Env, p: Node)
    ensures var s := Early(env, p);
      && s[1] == TypeStep(env, p).0 && s[2] == NameStep(env, s[1]).0 && s[3] == ServerStep(env, s[2]).0 && s[4] == PortStep(env, s[3]).0
      && s[5] == HopStep(env, s[4]).0
  {
    hide TypeStep, NameStep, ServerStep, PortStep, HopStep;
  }

  lemma FieldStages(env: Env, p: Node)
    ensures var e := Early(env, p)[5];
      && SameAt(e, TypeStep(env, p).0, Kind) && SameAt(e, NameStep(env, p).0, Name) && SameAt(e, ServerStep(env, p).0, Server)
      && SameAt(e, PortStep(env, p).0, Port) && SameAt(e, p, EchOpts)
  {
    hide TypeStep, NameStep, ServerStep, PortStep, HopStep, Early, SameAt;
    var s := Early(env, p);
    EarlyNodes(env, p);
    SameField(env, s[1], p);
    SameField(env, s[2], p);
    SameField(env, s[3], p);
    EarlyStages(env, p, Kind);
    EarlyStages(env, p, Name);
    EarlyStages(env, p, Server);
    EarlyStages(env, p, Port);
    EarlyStages(env, p, EchOpts);
    SameThree(p, s[1], s[5], EchOpts);
    SameThree(p, s[1], s[1], Name);
    SameThree(p, s[2], s[2], Server);
    SameThree(p, s[3], s[3], Port);
    SameThree(s[1], s[4], s[5], Kind);
    SameThree(NameStep(env, p).0, s[2], s[5], Name);
    SameThree(ServerStep(env, p).0, s[3], s[5], Server);
    SameThree(PortStep(env, p).0, s[4], s[5], Port);
    SameThree(s[1], s[2], s[5], EchOpts);
    SameThree(p, s[2], s[5], EchOpts);
  }

  lemma SameThree(p: Node, q: Node, r: Node, k: Key)
    ensures SameAt(p, q, k) && SameAt(q, r, k) ==> SameAt(p, r, k) && SameAt(r, p, k)
    ensures SameAt(p, q, k) <==> SameAt(q, p, k)
  {
  }

  /** The trimmed text of a value. */
  ghost predicate TrimmedText(env: Env, v: Value, t: string) {
    exists l, r :: Inside(env.shown(v), l, t, r) && (t == "" || (!IsSpace(t[0]) && !IsSpace(t[|t| - 1])))
  }

  lemma TrimmedIs(env: Env, v: Value)
    ensures TrimmedText(env, v, Trim(env.shown(v)))
  {
    hide Trim;
    var l, x, r := TrimParts(env.shown(v));
    TrimTwice(env.shown(v));
  }

  /** What becomes of type, name and port. */
  lemma AddressFields(env: Env, p: Node)
    requires Sound(env)
    ensures var q := Normal(env, p).0;
      && (Kind in p <==> Kind in q) && (Name in p <==> Name in q) && (Port in p <==> Port in q)
      && (Kind in p ==> q[Kind].Text? && if Says(env.shown(p[Kind]), "hy2") then q[Kind].s == "hysteria2" else q[Kind].s == Lower(Trim(env.shown(p[Kind]))))
      && (Name in p ==> q[Name].Text? && TrimmedText(env, p[Name], q[Name].s))
      && (Port in p ==> if StrictPort(p[Port]).Some? then q[Port] == Int(StrictPort(p[Port]).value) else q[Port] == p[Port])
  {
    FieldsAlone(env, p);
    hide Normal, Trim, Lower, StrictPort, Says;
    if Kind in p { SaysIs(env.shown(p[Kind]), "hy2"); }
    if Name in p { TrimmedIs(env, p[Name]); }
  }

  /** The address that the text t of a server stands for: a list text gives its element, and brackets around an IPv6 address go. */
  ghost predicate Address(env: Env, t: string, w: string) {
    var u := if env.one(t).Some? then env.one(t).value else t;
    if exists inner :: u == "[" + inner + "]" && env.ipv6(Trim(inner)) then exists inner :: u == "[" + inner + "]" && w == Trim(inner)
    else w == u
  }

  lemma BracketsGo(env: Env, u: string)
    ensures (exists inner :: u == "[" + inner + "]" && env.ipv6(Trim(inner))) <==> Bracketed(u) && env.ipv6(Trim(u[1..|u| - 1]))
    ensures Bracketed(u) ==> u == "[" + u[1..|u| - 1] + "]"
  {
    hide Trim;
    if inner :| u == "[" + inner + "]" && env.ipv6(Trim(inner)) { assert u[1..|u| - 1] == inner; }
    if Bracketed(u) { assert u == "[" + u[1..|u| - 1] + "]"; }
  }

  /** What becomes of the server: the address its text, or the text of its one element, stands for; a list of any other length is written
      out. */
  lemma ServerField(env: Env, p: Node)
    ensures var q := Normal(env, p).0;
      && (Server in p <==> Server in q)
      && (Server in p ==> q[Server].Text? && exists t ::
           && TrimmedText(env, if p[Server].List? && |p[Server].items| == 1 then p[Server].items[0] else p[Server], t)
           && if p[Server].List? && |p[Server].items| != 1 then q[Server].s == t else Address(env, t, q[Server].s))
  {
    FieldsAlone(env, p);
    hide Normal, Trim, Bracketed, TrimmedText;
    if Server in p {
      var v := if p[Server].List? && |p[Server].items| == 1 then p[Server].items[0] else p[Server];
      TrimmedIs(env, v);
      var t := Trim(env.shown(v));
      assert ServerText(env, p[Server]) == t && TrimmedText(env, v, t);
      AddressIs(env, t);
      hide Address, StripBrackets;
    }
  }

  lemma AddressIs(env: Env, t: string)
    ensures Address(env, t, StripBrackets(env, if env.one(t).Some? then env.one(t).value else t))
  {
    hide Trim, Bracketed;
    var u := if env.one(t).Some? then env.one(t).value else t;
    BracketsGo(env, u);
  }

  /** A text of ech-opts: trimmed and not blank, or gone. */
  ghost predicate CleanText(env: Env, e: Node, f: Node, k: Key) {
    if k in e && !(forall c :: c in env.shown(e[k]) ==> IsSpace(c)) then k in f && f[k].Text? && TrimmedText(env, e[k], f[k].s)
    else k !in f
  }

  /** What becomes of ech-opts: `enable` as a Boolean or gone, the two texts trimmed or gone, the rest as it was; and the whole goes when
      nothing is left or it was no dictionary. */
  lemma EchField(env: Env, p: Node)
    requires Sound(env) && EchOpts in p
    ensures var q := Normal(env, p).0;
      if EchOpts !in q then
        p[EchOpts].Dict? ==> forall k :: k in p[EchOpts].fields ==> k == Enable || k == Config || k == QueryServerName
      else
        && p[EchOpts].Dict? && q[EchOpts].Dict? && q[EchOpts].fields != map[]
        && var e, f := p[EchOpts].fields, q[EchOpts].fields;
          && (Enable in f <==> Enable in e && Truth(e[Enable]).Some?) && (Enable in f ==> f[Enable] == Bool(Truth(e[Enable]).value))
          && CleanText(env, e, f, Config) && CleanText(env, e, f, QueryServerName)
          && forall k :: k != Enable && k != Config && k != QueryServerName ==> SameAt(e, f, k)
  {
    FieldsAlone(env, p);
    hide Normal, Truth, Trim, CleanText;
    if p[EchOpts].Dict? {
      var e := p[EchOpts].fields;
      EchFields(env, e);
      hide Ech;
      if Ech(env, e).0 == map[] {
        forall k | k in e && k != Enable && k != Config && k != QueryServerName ensures k in Ech(env, e).0 { assert SameAt(e, Ech(env, e).0, k); }
      }
    }
  }

  lemma EchFields(env: Env, e: Node)
    ensures var f := Ech(env, e).0;
      && (Enable in f <==> Enable in e && Truth(e[Enable]).Some?) && (Enable in f ==> f[Enable] == Bool(Truth(e[Enable]).value))
      && CleanText(env, e, f, Config) && CleanText(env, e, f, QueryServerName)
      && forall k :: k != Enable && k != Config && k != QueryServerName ==> SameAt(e, f, k)
  {
    hide Truth, Trim;
    CleanStep(env, e, Config);
    CleanStep(env, e, QueryServerName);
  }

  lemma CleanStep(env: Env, e: Node, k: Key)
    ensures k in e ==> TrimmedText(env, e[k], Trim(env.shown(e[k])))
    ensures k in e ==> (Trim(env.shown(e[k])) == "" <==> forall c :: c in env.shown(e[k]) ==> IsSpace(c))
  {
    if k in e {
      TrimmedIs(env, e[k]);
      BlankTrimmed(env.shown(e[k]));
    }
  }

  /** Whether multiplexing goes: Vision is on, multiplexing is enabled, and Brutal is not. */
  ghost predicate SmuxClash(env: Env, p: Node) {
    && Flow in p && Truthy(p[Flow]) && (exists before, after :: Lower(Trim(env.shown(p[Flow]))) == before + "xtls-rprx-vision" + after)
    && Smux in p
    && (match p[Smux]
        case Dict(f) =>
          && Enabled in f && Truth(f[Enabled]) == Some(true)
          && !(BrutalOpts in f && f[BrutalOpts].Dict? && Enabled in f[BrutalOpts].fields && Truth(f[BrutalOpts].fields[Enabled]) == Some(true))
        case Bool(b) => b
        case Text(_) => Truth(p[Smux]) == Some(true)
        case Int(_) => Truth(p[Smux]) == Some(true)
        case _ => false)
  }

  lemma ContainsParts(s: string, t: string)
    ensures Contains(s, t) <==> exists before, after :: s == before + t + after
  {
    if Contains(s, t) {
      var i: nat :| i <= |s| && Occurs(s, t, i);
      assert s == s[..i] + t + s[i + |t|..];
    }
    if before, after :| s == before + t + after {
      assert s[|before|..|before| + |t|] == t;
      assert Occurs(s, t, |before|);
    }
  }

  /** Multiplexing stays as it is unless it clashes with Vision. */
  lemma SmuxField(env: Env, p: Node)
    ensures var q := Normal(env, p).0;
      if SmuxClash(env, p) then Smux !in q else SameAt(p, q, Smux)
  {
    var e := Early(env, p)[5];
    var h := Late(env, e)[3];
    assert Late(env, e)[4] == SmuxStep(env, h).0;
    NormalStages(env, p);
    EarlyStages(env, p, Smux);
    EarlyStages(env, p, Flow);
    LateStages(env, e, Smux);
    LateStages(env, e, Flow);
    hide Normal, Early, Late, SmuxStep;
    SmuxAlone(env, h);
    SameClash(env, p, h);
    hide SmuxClash;
  }

  lemma SameClash(env: Env, p: Node, h: Node)
    requires SameAt(p, h, Smux) && SameAt(p, h, Flow)
    ensures SmuxClash(env, p) <==> SmuxClash(env, h)
  {
    hide Truth, Lower, Trim, Truthy;
  }

  lemma SmuxAlone(env: Env, h: Node)
    ensures if SmuxClash(env, h) then Smux !in SmuxStep(env, h).0 else SmuxStep(env, h).0 == h
  {
    hide Truth, Lower, Trim, Contains, Truthy;
    ContainsParts(FlowText(env, h), "xtls-rprx-vision");
    NoVision();
  }

  lemma NoVision()
    ensures forall before: string, after: string :: "" != before + "xtls-rprx-vision" + after
  {
    assert |"xtls-rprx-vision"| == 16;
  }

  /** Without a fingerprint to move, the client fingerprint is trimmed, or gone when it is blank or says none. */
  lemma ClientField(env: Env, p: Node)
    requires Fingerprint !in p && ClientFingerprint in p
    ensures var q := Normal(env, p).0;
      if p[ClientFingerprint].Nil? then SameAt(p, q, ClientFingerprint)
      else if Says(env.shown(p[ClientFingerprint]), "none") || (forall c :: c in env.shown(p[ClientFingerprint]) ==> IsSpace(c)) then ClientFingerprint !in q
      else ClientFingerprint in q && q[ClientFingerprint].Text? && TrimmedText(env, p[ClientFingerprint], q[ClientFingerprint].s)
  {
    var before := FingerprintsAlone(env, p);
    hide Normal, Lower, Trim, Browser, Truthy, Says, TrimmedText;
    SaysIs(env.shown(p[ClientFingerprint]), "none");
    BlankTrimmed(env.shown(p[ClientFingerprint]));
    TrimmedIs(env, p[ClientFingerprint]);
  }

  /** Python's false values. */
  lemma FalseValues(v: Value)
    ensures !Truthy(v) <==> v in [Nil, Bool(false), Int(0), Float(true, 0), Text(""), List([]), Dict(map[])]
  {
    var s := [Nil, Bool(false), Int(0), Float(true, 0), Text(""), List([]), Dict(map[])];
    assert s[0] == Nil && s[1] == Bool(false) && s[2] == Int(0) && s[3] == Float(true, 0) && s[4] == Text("") && s[5] == List([]) && s[6] == Dict(map[]);
  }

  lemma OwnStays(env: Env, p: Node)
    requires ClientFingerprint in p && Truthy(p[ClientFingerprint])
    ensures SameAt(p, FingerprintStep(env, p).0, ClientFingerprint) && !p[ClientFingerprint].Nil?
  {
    hide Lower, Trim, Browser;
  }

  lemma ClientTrimmed(env: Env, p: Node)
    requires ClientFingerprint in p && !p[ClientFingerprint].Nil?
    requires Trim(env.shown(p[ClientFingerprint])) != "" && Lower(Trim(env.shown(p[ClientFingerprint]))) != "none"
    ensures var q := ClientStep(env, p).0; ClientFingerprint in q && q[ClientFingerprint] == Text(Trim(env.shown(p[ClientFingerprint])))
  {
    hide Lower, Trim;
  }

  /** A client fingerprint of its own is kept, whatever the fingerprint says. */
  lemma OwnClientKept(env: Env, p: Node)
    requires ClientFingerprint in p && Truthy(p[ClientFingerprint]) && !Says(env.shown(p[ClientFingerprint]), "none")
    requires exists c :: c in env.shown(p[ClientFingerprint]) && !IsSpace(c)
    ensures var q := Normal(env, p).0;
      ClientFingerprint in q && q[ClientFingerprint].Text? && TrimmedText(env, p[ClientFingerprint], q[ClientFingerprint].s)
  {
    hide Normal, Lower, Trim, Truthy, Says, TrimmedText, FingerprintStep, ClientStep;
    var before := FingerprintsAlone(env, p);
    OwnStays(env, before);
    SaysIs(env.shown(p[ClientFingerprint]), "none");
    BlankTrimmed(env.shown(p[ClientFingerprint]));
    TrimmedIs(env, p[ClientFingerprint]);
    ClientTrimmed(env, FingerprintStep(env, before).0);
  }

  // ----- the warnings --------------------------------------------------------------------------------------------------------------------

  predicate Only(ws: seq<Warning>, allowed: seq<Warning>) { forall w | w in ws :: w in allowed }

  /** Which warnings the first five steps give. */
  lemma EarlyWarnings(env: Env, p: Node)
    ensures Only(TypeStep(env, p).1, [RenamedType])
    ensures RenamedType in TypeStep(env, p).1 <==> Kind in p && Lower(Trim(env.shown(p[Kind]))) == "hy2"
    ensures NameStep(env, p).1 == [] && PortStep(env, p).1 == [] && Only(ServerStep(env, p).1, [ServerList, ServerListText, ServerBrackets])
    ensures Only(HopStep(env, p).1, [DroppedHop])
    ensures DroppedHop in HopStep(env, p).1 <==> HopInterval in p && HopInterval !in HopStep(env, p).0
  {
    hide Lower, Trim, Hop, StrictPort;
  }

  lemma EchWarnings(env: Env, p: Node)
    ensures Only(EchStep(env, p).1, [DroppedEch, EchChanged])
    ensures DroppedEch in EchStep(env, p).1 <==> EchOpts in p && EchOpts !in EchStep(env, p).0
    ensures Only(SmuxStep(env, p).1, [SmuxDropped])
    ensures SmuxDropped in SmuxStep(env, p).1 <==> Smux in p && Smux !in SmuxStep(env, p).0
  {
    hide SmuxOn, BrutalOn, Contains, FlowText;
    if EchOpts in p && p[EchOpts].Dict? { OnlyChanged(env, p[EchOpts].fields); }
    hide Ech;
  }

  lemma OnlyChanged(env: Env, e: Node)
    ensures Only(Ech(env, e).1, [EchChanged])
  {
    hide Truth, Trim;
  }

  lemma FingerprintWarnings(env: Env, p: Node)
    ensures Only(FingerprintStep(env, p).1, [FingerprintNone, FingerprintMoved, FingerprintDropped])
    ensures FingerprintStep(env, p).1 != [] <==> Fingerprint in p && Fingerprint !in FingerprintStep(env, p).0
    ensures FingerprintMoved in FingerprintStep(env, p).1 ==> ClientFingerprint in FingerprintStep(env, p).0
    ensures FingerprintMoved !in FingerprintStep(env, p).1 ==> SameAt(p, FingerprintStep(env, p).0, ClientFingerprint)
    ensures Only(ClientStep(env, p).1, [ClientDropped])
    ensures ClientDropped in ClientStep(env, p).1 <==> ClientFingerprint in p && ClientFingerprint !in ClientStep(env, p).0
  {
    hide Lower, Trim, Browser, Truthy;
  }

  function EarlyTold(env: Env, p: Node): seq<Warning> {
    var s := Early(env, p);
    TypeStep(env, s[0]).1 + NameStep(env, s[1]).1 + ServerStep(env, s[2]).1 + PortStep(env, s[3]).1 + HopStep(env, s[4]).1
  }

  function LateTold(env: Env, e: Node): seq<Warning> {
    var s := Late(env, e);
    EchStep(env, s[0]).1 + FingerprintStep(env, s[1]).1 + ClientStep(env, s[2]).1 + SmuxStep(env, s[3]).1
  }

  lemma WarningStages(env: Env, p: Node)
    ensures Normal(env, p).1 == EarlyTold(env, p) + LateTold(env, Early(env, p)[5])
  {
    hide TypeStep, NameStep, ServerStep, PortStep, HopStep, EchStep, FingerprintStep, ClientStep, SmuxStep;
  }

  lemma EarlyTells(env: Env, p: Node)
    ensures var ws, e := EarlyTold(env, p), Early(env, p)[5];
      && Only(ws, [RenamedType, ServerList, ServerListText, ServerBrackets, DroppedHop])
      && (RenamedType in ws <==> Kind in p && Lower(Trim(env.shown(p[Kind]))) == "hy2")
      && (DroppedHop in ws <==> HopInterval in p && HopInterval !in e)
  {
    var s := Early(env, p);
    EarlyStages(env, p, HopInterval);
    hide TypeStep, NameStep, ServerStep, PortStep, HopStep, Lower, Trim;
    EarlyWarnings(env, s[0]);
    EarlyWarnings(env, s[1]);
    EarlyWarnings(env, s[2]);
    EarlyWarnings(env, s[3]);
    EarlyWarnings(env, s[4]);
  }

  lemma FourParts(a: seq<Warning>, b: seq<Warning>, c: seq<Warning>, d: seq<Warning>)
    requires Only(a, [DroppedEch, EchChanged]) && Only(b, [FingerprintNone, FingerprintMoved, FingerprintDropped])
    requires Only(c, [ClientDropped]) && Only(d, [SmuxDropped])
    ensures var ws := a + b + c + d;
      && RenamedType !in ws && DroppedHop !in ws && (DroppedEch in ws <==> DroppedEch in a)
      && (FingerprintMoved in ws <==> FingerprintMoved in b)
      && (FingerprintNone in ws || FingerprintMoved in ws || FingerprintDropped in ws <==> b != [])
      && (ClientDropped in ws <==> ClientDropped in c) && (SmuxDropped in ws <==> SmuxDropped in d)
  {
    var ws := a + b + c + d;
    assert forall w :: w in ws <==> w in a || w in b || w in c || w in d;
    if b != [] { assert b[0] in b; }
  }

  lemma LateTells(env: Env, e: Node)
    ensures var ws, q := LateTold(env, e), Late(env, e)[4];
      && RenamedType !in ws && DroppedHop !in ws
      && (DroppedEch in ws <==> EchOpts in e && EchOpts !in q)
      && (FingerprintNone in ws || FingerprintMoved in ws || FingerprintDropped in ws <==> Fingerprint in e && Fingerprint !in q)
      && (ClientDropped in ws <==> (ClientFingerprint in e || FingerprintMoved in ws) && ClientFingerprint !in q)
      && (SmuxDropped in ws <==> Smux in e && Smux !in q)
  {
    var s := Late(env, e);
    var a, b, c, d := EchStep(env, s[0]).1, FingerprintStep(env, s[1]).1, ClientStep(env, s[2]).1, SmuxStep(env, s[3]).1;
    EchWarnings(env, s[0]);
    EchWarnings(env, s[3]);
    FingerprintWarnings(env, s[1]);
    FingerprintWarnings(env, s[2]);
    hide Only, SameAt;
    FourParts(a, b, c, d);
    assert LateTold(env, e) == a + b + c + d;
    LateEnds(env, e);
    hide EchStep, FingerprintStep, ClientStep, SmuxStep, Late, LateTold;
  }

  /** Which keys the last four nodes have. */
  lemma LateEnds(env: Env, e: Node)
    ensures var s := Late(env, e);
      && (EchOpts in s[4] <==> EchOpts in EchStep(env, s[0]).0) && s[0] == e
      && (Fingerprint in s[1] <==> Fingerprint in e) && (Fingerprint in s[4] <==> Fingerprint in FingerprintStep(env, s[1]).0)
      && (ClientFingerprint in s[1] <==> ClientFingerprint in e) && s[2] == FingerprintStep(env, s[1]).0
      && (ClientFingerprint in s[4] <==> ClientFingerprint in ClientStep(env, s[2]).0)
      && (Smux in s[3] <==> Smux in e) && s[4] == SmuxStep(env, s[3]).0
  {
    LateStages(env, e, EchOpts);
    LateStages(env, e, Fingerprint);
    LateStages(env, e, ClientFingerprint);
    LateStages(env, e, Smux);
    LateKeep(env, Late(env, e)[2], Fingerprint);
    hide EchStep, FingerprintStep, ClientStep, SmuxStep;
  }

  /** Nothing is dropped in silence, and no warning is given for nothing. */
  lemma WarningsTell(env: Env, p: Node)
    ensures var q, ws := Normal(env, p).0, Normal(env, p).1;
      && (RenamedType in ws <==> Kind in p && Says(env.shown(p[Kind]), "hy2"))
      && (DroppedHop in ws <==> HopInterval in p && HopInterval !in q)
      && (DroppedEch in ws <==> EchOpts in p && EchOpts !in q)
      && (FingerprintNone in ws || FingerprintMoved in ws || FingerprintDropped in ws <==> Fingerprint in p && Fingerprint !in q)
      && (ClientDropped in ws <==> (ClientFingerprint in p || FingerprintMoved in ws) && ClientFingerprint !in q)
      && (SmuxDropped in ws <==> Smux in p && Smux !in q)
  {
    hide Normal, Early, Late, EarlyTold, LateTold, Lower, Trim, Says, Only;
    NormalStages(env, p);
    WarningStages(env, p);
    EarlyTells(env, p);
    LateTells(env, Early(env, p)[5]);
    WarnedKeys(env, p);
    TwoParts(EarlyTold(env, p), LateTold(env, Early(env, p)[5]));
    if Kind in p { SaysIs(env.shown(p[Kind]), "hy2"); }
  }

  lemma TwoParts(a: seq<Warning>, b: seq<Warning>)
    requires Only(a, [RenamedType, ServerList, ServerListText, ServerBrackets, DroppedHop])
    ensures var ws := a + b;
      && (RenamedType in ws <==> RenamedType in a || RenamedType in b) && (DroppedHop in ws <==> DroppedHop in a || DroppedHop in b)
      && (DroppedEch in ws <==> DroppedEch in b) && (SmuxDropped in ws <==> SmuxDropped in b)
      && (FingerprintMoved in ws <==> FingerprintMoved in b) && (ClientDropped in ws <==> ClientDropped in b)
      && (FingerprintNone in ws <==> FingerprintNone in b) && (FingerprintDropped in ws <==> FingerprintDropped in b)
  {
    assert forall w :: w in a + b <==> w in a || w in b;
  }

  lemma WarnedKeys(env: Env, p: Node)
    ensures var e, q := Early(env, p)[5], Late(env, Early(env, p)[5])[4];
      && SameAt(p, e, EchOpts) && SameAt(p, e, Fingerprint) && SameAt(p, e, ClientFingerprint) && SameAt(p, e, Smux) && SameAt(e, q, HopInterval)
  {
    var e := Early(env, p)[5];
    EarlyStages(env, p, EchOpts);
    EarlyStages(env, p, Fingerprint);
    EarlyStages(env, p, ClientFingerprint);
    EarlyStages(env, p, Smux);
    LateStages(env, e, HopInterval);
    hide Early, Late;
  }
}
