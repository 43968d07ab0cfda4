/** Node normalization (`normalize_proxy` and its helpers, `parse_strict_port`, src/normalizer.py). */
module Normalizer {
  import opened Options
  import opened RuleText

  datatype Key = Kind | Name | Server | Port | HopInterval | EchOpts | Fingerprint | ClientFingerprint | Flow | Smux
    | Enable | Config | QueryServerName | Enabled | BrutalOpts | Other(name: string)

  /** A loaded value; of a float only whether it is whole and which integer it is matters. */
  datatype Value = Nil | Bool(b: bool) | Int(n: int) | Float(whole: bool, floor: int) | Text(s: string)
    | List(items: seq<Value>) | Dict(fields: map<Key, Value>)

  type Node = map<Key, Value>

  /** What the code gets from Python: str(), a one-element list literal read from a text (as the trimmed text of its element),
      whether a text is an IPv6 address, and the pattern of a certificate pin. */
  datatype Env = Env(shown: Value -> string, one: string -> Option<string>, ipv6: string -> bool, pin: string -> bool)

  /** str() of a string is the string; only texts in square brackets read as lists, an element's text comes trimmed and is not the
      whole text again, an address has no brackets, and the text of a list of another length reads as neither. */
  ghost predicate Sound(env: Env) {
    && (forall s :: env.shown(Text(s)) == s)
    && (forall t :: env.one(t).Some? ==> Bracketed(t) && Trim(env.one(t).value) == env.one(t).value && env.one(t).value != t)
    && (forall t :: env.ipv6(t) ==> !Bracketed(t))
    && (forall items: seq<Value> :: |items| != 1 ==>
          env.one(Trim(env.shown(List(items)))).None? && StripBrackets(env, Trim(env.shown(List(items)))) == Trim(env.shown(List(items))))
  }

  predicate Bracketed(t: string) { |t| >= 2 && t[0] == '[' && t[|t| - 1] == ']' }

  datatype Warning = RenamedType | ServerList | ServerListText | ServerBrackets | DroppedHop | DroppedEch | EchChanged
    | FingerprintNone | FingerprintMoved | FingerprintDropped | ClientDropped | SmuxDropped

  function Lower(s: string): string {
    if s == "" then "" else [if 'A' <= s[0] <= 'Z' then s[0] - 'A' + 'a' else s[0]] + Lower(s[1..])
  }

  // ----- values ----------------------------------------------------------------------------------------------------------

  predicate Digits(s: string) { s != "" && forall i | 0 <= i < |s| :: '0' <= s[i] <= '9' }

  function Decimal(s: string): nat
    requires forall i | 0 <= i < |s| :: '0' <= s[i] <= '9'
  {
    if s == "" then 0 else 10 * Decimal(s[..|s| - 1]) + (s[|s| - 1] - '0') as int
  }

  /** `parse_strict_port`: a number between 1 and 65535, or the decimal text of one. */
  function StrictPort(v: Value): Option<nat> {
    match v
    case Int(n) => if 1 <= n <= 65535 then Some(n) else None
    case Text(s) => if Digits(s) && 1 <= Decimal(s) <= 65535 then Some(Decimal(s)) else None
    case _ => None
  }

  /** `_normalize_bool_value` */
  function Truth(v: Value): Option<bool> {
    match v
    case Bool(b) => Some(b)
    case Int(n) => if n == 0 then Some(false) else if n == 1 then Some(true) else None
    case Text(s) =>
      var t := Lower(Trim(s));
      if t == "1" || t == "true" || t == "yes" || t == "on" then Some(true)
      else if t == "0" || t == "false" || t == "no" || t == "off" then Some(false)
      else None
    case _ => None
  }

  /** The two numbers of a range such as 5-25. */
  function Range(t: string): Option<(nat, nat)> {
    var at := DashAt(t);
    if at == |t| then None
    else
      var a, b := Trim(t[..at]), Trim(t[at + 1..]);
      if Digits(a) && Digits(b) then Some((Decimal(a), Decimal(b))) else None
  }

  function DashAt(t: string): (at: nat)
    ensures at <= |t|
  {
    if t == "" then 0 else if t[0] == '-' then 0 else 1 + DashAt(t[1..])
  }

  /** `_normalize_hysteria2_hop_interval` */
  function Hop(env: Env, v: Value): Option<int> {
    match v
    case Nil => None
    case Bool(_) => None
    case Int(n) => if n > 0 then Some(n) else None
    case Float(whole, n) => if whole && n > 0 then Some(n) else None
    case _ =>
      var t := Trim(env.shown(v));
      if Digits(t) then (if Decimal(t) > 0 then Some(Decimal(t)) else None)
      else
        match Range(t)
        case Some((a, b)) => if a > 0 && b > 0 && a <= b then Some(a) else None
        case None => None
  }

  /** `_strip_ipv6_brackets` */
  function StripBrackets(env: Env, t: string): string {
    if Bracketed(t) && env.ipv6(Trim(t[1..|t| - 1])) then Trim(t[1..|t| - 1]) else t
  }

  /** The text of a server before brackets go, and whether it came from a list. */
  function ServerText(env: Env, v: Value): string {
    match v
    case List(items) => if |items| == 1 then Trim(env.shown(items[0])) else Trim(env.shown(v))
    case _ => Trim(env.shown(v))
  }

  /** `_normalize_server_address`; the last warning wins. */
  function ServerOf(env: Env, v: Value): (string, seq<Warning>) {
    var t := ServerText(env, v);
    if v.List? && |v.items| != 1 then (t, [])
    else
      var list := if v.List? then [ServerList] else [];
      var (u, warned) := if env.one(t).Some? then (env.one(t).value, [ServerListText]) else (t, list);
      var w := StripBrackets(env, u);
      (w, if w != u then [ServerBrackets] else warned)
  }

  predicate Browser(t: string) {
    t == "chrome" || t == "firefox" || t == "safari" || t == "ios" || t == "android" || t == "edge" || t == "360" || t == "qq"
    || t == "random" || t == "randomized"
  }

  /** Python's truth of a value. */
  predicate Truthy(v: Value) {
    match v
    case Nil => false
    case Bool(b) => b
    case Int(n) => n != 0
    case Float(whole, n) => !(whole && n == 0)
    case Text(s) => s != ""
    case List(items) => items != []
    case Dict(fields) => fields != map[]
  }

  // ----- the steps of normalize_proxy ------------------------------------------------------------------------------------

  function TypeStep(env: Env, p: Node): (Node, seq<Warning>) {
    if Kind !in p then (p, [])
    else
      var t := Lower(Trim(env.shown(p[Kind])));
      if t == "hy2" then (p[Kind := Text("hysteria2")], [RenamedType]) else (p[Kind := Text(t)], [])
  }

  function NameStep(env: Env, p: Node): (Node, seq<Warning>) {
    if Name in p then (p[Name := Text(Trim(env.shown(p[Name])))], []) else (p, [])
  }

  function ServerStep(env: Env, p: Node): (Node, seq<Warning>) {
    if Server in p then (p[Server := Text(ServerOf(env, p[Server]).0)], ServerOf(env, p[Server]).1) else (p, [])
  }

  function PortStep(env: Env, p: Node): (Node, seq<Warning>) {
    if Port in p && StrictPort(p[Port]).Some? then (p[Port := Int(StrictPort(p[Port]).value)], []) else (p, [])
  }

  function HopStep(env: Env, p: Node): (Node, seq<Warning>) {
    if Kind in p && p[Kind] == Text("hysteria2") && HopInterval in p then
      match Hop(env, p[HopInterval])
      case Some(n) => (p[HopInterval := Int(n)], [])
      case None => (p - {HopInterval}, [DroppedHop])
    else (p, [])
  }

  /** One text field of ech-opts. */
  function EchField(env: Env, e: Node, key: Key): (Node, seq<Warning>) {
    if key !in e then (e, [])
    else
      var t := Trim(env.shown(e[key]));
      if t != "" then (e[key := Text(t)], []) else (e - {key}, [EchChanged])
  }

  function EchEnable(e: Node): (Node, seq<Warning>) {
    if Enable !in e then (e, [])
    else
      match Truth(e[Enable])
      case Some(b) => (e[Enable := Bool(b)], [])
      case None => (e - {Enable}, [EchChanged])
  }

  /** `_normalize_ech_opts` */
  function Ech(env: Env, e: Node): (Node, seq<Warning>) {
    var a := EchEnable(e);
    var b := EchField(env, a.0, Config);
    var c := EchField(env, b.0, QueryServerName);
    (c.0, a.1 + b.1 + c.1)
  }

  function EchStep(env: Env, p: Node): (Node, seq<Warning>) {
    if EchOpts !in p then (p, [])
    else if !p[EchOpts].Dict? then (p - {EchOpts}, [DroppedEch])
    else
      var e := Ech(env, p[EchOpts].fields);
      if e.0 == map[] then (p - {EchOpts}, [DroppedEch]) else (p[EchOpts := Dict(e.0)], e.1)
  }

  function FingerprintStep(env: Env, p: Node): (Node, seq<Warning>) {
    if Fingerprint !in p || p[Fingerprint].Nil? then (p, [])
    else
      var raw := Trim(env.shown(p[Fingerprint]));
      if Lower(raw) == "none" then (p - {Fingerprint}, [FingerprintNone])
      else if Browser(Lower(raw)) then
        var q := if ClientFingerprint in p && Truthy(p[ClientFingerprint]) then p else p[ClientFingerprint := Text(Lower(raw))];
        (q - {Fingerprint}, [FingerprintMoved])
      else if !env.pin(raw) then (p - {Fingerprint}, [FingerprintDropped])
      else (p, [])
  }

  function ClientStep(env: Env, p: Node): (Node, seq<Warning>) {
    if ClientFingerprint !in p || p[ClientFingerprint].Nil? then (p, [])
    else
      var raw := Trim(env.shown(p[ClientFingerprint]));
      if raw == "" || Lower(raw) == "none" then (p - {ClientFingerprint}, [ClientDropped])
      else (p[ClientFingerprint := Text(raw)], [])
  }

  predicate Occurs(s: string, t: string, i: nat) { i + |t| <= |s| && s[i..i + |t|] == t }

  predicate Contains(s: string, t: string) { exists i: nat | i <= |s| :: Occurs(s, t, i) }

  function FlowText(env: Env, p: Node): string {
    if Flow in p && Truthy(p[Flow]) then Lower(Trim(env.shown(p[Flow]))) else ""
  }

  predicate SmuxOn(v: Value) {
    match v
    case Dict(fields) => Enabled in fields && Truth(fields[Enabled]) == Some(true)
    case Bool(b) => b
    case Text(_) => Truth(v) == Some(true)
    case Int(_) => Truth(v) == Some(true)
    case _ => false
  }

  predicate BrutalOn(v: Value) {
    && v.Dict? && BrutalOpts in v.fields && v.fields[BrutalOpts].Dict?
    && Enabled in v.fields[BrutalOpts].fields && Truth(v.fields[BrutalOpts].fields[Enabled]) == Some(true)
  }

  function SmuxStep(env: Env, p: Node): (Node, seq<Warning>) {
    if Contains(FlowText(env, p), "xtls-rprx-vision") && Smux in p && SmuxOn(p[Smux]) && !BrutalOn(p[Smux])
    then (p - {Smux}, [SmuxDropped]) else (p, [])
  }

  /** `normalize_proxy`: the node and the warnings. */
  function Normal(env: Env, p: Node): (Node, seq<Warning>) {
    var a := TypeStep(env, p);
    var b := NameStep(env, a.0);
    var c := ServerStep(env, b.0);
    var d := PortStep(env, c.0);
    var e := HopStep(env, d.0);
    var f := EchStep(env, e.0);
    var g := FingerprintStep(env, f.0);
    var h := ClientStep(env, g.0);
    var k := SmuxStep(env, h.0);
    (k.0, a.1 + b.1 + c.1 + d.1 + e.1 + f.1 + g.1 + h.1 + k.1)
  }

  // ----- texts ---------------------------------------------------------------------------------------------------------------

  lemma {:induction false} TrimLeftTwice(s: string)
    ensures TrimLeft(TrimLeft(s)) == TrimLeft(s)
    ensures TrimLeft(s) == "" || !IsSpace(TrimLeft(s)[0])
  {
    if s != "" && IsSpace(s[0]) { TrimLeftTwice(s[1..]); }
  }

  lemma {:induction false} TrimRightFacts(s: string)
    ensures TrimRight(TrimRight(s)) == TrimRight(s) && |TrimRight(s)| <= |s| && TrimRight(s) == s[..|TrimRight(s)|]
    ensures TrimRight(s) == "" || !IsSpace(TrimRight(s)[|TrimRight(s)| - 1])
  {
    if s != "" && IsSpace(s[|s| - 1]) { TrimRightFacts(s[..|s| - 1]); }
  }

  lemma TrimTwice(s: string)
    ensures Trim(Trim(s)) == Trim(s)
    ensures Trim(s) == "" || (!IsSpace(Trim(s)[0]) && !IsSpace(Trim(s)[|Trim(s)| - 1]))
  {
    var l := TrimLeft(s);
    TrimLeftTwice(s);
    TrimRightFacts(l);
    var t := TrimRight(l);
    if t != "" {
      assert t[0] == l[0];
      assert TrimLeft(t) == t;
    }
  }

  lemma Trimmed(s: string)
    requires s == "" || (!IsSpace(s[0]) && !IsSpace(s[|s| - 1]))
    ensures Trim(s) == s
  {
  }

  lemma {:induction false} LowerFacts(s: string)
    ensures |Lower(s)| == |s| && Lower(Lower(s)) == Lower(s)
    ensures forall i :: 0 <= i < |s| ==> IsSpace(Lower(s)[i]) == IsSpace(s[i])
  {
    if s != "" { LowerFacts(s[1..]); }
  }

  /** A trimmed lower-case text is trimmed and lower-case. */
  lemma LowerTrim(s: string)
    ensures Lower(Trim(Lower(Trim(s)))) == Lower(Trim(s)) && Trim(Lower(Trim(s))) == Lower(Trim(s))
  {
    hide Lower, Trim, IsSpace;
    TrimTwice(s);
    LowerFacts(Trim(s));
    Trimmed(Lower(Trim(s)));
  }

  // ----- settled fields ---------------------------------------------------------------------------------------------------------

  /** A step that leaves the node as it is and warns of nothing. */
  predicate Settled(p: Node, r: (Node, seq<Warning>)) { r.0 == p && r.1 == [] }

  lemma TypeSettles(env: Env, p: Node)
    requires Sound(env)
    ensures Settled(TypeStep(env, p).0, TypeStep(env, TypeStep(env, p).0))
    ensures forall k :: k != Kind ==> SameAt(p, TypeStep(env, p).0, k)
  {
    hide Lower, Trim;
    if Kind in p {
      LowerTrim(env.shown(p[Kind]));
      Hysteria();
      var t := Lower(Trim(env.shown(p[Kind])));
      assert env.shown(Text(t)) == t && env.shown(Text("hysteria2")) == "hysteria2";
    }
  }

  lemma Hysteria()
    ensures Lower(Trim("hysteria2")) == "hysteria2" && Lower("hysteria2") == "hysteria2"
  {
    assert TrimLeft("hysteria2") == "hysteria2" && TrimRight("hysteria2") == "hysteria2";
  }

  /** The nodes have the same at key k. */
  predicate SameAt(p: Node, q: Node, k: Key) { (k in p <==> k in q) && (k in p ==> p[k] == q[k]) }

  lemma NameSettles(env: Env, p: Node)
    requires Sound(env)
    ensures Settled(NameStep(env, p).0, NameStep(env, NameStep(env, p).0))
    ensures forall k :: k != Name ==> SameAt(p, NameStep(env, p).0, k)
  {
    hide Trim;
    if Name in p {
      TrimTwice(env.shown(p[Name]));
      var t := Trim(env.shown(p[Name]));
      assert env.shown(Text(t)) == t;
    }
  }

  lemma PortSettles(env: Env, p: Node)
    ensures Settled(PortStep(env, p).0, PortStep(env, PortStep(env, p).0))
    ensures forall k :: k != Port ==> SameAt(p, PortStep(env, p).0, k)
  {
  }

  lemma HopSettles(env: Env, p: Node)
    ensures Settled(HopStep(env, p).0, HopStep(env, HopStep(env, p).0))
    ensures forall k :: k != HopInterval ==> SameAt(p, HopStep(env, p).0, k)
  {
    HopPositive(env, if HopInterval in p then p[HopInterval] else Nil);
    hide Trim, Digits, Decimal, Range;
  }

  lemma HopPositive(env: Env, v: Value)
    ensures Hop(env, v).Some? ==> Hop(env, v).value > 0
  {
    hide Trim, Digits;
  }

  /** What a field of ech-opts settles to. */
  lemma EchFieldSettles(env: Env, e: Node, key: Key)
    requires Sound(env)
    ensures Settled(EchField(env, e, key).0, EchField(env, EchField(env, e, key).0, key))
    ensures forall k :: k != key ==> SameAt(e, EchField(env, e, key).0, k)
  {
    hide Trim;
    if key in e {
      TrimTwice(env.shown(e[key]));
      var t := Trim(env.shown(e[key]));
      assert env.shown(Text(t)) == t;
    }
  }

  lemma EchEnableSettles(e: Node)
    ensures Settled(EchEnable(e).0, EchEnable(EchEnable(e).0))
    ensures forall k :: k != Enable ==> SameAt(e, EchEnable(e).0, k)
  {
  }

  lemma EnableLocal(e: Node, f: Node)
    requires SameAt(e, f, Enable)
    ensures Settled(e, EchEnable(e)) ==> Settled(f, EchEnable(f))
  {
    if Enable in f && Settled(e, EchEnable(e)) {
      hide Truth;
      assert e[Enable] == f[Enable];
      assert f[Enable := f[Enable]] == f;
      if Truth(e[Enable]).Some? {
        assert EchEnable(e).0[Enable] == Bool(Truth(e[Enable]).value);
      }
    }
  }

  lemma FieldLocal(env: Env, e: Node, f: Node, key: Key)
    requires SameAt(e, f, key)
    ensures Settled(e, EchField(env, e, key)) ==> Settled(f, EchField(env, f, key))
  {
    if key in f && Settled(e, EchField(env, e, key)) {
      hide Trim;
      assert f[key := f[key]] == f;
      if Trim(env.shown(e[key])) != "" { assert EchField(env, e, key).0[key] == Text(Trim(env.shown(e[key]))); }
    }
  }

  lemma EchOnce(env: Env, e: Node)
    requires Sound(env)
    ensures Settled(Ech(env, e).0, Ech(env, Ech(env, e).0))
  {
    hide EchEnable, EchField;
    var a := EchEnable(e);
    var b := EchField(env, a.0, Config);
    var c := EchField(env, b.0, QueryServerName);
    EchEnableSettles(e);
    EchFieldSettles(env, a.0, Config);
    EchFieldSettles(env, b.0, QueryServerName);
    EnableLocal(a.0, b.0);
    EnableLocal(b.0, c.0);
    FieldLocal(env, b.0, c.0, Config);
  }

  lemma EchSettles(env: Env, p: Node)
    requires Sound(env)
    ensures Settled(EchStep(env, p).0, EchStep(env, EchStep(env, p).0))
    ensures forall k :: k != EchOpts ==> SameAt(p, EchStep(env, p).0, k)
  {
    hide Ech;
    if EchOpts in p && p[EchOpts].Dict? { EchOnce(env, p[EchOpts].fields); }
  }

  lemma FingerprintSettles(env: Env, p: Node)
    ensures Settled(FingerprintStep(env, p).0, FingerprintStep(env, FingerprintStep(env, p).0))
    ensures forall k :: k != Fingerprint && k != ClientFingerprint ==> SameAt(p, FingerprintStep(env, p).0, k)
  {
    hide Trim, Lower, Browser;
  }

  lemma ClientSettles(env: Env, p: Node)
    requires Sound(env)
    ensures Settled(ClientStep(env, p).0, ClientStep(env, ClientStep(env, p).0))
    ensures forall k :: k != ClientFingerprint ==> SameAt(p, ClientStep(env, p).0, k)
  {
    hide Trim, Lower;
    if ClientFingerprint in p {
      var raw := Trim(env.shown(p[ClientFingerprint]));
      TrimTwice(env.shown(p[ClientFingerprint]));
      assert env.shown(Text(raw)) == raw;
    }
  }

  lemma SmuxSettles(env: Env, p: Node)
    ensures Settled(SmuxStep(env, p).0, SmuxStep(env, SmuxStep(env, p).0))
    ensures forall k :: k != Smux ==> SameAt(p, SmuxStep(env, p).0, k)
  {
    hide Trim, Lower, Contains, SmuxOn, BrutalOn;
  }

  // ----- the server ------------------------------------------------------------------------------------------------------------------

  /** The node's server is the text of another one-element list. */
  predicate Nested(env: Env, p: Node) { Server in p && p[Server].Text? && env.one(p[Server].s).Some? }

  lemma ServerTextTrimmed(env: Env, v: Value)
    ensures Trim(ServerText(env, v)) == ServerText(env, v)
  {
    hide Trim;
    match v
    case List(items) => if |items| == 1 { TrimTwice(env.shown(items[0])); } else { TrimTwice(env.shown(v)); }
    case _ => TrimTwice(env.shown(v));
  }

  /** The server that a pass leaves is trimmed and has no brackets to lose. */
  lemma ServerResult(env: Env, v: Value)
    requires Sound(env)
    ensures var w := ServerOf(env, v).0; Trim(w) == w && StripBrackets(env, w) == w
  {
    hide Trim;
    var t := ServerText(env, v);
    ServerTextTrimmed(env, v);
    if !(v.List? && |v.items| != 1) {
      var u := if env.one(t).Some? then env.one(t).value else t;
      if StripBrackets(env, u) != u {
        TrimTwice(u[1..|u| - 1]);
        assert env.ipv6(StripBrackets(env, u));
      }
    }
  }

  lemma ServerSettles(env: Env, p: Node)
    requires Sound(env)
    ensures var q := ServerStep(env, p).0; Settled(q, ServerStep(env, q)) <==> !Nested(env, q)
    ensures forall k :: k != Server ==> SameAt(p, ServerStep(env, p).0, k)
  {
    hide Trim, StripBrackets;
    if Server in p {
      hide ServerText;
      ServerResult(env, p[Server]);
      var w := ServerOf(env, p[Server]).0;
      TextServer(env, w);
      hide ServerOf, Sound;
    }
  }

  /** A second look at a trimmed text. */
  lemma TextServer(env: Env, w: string)
    requires Sound(env) && Trim(w) == w && StripBrackets(env, w) == w
    ensures env.one(w).None? ==> ServerOf(env, Text(w)).0 == w && ServerOf(env, Text(w)).1 == []
    ensures env.one(w).Some? ==> ServerOf(env, Text(w)).1 != []
  {
    hide Trim, StripBrackets;
    assert env.shown(Text(w)) == w;
  }

  // ----- the whole pass ------------------------------------------------------------------------------------------------------------------

  /** An update with what is there. */
  lemma SameUpdate(q: Node, k: Key, v: Value)
    ensures k in q && q[k] == v ==> q[k := v] == q
    ensures k !in q ==> q - {k} == q
  {
  }

  lemma Updated(p: Node, k: Key, v: Value)
    ensures p[k := v] == p ==> k in p && p[k] == v
    ensures k in p ==> p - {k} != p
  {
    assert k in p[k := v] && p[k := v][k] == v;
    assert k !in p - {k};
  }

  lemma TypeLocal(env: Env, p: Node, q: Node)
    requires SameAt(p, q, Kind) && Settled(p, TypeStep(env, p))
    ensures Settled(q, TypeStep(env, q))
  {
    hide Trim, Lower;
    if Kind in p {
      var v := Text(Lower(Trim(env.shown(p[Kind]))));
      Updated(p, Kind, v);
      SameUpdate(q, Kind, v);
    }
  }

  lemma NameLocal(env: Env, p: Node, q: Node)
    requires SameAt(p, q, Name) && Settled(p, NameStep(env, p))
    ensures Settled(q, NameStep(env, q))
  {
    hide Trim;
    if Name in p {
      var v := Text(Trim(env.shown(p[Name])));
      Updated(p, Name, v);
      SameUpdate(q, Name, v);
    }
  }

  lemma ServerLocal(env: Env, p: Node, q: Node)
    requires SameAt(p, q, Server)
    ensures Settled(p, ServerStep(env, p)) <==> Settled(q, ServerStep(env, q))
  {
    hide ServerOf;
    if Server in p {
      var v := Text(ServerOf(env, p[Server]).0);
      Updated(p, Server, v);
      SameUpdate(p, Server, v);
      Updated(q, Server, v);
      SameUpdate(q, Server, v);
    }
  }

  lemma PortLocal(env: Env, p: Node, q: Node)
    requires SameAt(p, q, Port) && Settled(p, PortStep(env, p))
    ensures Settled(q, PortStep(env, q))
  {
    hide StrictPort;
    if Port in p && StrictPort(p[Port]).Some? {
      var v := Int(StrictPort(p[Port]).value);
      Updated(p, Port, v);
      SameUpdate(q, Port, v);
    }
  }

  lemma HopLocal(env: Env, p: Node, q: Node)
    requires SameAt(p, q, Kind) && SameAt(p, q, HopInterval) && Settled(p, HopStep(env, p))
    ensures Settled(q, HopStep(env, q))
  {
    hide Hop;
    if HopInterval in p {
      var h := Hop(env, p[HopInterval]);
      var v := if h.Some? then Int(h.value) else Nil;
      Updated(p, HopInterval, v);
      SameUpdate(q, HopInterval, v);
    }
  }

  lemma EchLocal(env: Env, p: Node, q: Node)
    requires SameAt(p, q, EchOpts) && Settled(p, EchStep(env, p))
    ensures Settled(q, EchStep(env, q))
  {
    hide Ech;
    if EchOpts in p && p[EchOpts].Dict? {
      var v := Dict(Ech(env, p[EchOpts].fields).0);
      Updated(p, EchOpts, v);
      SameUpdate(q, EchOpts, v);
    }
  }

  lemma FingerprintLocal(env: Env, p: Node, q: Node)
    requires SameAt(p, q, Fingerprint) && Settled(p, FingerprintStep(env, p))
    ensures Settled(q, FingerprintStep(env, q))
  {
    hide Trim, Lower, Browser;
  }

  lemma ClientLocal(env: Env, p: Node, q: Node)
    requires SameAt(p, q, ClientFingerprint) && Settled(p, ClientStep(env, p))
    ensures Settled(q, ClientStep(env, q))
  {
    hide Trim, Lower;
    if ClientFingerprint in p {
      var v := Text(Trim(env.shown(p[ClientFingerprint])));
      Updated(p, ClientFingerprint, v);
      SameUpdate(q, ClientFingerprint, v);
    }
  }

  /** The steps before the server's, and those after it. */
  predicate FrontSettled(env: Env, p: Node) { Settled(p, TypeStep(env, p)) && Settled(p, NameStep(env, p)) }

  predicate BackSettled(env: Env, p: Node) {
    && Settled(p, PortStep(env, p)) && Settled(p, HopStep(env, p)) && Settled(p, EchStep(env, p))
    && Settled(p, FingerprintStep(env, p)) && Settled(p, ClientStep(env, p)) && Settled(p, SmuxStep(env, p))
  }

  lemma AfterName(env: Env, a: Node)
    requires Sound(env) && Settled(a, TypeStep(env, a))
    ensures var b := NameStep(env, a).0; FrontSettled(env, b) && SameAt(a, b, Server)
  {
    hide TypeStep, NameStep, Settled, Sound;
    NameSettles(env, a);
    TypeLocal(env, a, NameStep(env, a).0);
  }

  lemma AfterServer(env: Env, b: Node)
    requires Sound(env) && FrontSettled(env, b)
    ensures FrontSettled(env, ServerStep(env, b).0)
  {
    hide TypeStep, NameStep, ServerStep, Settled, Sound;
    ServerSettles(env, b);
    TypeLocal(env, b, ServerStep(env, b).0);
    NameLocal(env, b, ServerStep(env, b).0);
  }

  /** The first n of the later steps are settled as well. */
  predicate Upto(env: Env, p: Node, n: nat) {
    && FrontSettled(env, p)
    && (n > 0 ==> Settled(p, PortStep(env, p)))
    && (n > 1 ==> Settled(p, HopStep(env, p)))
    && (n > 2 ==> Settled(p, EchStep(env, p)))
    && (n > 3 ==> Settled(p, FingerprintStep(env, p)))
    && (n > 4 ==> Settled(p, ClientStep(env, p)))
    && (n > 5 ==> Settled(p, SmuxStep(env, p)))
  }

  /** What is settled stays so when nothing it reads changes. */
  lemma UptoLocal(env: Env, p: Node, q: Node, n: nat)
    requires Upto(env, p, n) && n <= 5 && SameAt(p, q, Kind) && SameAt(p, q, Name)
    requires n > 0 ==> SameAt(p, q, Port)
    requires n > 1 ==> SameAt(p, q, HopInterval)
    requires n > 2 ==> SameAt(p, q, EchOpts)
    requires n > 3 ==> SameAt(p, q, Fingerprint)
    requires n > 4 ==> SameAt(p, q, ClientFingerprint)
    ensures Upto(env, q, n)
  {
    hide TypeStep, NameStep, PortStep, HopStep, EchStep, FingerprintStep, ClientStep, SmuxStep, Settled, SameAt;
    TypeLocal(env, p, q);
    NameLocal(env, p, q);
    if n > 0 { PortLocal(env, p, q); }
    if n > 1 { HopLocal(env, p, q); }
    if n > 2 { EchLocal(env, p, q); }
    if n > 3 { FingerprintLocal(env, p, q); }
    if n > 4 { ClientLocal(env, p, q); }
  }

  function LaterStep(env: Env, p: Node, n: nat): Node
    requires n < 6
  {
    if n == 0 then PortStep(env, p).0
    else if n == 1 then HopStep(env, p).0
    else if n == 2 then EchStep(env, p).0
    else if n == 3 then FingerprintStep(env, p).0
    else if n == 4 then ClientStep(env, p).0
    else SmuxStep(env, p).0
  }

  lemma AfterLater(env: Env, p: Node, n: nat)
    requires Sound(env) && n < 6 && Upto(env, p, n)
    ensures var q := LaterStep(env, p, n); Upto(env, q, n + 1) && SameAt(p, q, Server)
  {
    hide TypeStep, NameStep, PortStep, HopStep, EchStep, FingerprintStep, ClientStep, SmuxStep, Settled, Sound, SameAt;
    var q := LaterStep(env, p, n);
    if n == 0 { PortSettles(env, p); }
    else if n == 1 { HopSettles(env, p); }
    else if n == 2 { EchSettles(env, p); }
    else if n == 3 { FingerprintSettles(env, p); }
    else if n == 4 { ClientSettles(env, p); }
    else { SmuxSettles(env, p); }
    assert SameAt(p, q, Kind) && SameAt(p, q, Name) && SameAt(p, q, Server);
    UptoLocal(env, p, q, n);
  }

  /** The steps after the server's. */
  function Later(env: Env, p: Node, n: nat): Node
    requires n <= 6
  {
    if n == 0 then p else LaterStep(env, Later(env, p, n - 1), n - 1)
  }

  lemma {:induction false} LaterSettles(env: Env, p: Node, n: nat)
    requires Sound(env) && n <= 6 && FrontSettled(env, p)
    ensures Upto(env, Later(env, p, n), n) && SameAt(p, Later(env, p, n), Server)
  {
    hide LaterStep, FrontSettled, Sound;
    if n > 0 {
      LaterSettles(env, p, n - 1);
      AfterLater(env, Later(env, p, n - 1), n - 1);
      hide Upto;
    }
  }

  lemma NormalIsLater(env: Env, p: Node)
    ensures Normal(env, p).0 == Later(env, ServerStep(env, NameStep(env, TypeStep(env, p).0).0).0, 6)
  {
    hide TypeStep, NameStep, ServerStep, PortStep, HopStep, EchStep, FingerprintStep, ClientStep, SmuxStep;
    var c := ServerStep(env, NameStep(env, TypeStep(env, p).0).0).0;
    assert Later(env, c, 1) == PortStep(env, c).0;
    assert Later(env, c, 2) == HopStep(env, Later(env, c, 1)).0;
    assert Later(env, c, 3) == EchStep(env, Later(env, c, 2)).0;
    assert Later(env, c, 4) == FingerprintStep(env, Later(env, c, 3)).0;
    assert Later(env, c, 5) == ClientStep(env, Later(env, c, 4)).0;
    assert Later(env, c, 6) == SmuxStep(env, Later(env, c, 5)).0;
  }

  /** After a pass every field is settled, the server apart. */
  lemma NormalSettles(env: Env, p: Node)
    requires Sound(env)
    ensures FrontSettled(env, Normal(env, p).0) && BackSettled(env, Normal(env, p).0)
    ensures SameAt(ServerStep(env, p).0, Normal(env, p).0, Server)
  {
    hide Normal, Later, TypeStep, NameStep, ServerStep, PortStep, HopStep, EchStep, FingerprintStep, ClientStep, SmuxStep, Settled, Sound;
    var a := TypeStep(env, p).0;
    var b := NameStep(env, a).0;
    var c := ServerStep(env, b).0;
    TypeSettles(env, p);
    AfterName(env, a);
    AfterServer(env, b);
    LaterSettles(env, c, 6);
    NormalIsLater(env, p);
    assert SameAt(p, a, Server) && SameAt(a, b, Server);
    ServerSame(env, p, b);
  }

  lemma ServerSame(env: Env, p: Node, q: Node)
    requires SameAt(p, q, Server)
    ensures SameAt(ServerStep(env, p).0, ServerStep(env, q).0, Server)
  {
    hide ServerOf;
  }

  /** A pass over a node whose fields are settled touches the server only. */
  lemma SettledPass(env: Env, q: Node)
    requires FrontSettled(env, q) && BackSettled(env, q)
    requires forall k :: k != Server ==> SameAt(q, ServerStep(env, q).0, k)
    ensures Normal(env, q).0 == ServerStep(env, q).0 && Normal(env, q).1 == ServerStep(env, q).1
  {
    hide TypeStep, NameStep, ServerStep, PortStep, HopStep, EchStep, FingerprintStep, ClientStep;
    var c := ServerStep(env, q).0;
    PortLocal(env, q, c);
    HopLocal(env, q, c);
    EchLocal(env, q, c);
    FingerprintLocal(env, q, c);
    ClientLocal(env, q, c);
    SmuxLocal(env, q, c);
    hide SmuxStep;
  }

  lemma SmuxLocal(env: Env, p: Node, q: Node)
    requires SameAt(p, q, Smux) && SameAt(p, q, Flow) && Settled(p, SmuxStep(env, p))
    ensures Settled(q, SmuxStep(env, q))
  {
    hide Contains, SmuxOn, BrutalOn, Truthy;
  }

  /** The node's server reads as a one-element list, and so does the text of its element. */
  predicate DoublyNested(env: Env, p: Node) {
    && Server in p && (p[Server].List? ==> |p[Server].items| == 1)
    && var t := env.one(ServerText(env, p[Server]));
       t.Some? && env.one(StripBrackets(env, t.value)).Some?
  }

  lemma DoublyNestedServer(env: Env, v: Value)
    requires Sound(env)
    ensures env.one(ServerOf(env, v).0).Some?
       <==> (v.List? ==> |v.items| == 1) && var t := env.one(ServerText(env, v)); t.Some? && env.one(StripBrackets(env, t.value)).Some?
  {
    hide Trim;
    var t := ServerText(env, v);
    if !(v.List? && |v.items| != 1) && env.one(t).None? { StripFacts(env, t); }
  }

  /** A pass leaves a nested server exactly when the server was doubly nested. */
  lemma NestedAfter(env: Env, p: Node)
    requires Sound(env)
    ensures Nested(env, Normal(env, p).0) <==> DoublyNested(env, p)
  {
    hide Normal, ServerOf, FrontSettled, BackSettled, Sound, StripBrackets, ServerText;
    NormalSettles(env, p);
    if Server in p { DoublyNestedServer(env, p[Server]); }
  }

  /** One pass reaches a fixed point, without further warnings, exactly when the server is not doubly nested. */
  lemma NormalOnce(env: Env, p: Node)
    requires Sound(env)
    ensures var q := Normal(env, p).0; Settled(q, Normal(env, q)) <==> !DoublyNested(env, p)
  {
    hide DoublyNested;
    PassOnce(env, p);
    NestedAfter(env, p);
  }

  /** Each pass over nested list texts takes one level off. */
  lemma Peeled(env: Env, p: Node, a: string, b: string)
    requires Sound(env) && Server in p && p[Server] == Text(a) && env.one(a) == Some(b) && StripBrackets(env, b) == b
    ensures var q := Normal(env, p).0; Server in q && q[Server] == Text(b)
  {
    hide Normal, Trim, StripBrackets, FrontSettled, BackSettled;
    assert env.shown(Text(a)) == a;
    TrimmedText(env, a);
    assert ServerOf(env, p[Server]).0 == b;
    NormalSettles(env, p);
  }

  /** The text of a list that holds the text of a list with one address. */
  function TwiceQuoted(): Node { map[Server := Text("[\"['h']\"]")] }

  /** The property fails for such a server: the second pass changes it again. */
  lemma TwiceQuotedChanges(env: Env)
    requires Sound(env) && env.one("[\"['h']\"]") == Some("['h']") && env.one("['h']") == Some("h") && !env.ipv6("'h'")
    ensures var q := Normal(env, TwiceQuoted()).0; var r := Normal(env, q).0;
      && Server in q && q[Server] == Text("['h']")
      && Server in r && r[Server] == Text("h")
  {
    hide Normal, Sound, Trim;
    assert StripBrackets(env, "h") == "h";
    assert StripBrackets(env, "['h']") == "['h']" by { QuotedInner(); }
    hide StripBrackets;
    Peeled(env, TwiceQuoted(), "[\"['h']\"]", "['h']");
    Peeled(env, Normal(env, TwiceQuoted()).0, "['h']", "h");
  }

  lemma QuotedInner()
    ensures Trim("['h']"[1..4]) == "'h'"
  {
    assert "['h']"[1..4] == "'h'";
    Trimmed("'h'");
  }

  lemma PassOnce(env: Env, p: Node)
    requires Sound(env)
    ensures var q := Normal(env, p).0; Settled(q, Normal(env, q)) <==> !Nested(env, q)
  {
    hide Normal, ServerStep, FrontSettled, BackSettled, Nested, Sound;
    var q := Normal(env, p).0;
    NormalSettles(env, p);
    ServerSettles(env, q);
    SettledPass(env, q);
    NestedIff(env, p, q);
  }

  /** A server that a pass has left is settled exactly when it is not nested. */
  lemma NestedIff(env: Env, p: Node, q: Node)
    requires Sound(env) && SameAt(ServerStep(env, p).0, q, Server)
    ensures Settled(q, ServerStep(env, q)) <==> !Nested(env, q)
  {
    hide Sound, ServerOf;
    ServerSettles(env, p);
    ServerLocal(env, ServerStep(env, p).0, q);
  }

  // ----- repeated passes ----------------------------------------------------------------------------------------------------------------

  function Passes(env: Env, p: Node, n: nat): Node {
    if n == 0 then p else Normal(env, Passes(env, p, n - 1)).0
  }

  /** Reading a list text makes it less deeply nested. */
  ghost predicate Descends(env: Env, depth: string -> nat) {
    forall t :: env.one(t).Some? ==> depth(env.one(t).value) < depth(t)
  }

  ghost function Depth(p: Node, depth: string -> nat): nat {
    if Server in p && p[Server].Text? then depth(p[Server].s) else 0
  }

  /** A pass over the text of a one-element list leaves a server that is settled or less deeply nested. */
  lemma NestedPass(env: Env, q: Node, depth: string -> nat)
    requires Sound(env) && Descends(env, depth) && Nested(env, q)
    ensures var r := Normal(env, q).0; Nested(env, r) ==> Depth(r, depth) < Depth(q, depth)
  {
    hide Normal, Trim, StripBrackets;
    NormalSettles(env, q);
    var r := Normal(env, q).0;
    var t := q[Server].s;
    var u := env.one(t).value;
    assert env.shown(Text(t)) == t;
    TrimmedText(env, t);
    StripFacts(env, u);
    hide Sound;
  }

  lemma StripFacts(env: Env, u: string)
    requires Sound(env)
    ensures StripBrackets(env, u) == u || env.one(StripBrackets(env, u)).None?
  {
    hide Trim;
  }

  lemma TrimmedText(env: Env, t: string)
    requires Sound(env) && env.one(t).Some?
    ensures Trim(t) == t
  {
    assert Bracketed(t);
    Trimmed(t);
  }

  /** Repeated passes reach a fixed point; each pass after the first takes off one level of nesting. */
  lemma {:induction false} PassesSettle(env: Env, p: Node, depth: string -> nat, n: nat) returns (m: nat)
    requires Sound(env) && Descends(env, depth) && n > 0
    ensures n <= m <= n + Depth(Passes(env, p, n), depth)
    ensures Settled(Passes(env, p, m), Normal(env, Passes(env, p, m)))
    decreases Depth(Passes(env, p, n), depth)
  {
    hide Normal, Sound, Descends, Nested, Depth;
    var q := Passes(env, p, n);
    PassOnce(env, Passes(env, p, n - 1));
    if Nested(env, q) {
      NestedPass(env, q, depth);
      if Nested(env, Passes(env, p, n + 1)) {
        m := PassesSettle(env, p, depth, n + 1);
      } else {
        m := n + 1;
        PassOnce(env, q);
      }
      DepthPositive(env, q, depth);
    } else {
      m := n;
    }
  }

  lemma DepthPositive(env: Env, q: Node, depth: string -> nat)
    requires Descends(env, depth) && Nested(env, q)
    ensures Depth(q, depth) > 0
  {
  }

  /** `normalize_proxies_for_mihomo` */
  function NormalAll(env: Env, ps: seq<Node>): (r: seq<Node>)
    ensures |r| == |ps|
  {
    seq(|ps|, i requires 0 <= i < |ps| => Normal(env, ps[i]).0)
  }

  /** Import, save, build, serve and a second migration agree: normalizing a list again changes nothing exactly when none of its
      servers is doubly nested. */
  lemma NormalAllTwice(env: Env, ps: seq<Node>)
    requires Sound(env)
    ensures NormalAll(env, NormalAll(env, ps)) == NormalAll(env, ps)
       <==> forall i :: 0 <= i < |ps| ==> !DoublyNested(env, ps[i])
  {
    hide Normal, DoublyNested;
    var qs := NormalAll(env, ps);
    var rs := NormalAll(env, qs);
    if forall i :: 0 <= i < |ps| ==> !DoublyNested(env, ps[i]) {
      forall i | 0 <= i < |ps| ensures rs[i] == qs[i] { AgainIff(env, ps[i]); }
    }
    if rs == qs {
      forall i | 0 <= i < |ps| ensures !DoublyNested(env, ps[i]) {
        assert rs[i] == qs[i];
        AgainIff(env, ps[i]);
      }
    }
  }

  /** A nested server always reads as something else. */
  lemma AgainIff(env: Env, p: Node)
    requires Sound(env)
    ensures var q := Normal(env, p).0; Normal(env, q).0 == q <==> !DoublyNested(env, p)
  {
    hide Normal, Trim, StripBrackets, DoublyNested;
    var q := Normal(env, p).0;
    NestedAfter(env, p);
    NormalSettles(env, p);
    ServerSettles(env, q);
    PassOnce(env, p);
    hide FrontSettled, BackSettled;
    SettledPass(env, q);
    if Nested(env, q) {
      var t := q[Server].s;
      assert env.shown(Text(t)) == t;
      TrimmedText(env, t);
      StripFacts(env, env.one(t).value);
      StripOther(env, t);
      assert ServerOf(env, q[Server]).0 == StripBrackets(env, env.one(t).value);
      Updated(q, Server, Text(StripBrackets(env, env.one(t).value)));
    }
  }

  lemma StripOther(env: Env, t: string)
    requires Sound(env) && env.one(t).Some?
    ensures StripBrackets(env, env.one(t).value) != t
  {
    hide Trim;
  }

  // ----- the code -----------------------------------------------------------------------------------------------------------------------

  /** `normalize_proxy`: the fields are cleaned one after the other in one dictionary. */
  method NormalizeProxy(env: Env, proxy: Node) returns (normalized: Node, warnings: seq<Warning>)
    ensures normalized == Normal(env, proxy).0 && warnings == Normal(env, proxy).1
  {
    hide TypeStep, NameStep, ServerStep, PortStep, HopStep, EchStep, FingerprintStep, ClientStep, SmuxStep;
    var a, first := CleanAddress(env, proxy);
    var b, second := CleanOptions(env, a);
    var c, third := CleanTransport(env, b);
    normalized := c;
    warnings := first + second + third;
    ghost var t := TypeStep(env, proxy);
    ghost var n := NameStep(env, t.0);
    ghost var s := ServerStep(env, n.0);
    NameQuiet(env, t.0);
    NameQuiet(env, s.0);
    assert first == t.1 + n.1 + s.1 + PortStep(env, s.0).1;
  }

  lemma NameQuiet(env: Env, p: Node)
    ensures NameStep(env, p).1 == [] && PortStep(env, p).1 == []
  {
  }

  /** Type, name, server and port. */
  method CleanAddress(env: Env, proxy: Node) returns (normalized: Node, warnings: seq<Warning>)
    ensures var t := TypeStep(env, proxy);
      var s := ServerStep(env, NameStep(env, t.0).0);
      normalized == PortStep(env, s.0).0 && warnings == t.1 + s.1
  {
    hide Lower, Trim, StrictPort, ServerOf;
    normalized, warnings := proxy, [];
    if Kind in normalized {
      normalized := normalized[Kind := Text(Lower(Trim(env.shown(normalized[Kind]))))];
      if normalized[Kind] == Text("hy2") {
        normalized := normalized[Kind := Text("hysteria2")];
        warnings := warnings + [RenamedType];
      }
    }
    ghost var t := TypeStep(env, proxy);
    assert normalized == t.0 && warnings == t.1;
    if Name in normalized { normalized := normalized[Name := Text(Trim(env.shown(normalized[Name])))]; }
    if Server in normalized {
      var server := ServerOf(env, normalized[Server]);
      normalized := normalized[Server := Text(server.0)];
      warnings := warnings + server.1;
    }
    if Port in normalized {
      var port := StrictPort(normalized[Port]);
      if port.Some? { normalized := normalized[Port := Int(port.value)]; }
    }
  }

  /** hop-interval and ech-opts. */
  method CleanOptions(env: Env, proxy: Node) returns (normalized: Node, warnings: seq<Warning>)
    ensures var h := HopStep(env, proxy);
      normalized == EchStep(env, h.0).0 && warnings == h.1 + EchStep(env, h.0).1
  {
    hide Hop;
    normalized, warnings := proxy, [];
    if Kind in normalized && normalized[Kind] == Text("hysteria2") && HopInterval in normalized {
      var hop := Hop(env, normalized[HopInterval]);
      if hop.None? {
        normalized := normalized - {HopInterval};
        warnings := warnings + [DroppedHop];
      } else {
        normalized := normalized[HopInterval := Int(hop.value)];
      }
    }
    ghost var h := HopStep(env, proxy);
    assert normalized == h.0 && warnings == h.1;
    if EchOpts in normalized {
      if !normalized[EchOpts].Dict? {
        normalized := normalized - {EchOpts};
        warnings := warnings + [DroppedEch];
      } else {
        var options, changes := CleanEch(env, normalized[EchOpts].fields);
        hide Ech;
        if options == map[] {
          normalized := normalized - {EchOpts};
          warnings := warnings + [DroppedEch];
        } else {
          normalized := normalized[EchOpts := Dict(options)];
          warnings := warnings + changes;
        }
      }
    }
  }

  /** `_normalize_ech_opts` on a dictionary. */
  method CleanEch(env: Env, options: Node) returns (normalized: Node, changes: seq<Warning>)
    ensures normalized == Ech(env, options).0 && changes == Ech(env, options).1
  {
    hide Truth, Trim;
    normalized, changes := options, [];
    if Enable in normalized {
      var enabled := Truth(normalized[Enable]);
      if enabled.None? {
        normalized := normalized - {Enable};
        changes := changes + [EchChanged];
      } else {
        normalized := normalized[Enable := Bool(enabled.value)];
      }
    }
    ghost var a := EchEnable(options);
    assert normalized == a.0 && changes == a.1;
    var keys := [Config, QueryServerName];
    var i := 0;
    while i < 2
      invariant i <= 2
      invariant normalized == (if i == 0 then a.0 else if i == 1 then EchField(env, a.0, Config).0
                               else EchField(env, EchField(env, a.0, Config).0, QueryServerName).0)
      invariant changes == (if i == 0 then a.1 else if i == 1 then a.1 + EchField(env, a.0, Config).1
                            else a.1 + EchField(env, a.0, Config).1 + EchField(env, EchField(env, a.0, Config).0, QueryServerName).1)
    {
      var key := keys[i];
      if key in normalized {
        var text := Trim(env.shown(normalized[key]));
        if text != "" {
          normalized := normalized[key := Text(text)];
        } else {
          normalized := normalized - {key};
          changes := changes + [EchChanged];
        }
      }
      i := i + 1;
    }
  }

  /** fingerprint, client-fingerprint and smux. */
  method CleanTransport(env: Env, proxy: Node) returns (normalized: Node, warnings: seq<Warning>)
    ensures var f := FingerprintStep(env, proxy);
      var c := ClientStep(env, f.0);
      normalized == SmuxStep(env, c.0).0 && warnings == f.1 + c.1 + SmuxStep(env, c.0).1
  {
    hide Lower, Trim, Browser, Contains, SmuxOn, BrutalOn, FlowText;
    normalized, warnings := proxy, [];
    if Fingerprint in normalized && !normalized[Fingerprint].Nil? {
      var raw := Trim(env.shown(normalized[Fingerprint]));
      if Lower(raw) == "none" {
        normalized := normalized - {Fingerprint};
        warnings := warnings + [FingerprintNone];
      } else if Browser(Lower(raw)) {
        if !(ClientFingerprint in normalized && Truthy(normalized[ClientFingerprint])) {
          normalized := normalized[ClientFingerprint := Text(Lower(raw))];
        }
        normalized := normalized - {Fingerprint};
        warnings := warnings + [FingerprintMoved];
      } else if !env.pin(raw) {
        normalized := normalized - {Fingerprint};
        warnings := warnings + [FingerprintDropped];
      }
    }
    ghost var f := FingerprintStep(env, proxy);
    assert normalized == f.0 && warnings == f.1;
    hide FingerprintStep;
    if ClientFingerprint in normalized && !normalized[ClientFingerprint].Nil? {
      var raw := Trim(env.shown(normalized[ClientFingerprint]));
      if raw == "" || Lower(raw) == "none" {
        normalized := normalized - {ClientFingerprint};
        warnings := warnings + [ClientDropped];
      } else if Text(raw) != normalized[ClientFingerprint] {
        normalized := normalized[ClientFingerprint := Text(raw)];
      }
    }
    ghost var c := ClientStep(env, f.0);
    assert normalized == c.0 && warnings == f.1 + c.1;
    if Contains(FlowText(env, normalized), "xtls-rprx-vision") && Smux in normalized {
      if SmuxOn(normalized[Smux]) && !BrutalOn(normalized[Smux]) {
        normalized := normalized - {Smux};
        warnings := warnings + [SmuxDropped];
      }
    }
  }
}
