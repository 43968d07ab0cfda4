/** A rule as text: the page's parser and printer, the catalog's splitter and the validator's target
    (`parseRule`, design/assets/app.js; `_catalog_entry`, `validate_config`, `_is_match_rule`, src/config_builder.py). */
module RuleText {
  import opened Options

  // ----- splitting at commas -------------------------------------------------------------------------------------------

  predicate NoComma(s: string) { ',' !in s }

  function Split(s: string): (parts: seq<string>)
    ensures parts != []
  {
    if s == "" then [""]
    else if s[0] == ',' then [""] + Split(s[1..])
    else
      var rest := Split(s[1..]);
      [[s[0]] + rest[0]] + rest[1..]
  }

  function Join(parts: seq<string>): string {
    if parts == [] then "" else if |parts| == 1 then parts[0] else parts[0] + "," + Join(parts[1..])
  }

  lemma {:induction false} SplitPlain(s: string)
    requires NoComma(s)
    ensures Split(s) == [s]
  {
    if s != "" {
      assert s[0] in s && NoComma(s[1..]);
      SplitPlain(s[1..]);
      assert [s[0]] + s[1..] == s;
    }
  }

  /** What a first character does to the parts of the rest. */
  lemma SplitFirst(c: char, s: string)
    ensures Split([c] + s) == if c == ',' then [""] + Split(s) else [[c] + Split(s)[0]] + Split(s)[1..]
  {
    assert ([c] + s)[1..] == s;
  }

  lemma {:induction false} SplitComma(a: string, b: string)
    ensures Split(a + "," + b) == Split(a) + Split(b)
  {
    hide Split;
    if a == "" {
      assert a + "," + b == [','] + b;
      SplitFirst(',', b);
      SplitNone();
    } else {
      SplitComma(a[1..], b);
      assert a + "," + b == [a[0]] + (a[1..] + "," + b) && a == [a[0]] + a[1..];
      SplitFirst(a[0], a[1..] + "," + b);
      SplitFirst(a[0], a[1..]);
    }
  }

  lemma SplitNone()
    ensures Split("") == [""]
  {
  }

  lemma {:induction false} JoinSplit(s: string)
    ensures Join(Split(s)) == s
  {
    if s != "" {
      JoinSplit(s[1..]);
      var rest := Split(s[1..]);
      if s[0] == ',' {
        assert ([""] + rest)[1..] == rest;
        assert Join([""] + rest) == "" + "," + Join(rest);
      } else {
        assert ([[s[0]] + rest[0]] + rest[1..])[1..] == rest[1..];
      }
      assert [s[0]] + s[1..] == s;
    }
  }

  // ----- trimming and case -----------------------------------------------------------------------------------------------

  predicate IsSpace(c: char) { c == ' ' || 9 <= c as int <= 13 }

  function TrimLeft(s: string): string { if s != "" && IsSpace(s[0]) then TrimLeft(s[1..]) else s }

  function TrimRight(s: string): string { if s != "" && IsSpace(s[|s| - 1]) then TrimRight(s[..|s| - 1]) else s }

  function Trim(s: string): string { TrimRight(TrimLeft(s)) }

  ghost predicate Spaces(s: string, a: nat, b: nat) { b <= |s| && forall i: nat :: a <= i < b ==> IsSpace(s[i]) }

  lemma {:induction false} TrimLeftIs(s: string) returns (a: nat)
    ensures a <= |s| && TrimLeft(s) == s[a..] && Spaces(s, 0, a) && (a < |s| ==> !IsSpace(s[a]))
  {
    if s != "" && IsSpace(s[0]) {
      var rest := TrimLeftIs(s[1..]);
      a := rest + 1;
      assert s[1..][rest..] == s[a..];
      forall i: nat | i < a ensures IsSpace(s[i]) {
        if i > 0 { assert s[1..][i - 1] == s[i]; }
      }
    } else {
      a := 0;
    }
  }

  lemma {:induction false} TrimRightIs(s: string) returns (b: nat)
    ensures b <= |s| && TrimRight(s) == s[..b] && Spaces(s, b, |s|) && (b > 0 ==> !IsSpace(s[b - 1]))
  {
    if s != "" && IsSpace(s[|s| - 1]) {
      b := TrimRightIs(s[..|s| - 1]);
      assert s[..|s| - 1][..b] == s[..b];
    } else {
      b := |s|;
    }
  }

  /** Trimming takes the blanks off both ends and nothing else. */
  lemma TrimIs(s: string) returns (a: nat, b: nat)
    ensures a <= b <= |s| && Trim(s) == s[a..b] && Spaces(s, 0, a) && Spaces(s, b, |s|)
    ensures a < b ==> !IsSpace(s[a]) && !IsSpace(s[b - 1])
  {
    a := TrimLeftIs(s);
    var e := TrimRightIs(s[a..]);
    b := a + e;
    assert s[a..][..e] == s[a..b];
  }

  /** Blanks around a text without blanks at its ends go. */
  lemma TrimOf(l: string, x: string, r: string)
    requires Spaces(l, 0, |l|) && Spaces(r, 0, |r|) && x != "" && !IsSpace(x[0]) && !IsSpace(x[|x| - 1])
    ensures Trim(l + x + r) == x
  {
    var s := l + x + r;
    var a, b := TrimIs(s);
    assert s[|l|] == x[0] && s[|l| + |x| - 1] == x[|x| - 1];
    forall i: nat | i < |l| ensures IsSpace(s[i]) { }
    forall i: nat | |l| + |x| <= i < |s| ensures IsSpace(s[i]) { assert s[i] == r[i - |l| - |x|]; }
    assert a == |l| && b == |l| + |x|;
  }

  lemma BlankTrimmed(s: string)
    ensures Trim(s) == "" <==> forall c :: c in s ==> IsSpace(c)
  {
    BlankLeft(s);
    BlankRight(TrimLeft(s));
  }

  lemma {:induction false} BlankLeft(s: string)
    ensures (forall c :: c in s ==> IsSpace(c)) <==> (forall c :: c in TrimLeft(s) ==> IsSpace(c))
  {
    if s != "" && IsSpace(s[0]) {
      BlankLeft(s[1..]);
      assert s == [s[0]] + s[1..];
    }
  }

  lemma {:induction false} BlankRight(s: string)
    ensures TrimRight(s) == "" <==> forall c :: c in s ==> IsSpace(c)
  {
    if s != "" {
      assert s == s[..|s| - 1] + [s[|s| - 1]];
      if IsSpace(s[|s| - 1]) { BlankRight(s[..|s| - 1]); }
    }
  }

  function Upper(s: string): string {
    if s == "" then "" else [if 'a' <= s[0] <= 'z' then s[0] - 'a' + 'A' else s[0]] + Upper(s[1..])
  }

  const NO_RESOLVE := "no-resolve"

  /** `isMatchRule`, `_is_match_rule` */
  predicate IsMatch(rule: string) { Upper(Trim(Split(rule)[0])) == "MATCH" }

  // ----- printing and parsing ------------------------------------------------------------------------------------------------

  datatype Rule = Rule(kind: string, value: string, target: string, noResolve: bool)

  /** How the page writes an edited rule. */
  function Print(r: Rule): string {
    r.kind + "," + r.value + "," + r.target + (if r.noResolve then "," + NO_RESOLVE else "")
  }

  /** `parseRule` */
  function Parse(raw: string): Rule {
    var all := Split(raw);
    var noResolve := |all| > 2 && Trim(all[|all| - 1]) == NO_RESOLVE;
    var parts := if noResolve then all[..|all| - 1] else all;
    if IsMatch(raw) then Rule("MATCH", "", Join(parts[1..]), false)
    else if |parts| > 1 then Rule(parts[0], Join(parts[1..|parts| - 1]), parts[|parts| - 1], noResolve)
    else Rule(parts[0], "", "", noResolve)
  }

  /** `_catalog_entry`; the source only splits its own rules, which have at least three parts. */
  function Catalog(raw: string): Rule
    requires |Split(raw)| > 2
  {
    var all := Split(raw);
    var noResolve := all[|all| - 1] == NO_RESOLVE;
    var parts := if noResolve then all[..|all| - 1] else all;
    Rule(parts[0], Join(parts[1..|parts| - 1]), parts[|parts| - 1], noResolve)
  }


  /** The target `validate_config` looks up, if the rule has one. */
  function Target(raw: string): Option<string> {
    var parts := Split(raw);
    if |parts| < 2 then None
    else if parts[|parts| - 1] == NO_RESOLVE && |parts| >= 3 then Some(parts[|parts| - 2])
    else Some(parts[|parts| - 1])
  }

  // ----- round trips -----------------------------------------------------------------------------------------------------------

  lemma NoResolveText()
    ensures Split(NO_RESOLVE) == [NO_RESOLVE] && Trim(NO_RESOLVE) == NO_RESOLVE
  {
    SplitPlain(NO_RESOLVE);
    assert TrimLeft(NO_RESOLVE) == NO_RESOLVE;
    assert TrimRight(NO_RESOLVE) == NO_RESOLVE;
  }

  /** The parts of a printed rule. */
  lemma PrintedParts(r: Rule)
    requires NoComma(r.kind) && NoComma(r.target)
    ensures Split(Print(r)) == [r.kind] + Split(r.value) + [r.target] + (if r.noResolve then [NO_RESOLVE] else [])
  {
    hide Split;
    SplitPlain(r.kind);
    SplitPlain(r.target);
    SplitComma(r.kind, r.value);
    SplitComma(r.kind + "," + r.value, r.target);
    if r.noResolve {
      NoResolveText();
      SplitComma(r.kind + "," + r.value + "," + r.target, NO_RESOLVE);
      assert Print(r) == r.kind + "," + r.value + "," + r.target + "," + NO_RESOLVE;
    } else {
      assert Print(r) == r.kind + "," + r.value + "," + r.target;
    }
  }

  lemma PrintedKind(r: Rule)
    requires NoComma(r.kind)
    ensures Split(Print(r))[0] == r.kind
  {
    hide Split;
    var tail := r.value + "," + r.target + (if r.noResolve then "," + NO_RESOLVE else "");
    assert Print(r) == r.kind + "," + tail;
    SplitComma(r.kind, tail);
    SplitPlain(r.kind);
  }

  /** Parsing a printed rule gives its parts back, for any value, exactly when the modifier is printed or the target does not
      read as the modifier once trimmed. */
  lemma ParsePrinted(r: Rule)
    requires NoComma(r.kind) && NoComma(r.target) && Upper(Trim(r.kind)) != "MATCH"
    ensures Parse(Print(r)) == r <==> r.noResolve || Trim(r.target) != NO_RESOLVE
  {
    hide Split, Join, Trim, Upper, Print;
    PrintedParts(r);
    NoResolveText();
    JoinSplit(r.value);
    var all := Split(Print(r));
    var body := [r.kind] + Split(r.value) + [r.target];
    if r.noResolve {
      assert all[..|all| - 1] == body;
      assert body[1..|body| - 1] == Split(r.value);
    } else {
      assert all == body;
      assert body[1..|body| - 1] == Split(r.value);
    }
  }

  lemma ParseFields(raw: string, parts: seq<string>)
    requires |parts| > 0 && parts[0] == Split(raw)[0] && IsMatch(raw)
    requires (Split(raw) == parts + [NO_RESOLVE] && |parts| > 1) || (Split(raw) == parts && (|parts| <= 2 || Trim(parts[|parts| - 1]) != NO_RESOLVE))
    ensures Parse(raw) == Rule("MATCH", "", Join(parts[1..]), false)
  {
    hide Split, Join, Upper;
    NoResolveText();
    hide Trim, IsMatch;
    if Split(raw) != parts { assert Split(raw)[..|Split(raw)| - 1] == parts; }
  }

  /** A MATCH rule has no value: all behind its first comma is its target, but for a modifier at the end. */
  lemma ParseMatch(head: string, rest: string)
    requires NoComma(head) && IsMatch(head)
    ensures Parse(head + "," + rest + "," + NO_RESOLVE) == Rule("MATCH", "", rest, false)
    ensures NoComma(rest) || Trim(Split(rest)[|Split(rest)| - 1]) != NO_RESOLVE ==> Parse(head + "," + rest) == Rule("MATCH", "", rest, false)
  {
    hide Join, Trim, Upper, Parse;
    SplitPlain(head);
    SplitComma(head, rest);
    SplitComma(head + "," + rest, NO_RESOLVE);
    NoResolveText();
    JoinSplit(rest);
    if NoComma(rest) { SplitPlain(rest); }
    hide Split;
    var all := [head] + Split(rest);
    assert all[1..] == Split(rest);
    ParseFields(head + "," + rest + "," + NO_RESOLVE, all);
    if NoComma(rest) || Trim(Split(rest)[|Split(rest)| - 1]) != NO_RESOLVE { ParseFields(head + "," + rest, all); }
  }

  /** A rule of two fields has a target and no value, whatever the target reads like; a rule of one field has neither. The validator looks
      for the same target. */
  lemma ParseShort(head: string, rest: string)
    requires NoComma(head) && NoComma(rest) && !IsMatch(head)
    ensures Parse(head + "," + rest) == Rule(head, "", rest, false) && Parse(head) == Rule(head, "", "", false)
    ensures Target(head) == None && Target(head + "," + rest) == Some(rest)
  {
    hide Join, Trim, Upper;
    SplitPlain(head);
    SplitPlain(rest);
    SplitComma(head, rest);
    EmptyJoin();
    hide Split;
    var all := [head] + [rest];
    assert Split(head + "," + rest) == all && all[1..|all| - 1] == [] && all[0] == head && all[|all| - 1] == rest;
  }

  lemma EmptyJoin()
    ensures Join([]) == ""
  {
  }

  /** A target that only reads as the modifier once trimmed is lost by the page, though the server keeps it. */
  lemma TrimmedModifier()
    ensures var r := Rule("DOMAIN", "a", " no-resolve", false);
      NoComma(r.kind) && NoComma(r.target) && r.target != NO_RESOLVE && Parse(Print(r)) != r
  {
    var r := Rule("DOMAIN", "a", " no-resolve", false);
    assert Trim(r.target) == NO_RESOLVE by {
      assert TrimLeft(" no-resolve") == TrimLeft(" no-resolve"[1..]);
      assert " no-resolve"[1..] == NO_RESOLVE;
      NoResolveText();
    }
    assert Upper(Trim("DOMAIN")) != "MATCH" by {
      assert TrimLeft("DOMAIN") == "DOMAIN" && TrimRight("DOMAIN") == "DOMAIN";
      assert Upper("DOMAIN")[0] == 'D';
    }
    ParsePrinted(r);
  }

  /** The catalog splits a printed rule into its parts exactly when the modifier is printed or the target is not the modifier. */
  lemma CatalogPrinted(r: Rule)
    requires NoComma(r.kind) && NoComma(r.target)
    ensures |Split(Print(r))| > 2
    ensures Catalog(Print(r)) == r <==> r.noResolve || r.target != NO_RESOLVE
  {
    hide Split, Join, Print;
    PrintedParts(r);
    JoinSplit(r.value);
    var all := Split(Print(r));
    var body := [r.kind] + Split(r.value) + [r.target];
    if r.noResolve {
      assert all[..|all| - 1] == body;
    } else {
      assert all == body;
    }
    assert body[1..|body| - 1] == Split(r.value);
  }

  /** The page, the catalog and the validator name the same target for every printed rule that reads back. */
  lemma TargetsAgree(r: Rule)
    requires NoComma(r.kind) && NoComma(r.target) && Upper(Trim(r.kind)) != "MATCH"
    requires r.noResolve || Trim(r.target) != NO_RESOLVE
    ensures |Split(Print(r))| > 2
    ensures Parse(Print(r)).target == Catalog(Print(r)).target == r.target
    ensures Target(Print(r)) == Some(r.target)
  {
    hide Split, Join, Print, Trim, Upper;
    NoResolveText();
    PrintedParts(r);
    ParsePrinted(r);
    CatalogPrinted(r);
  }
}
