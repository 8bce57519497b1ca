/**
 The regular expressions of templates/prometheus.go and templates/alertmanagerconfig.go: strings compiled from lists
 of names, read back by a parser for the fragment of the RE2 syntax they use, and given a meaning.
 */
module Regex {
  import opened Utils

  datatype Re = Eps | Chr(c: char) | Bol | Eol | Cat(first: Re, rest: Re) | Alt(left: Re, right: Re)

  /** The expression matches `text` from `i` to `j`. */
  ghost predicate Matches(re: Re, text: string, i: nat, j: nat)
    requires i <= j <= |text|
  {
    match re
    case Eps => i == j
    case Chr(c) => j == i + 1 && text[i] == c
    case Bol => i == j == 0
    case Eol => i == j == |text|
    case Cat(a, b) => exists k: nat :: i <= k <= j && Matches(a, text, i, k) && Matches(b, text, k, j)
    case Alt(a, b) => Matches(a, text, i, j) || Matches(b, text, i, j)
  }

  // The parser

  const METACHARACTERS := "\\.+*?()|[]{}^$"

  /** An alternation, and what follows it; None if the text is not of the fragment. */
  function ParseAlt(s: string): (r: Option<(Re, string)>)
    ensures r.Some? ==> |r.value.1| <= |s|
    decreases |s|, 2
  {
    match ParseCat(s)
    case None => None
    case Some((re, rest)) =>
      if rest != "" && rest[0] == '|' && |rest| <= |s| then
        match ParseAlt(rest[1..])
        case None => None
        case Some((more, rest')) => Some((Alt(re, more), rest'))
      else Some((re, rest))
  }

  function ParseCat(s: string): (r: Option<(Re, string)>)
    ensures r.Some? ==> |r.value.1| <= |s|
    decreases |s|, 1
  {
    if s == "" || s[0] == '|' || s[0] == ')' then Some((Eps, s))
    else
      match ParseAtom(s)
      case None => None
      case Some((re, rest)) =>
        match ParseCat(rest)
        case None => None
        case Some((more, rest')) => Some((Cat(re, more), rest'))
  }

  function ParseAtom(s: string): (r: Option<(Re, string)>)
    requires s != ""
    ensures r.Some? ==> |r.value.1| < |s|
    decreases |s|, 0
  {
    if s[0] == '(' then
      match ParseAlt(s[1..])
      case None => None
      case Some((re, rest)) => if rest != "" && rest[0] == ')' then Some((re, rest[1..])) else None
    else if s[0] == '^' then Some((Bol, s[1..]))
    else if s[0] == '$' then Some((Eol, s[1..]))
    else if s[0] in METACHARACTERS then None
    else Some((Chr(s[0]), s[1..]))
  }

  /** A whole string, read as a fully anchored expression. */
  ghost predicate Accepts(regex: string, text: string) {
    match ParseAlt(regex)
    case Some((re, "")) => Matches(re, text, 0, |text|)
    case _ => false
  }

  // Names

  predicate Plain(name: string) {
    forall i :: 0 <= i < |name| ==> name[i] !in METACHARACTERS
  }

  predicate AllPlain(names: seq<string>) {
    forall i :: 0 <= i < |names| ==> Plain(names[i])
  }

  /** The characters of `name`, then `re`. */
  function Spelled(name: string, re: Re): Re {
    if name == "" then re else Cat(Chr(name[0]), Spelled(name[1..], re))
  }

  /** Parsing goes through a plain name character by character. */
  lemma {:induction false} ParseName(name: string, rest: string)
    requires Plain(name) && ParseCat(rest).Some?
    ensures ParseCat(name + rest) == Some((Spelled(name, ParseCat(rest).value.0), ParseCat(rest).value.1))
  {
    if name == "" {
      assert name + rest == rest;
    } else {
      assert (name + rest)[0] == name[0] && (name + rest)[1..] == name[1..] + rest;
      ParseName(name[1..], rest);
      NotMeta(name[0]);
    }
  }

  lemma NotMeta(c: char)
    requires c !in METACHARACTERS
    ensures c != '(' && c != ')' && c != '|' && c != '^' && c != '$'
  {
    assert METACHARACTERS[5] == '(' && METACHARACTERS[6] == ')' && METACHARACTERS[7] == '|';
    assert METACHARACTERS[12] == '^' && METACHARACTERS[13] == '$';
  }

  lemma {:induction false} SpelledMatches(name: string, re: Re, text: string, i: nat, j: nat)
    requires i <= j <= |text|
    ensures Matches(Spelled(name, re), text, i, j) <==>
            i + |name| <= j && text[i..i + |name|] == name && Matches(re, text, i + |name|, j)
  {
    if name != "" {
      if i < j {
        SpelledMatches(name[1..], re, text, i + 1, j);
        assert i + |name| <= j ==> text[i..i + |name|] == [text[i]] + text[i + 1..i + |name|];
        assert name == [name[0]] + name[1..];
        if i + |name| <= j && text[i..i + |name|] == name {
          assert text[i..i + |name|][0] == name[0];
          assert text[i..i + |name|][1..] == name[1..];
        }
      }
    }
  }

  // Alternatives of names

  /** The alternatives of a list: no name at all gives the empty expression. */
  function AnyOf(names: seq<string>): Re {
    if names == [] then Eps
    else if |names| == 1 then Spelled(names[0], Eps)
    else Alt(Spelled(names[0], Eps), AnyOf(names[1..]))
  }

  /** What may follow an alternation inside an expression. */
  predicate Closes(rest: string) {
    rest == "" || rest[0] == ')'
  }

  lemma {:induction false} ParseNames(names: seq<string>, rest: string)
    requires AllPlain(names) && Closes(rest)
    ensures ParseAlt(JoinWith(names, "|") + rest) == Some((AnyOf(names), rest))
  {
    if names == [] {
      assert "" + rest == rest;
    } else if |names| == 1 {
      ParseName(names[0], rest);
    } else {
      var more := "|" + (JoinWith(names[1..], "|") + rest);
      assert JoinWith(names, "|") + rest == names[0] + more;
      assert more[1..] == JoinWith(names[1..], "|") + rest;
      ParseName(names[0], more);
      ParseNames(names[1..], rest);
    }
  }

  lemma {:induction false} AnyOfMatches(names: seq<string>, text: string, i: nat, j: nat)
    requires i <= j <= |text|
    ensures Matches(AnyOf(names), text, i, j) <==> (names == [] && i == j) || text[i..j] in names
  {
    if names != [] {
      SpelledMatches(names[0], Eps, text, i, j);
      if |names| > 1 {
        AnyOfMatches(names[1..], text, i, j);
        assert text[i..j] in names <==> text[i..j] == names[0] || text[i..j] in names[1..];
      }
    }
  }

  // The relabelling expression

  function Grouped(metric: string): string {
    "(" + metric + ";)"
  }

  /** Keeps the firing alerts of the first list and the series of the second; subjects are `name;alertname`. */
  function RelabelRegex(alerts: seq<string>, metrics: seq<string>): string {
    "(ALERTS;(" + JoinWith(alerts, "|") + "))|" + JoinWith(Mapped(metrics, Grouped), "|")
  }

  /** A group, the expression in it and what follows. */
  lemma ParseGroup(inner: string, re: Re, rest: string)
    requires ParseAlt(inner + ")" + rest) == Some((re, ")" + rest)) && ParseCat(rest).Some?
    ensures ParseCat("(" + inner + ")" + rest) == Some((Cat(re, ParseCat(rest).value.0), ParseCat(rest).value.1))
  {
    var s := "(" + inner + ")" + rest;
    assert s[1..] == inner + ")" + rest;
    assert (")" + rest)[1..] == rest;
    assert ParseAtom(s) == Some((re, rest));
  }

  lemma ParseGrouped(metric: string, rest: string)
    requires Plain(metric) && ParseCat(rest).Some?
    ensures ParseCat(Grouped(metric) + rest) ==
            Some((Cat(Spelled(metric + ";", Eps), ParseCat(rest).value.0), ParseCat(rest).value.1))
  {
    var name := metric + ";";
    assert METACHARACTERS == "\\.+*?()|[]{}^$" && Plain(";");
    assert Plain(name);
    ParseName(name, ")" + rest);
    assert name + ")" + rest == name + (")" + rest);
    ParseGroup(name, Spelled(name, Eps), rest);
    assert Grouped(metric) + rest == "(" + name + ")" + rest;
  }

  function AnyGroup(metrics: seq<string>): Re {
    if metrics == [] then Eps
    else if |metrics| == 1 then Cat(Spelled(metrics[0] + ";", Eps), Eps)
    else Alt(Cat(Spelled(metrics[0] + ";", Eps), Eps), AnyGroup(metrics[1..]))
  }

  lemma {:induction false} ParseGroups(metrics: seq<string>)
    requires AllPlain(metrics)
    ensures ParseAlt(JoinWith(Mapped(metrics, Grouped), "|")) == Some((AnyGroup(metrics), ""))
  {
    var groups := Mapped(metrics, Grouped);
    if metrics == [] {
    } else if |metrics| == 1 {
      ParseGrouped(metrics[0], "");
      assert Grouped(metrics[0]) + "" == Grouped(metrics[0]);
    } else {
      assert groups[1..] == Mapped(metrics[1..], Grouped);
      var more := "|" + JoinWith(groups[1..], "|");
      assert JoinWith(groups, "|") == groups[0] + more;
      assert more[1..] == JoinWith(groups[1..], "|");
      ParseGrouped(metrics[0], more);
      ParseGroups(metrics[1..]);
    }
  }

  function RelabelTree(alerts: seq<string>, metrics: seq<string>): Re {
    Alt(Cat(Spelled("ALERTS;", Cat(AnyOf(alerts), Eps)), Eps), AnyGroup(metrics))
  }

  /** The inner group of the alerts. */
  lemma ParseAlerts(alerts: seq<string>, tail: string)
    requires AllPlain(alerts)
    ensures ParseAlt("ALERTS;(" + JoinWith(alerts, "|") + "))" + tail) ==
            Some((Spelled("ALERTS;", Cat(AnyOf(alerts), Eps)), ")" + tail))
  {
    hide Spelled, JoinWith, AnyOf, ParseAlt, Plain, AllPlain;
    var j, rest := JoinWith(alerts, "|"), ")" + tail;
    ParseNames(alerts, ")" + rest);
    Associates(j, ")", rest);
    ParseGroup(j, AnyOf(alerts), rest);
    PlainAlerts();
    ParseName("ALERTS;", "(" + j + ")" + rest);
    AlertsSpelled(j, tail);
    StopsAtClose("ALERTS;" + ("(" + j + ")" + rest), rest);
  }

  lemma Associates(a: string, b: string, c: string)
    ensures a + b + c == a + (b + c)
  {
  }

  lemma AlertsSpelled(j: string, tail: string)
    ensures "ALERTS;" + ("(" + j + ")" + (")" + tail)) == "ALERTS;(" + j + "))" + tail
  {
  }

  /** A concatenation that a closing parenthesis ends is the whole alternation. */
  lemma StopsAtClose(s: string, rest: string)
    requires ParseCat(s).Some? && ParseCat(s).value.1 == rest && rest != "" && rest[0] == ')'
    ensures ParseAlt(s) == ParseCat(s)
  {
  }

  lemma ParseRelabel(alerts: seq<string>, metrics: seq<string>)
    requires AllPlain(alerts) && AllPlain(metrics)
    ensures ParseAlt(RelabelRegex(alerts, metrics)) == Some((RelabelTree(alerts, metrics), ""))
  {
    hide Spelled, JoinWith, AnyOf, AnyGroup, ParseAlt, ParseCat, ParseAtom, AllPlain, Mapped;
    var m := JoinWith(Mapped(metrics, Grouped), "|");
    var inner, tail := "ALERTS;(" + JoinWith(alerts, "|") + ")", "|" + m;
    ParseAlerts(alerts, tail);
    Associates(inner, ")", tail);
    assert inner + ")" + tail == "ALERTS;(" + JoinWith(alerts, "|") + "))" + tail;
    BarEndsCat(m);
    ParseGroup(inner, Spelled("ALERTS;", Cat(AnyOf(alerts), Eps)), tail);
    assert RelabelRegex(alerts, metrics) == "(" + inner + ")" + tail;
    ParseGroups(metrics);
    AltAfterBar("(" + inner + ")" + tail, m);
  }

  lemma BarEndsCat(m: string)
    ensures ParseCat("|" + m) == Some((Eps, "|" + m))
  {
  }

  /** An alternative, a bar, and the rest. */
  lemma AltAfterBar(s: string, m: string)
    requires ParseCat(s).Some? && ParseCat(s).value.1 == "|" + m && ParseAlt(m).Some?
    ensures ParseAlt(s) == Some((Alt(ParseCat(s).value.0, ParseAlt(m).value.0), ParseAlt(m).value.1))
  {
    assert ("|" + m)[1..] == m;
  }

  lemma PlainAlerts()
    ensures Plain("ALERTS;")
  {
    assert METACHARACTERS == "\\.+*?()|[]{}^$";
  }

  lemma CatEps(re: Re, text: string, i: nat, j: nat)
    requires i <= j <= |text|
    ensures Matches(Cat(re, Eps), text, i, j) <==> Matches(re, text, i, j)
  {
    if Matches(re, text, i, j) {
      assert Matches(Eps, text, j, j);
    }
  }

  /** The first ';' splits a subject in one way only. */
  lemma SplitsOnce(a: string, x: string, b: string, y: string)
    requires ';' !in a && ';' !in b && a + ";" + x == b + ";" + y
    ensures a == b && x == y
  {
    var s, t := a + ";" + x, b + ";" + y;
    assert s[|a|] == ';' && t[|b|] == ';';
    assert t[|a|] == ';' && s[|b|] == ';';
    assert s[..|a|] == a && t[..|b|] == b && s[|a| + 1..] == x && t[|b| + 1..] == y;
  }

  lemma {:induction false} AnyGroupMatches(metrics: seq<string>, text: string)
    ensures Matches(AnyGroup(metrics), text, 0, |text|) <==>
            (metrics == [] && text == "") || exists i :: 0 <= i < |metrics| && text == metrics[i] + ";"
  {
    if metrics != [] {
      var name := metrics[0] + ";";
      CatEps(Spelled(name, Eps), text, 0, |text|);
      SpelledMatches(name, Eps, text, 0, |text|);
      assert text[0..|text|] == text;
      if |metrics| > 1 {
        AnyGroupMatches(metrics[1..], text);
        if i :| 0 <= i < |metrics| && text == metrics[i] + ";" {
          assert i > 0 ==> metrics[1..][i - 1] == metrics[i];
        }
        if i :| 0 <= i < |metrics[1..]| && text == metrics[1..][i] + ";" {
          assert metrics[i + 1] == metrics[1..][i];
        }
      }
    }
  }

  lemma AlertsMatch(alerts: seq<string>, name: string, alertname: string)
    requires ';' !in name
    ensures var text := name + ";" + alertname;
      Matches(Spelled("ALERTS;", Cat(AnyOf(alerts), Eps)), text, 0, |text|) <==>
      name == "ALERTS" && (alertname in alerts || (alerts == [] && alertname == ""))
  {
    var text := name + ";" + alertname;
    SpelledMatches("ALERTS;", Cat(AnyOf(alerts), Eps), text, 0, |text|);
    assert name == "ALERTS" ==> text[0..7] == "ALERTS;";
    if 7 <= |text| && text[0..7] == "ALERTS;" {
      assert text == "ALERTS" + ";" + text[7..];
      SplitsOnce(name, alertname, "ALERTS", text[7..]);
      CatEps(AnyOf(alerts), text, 7, |text|);
      AnyOfMatches(alerts, text, 7, |text|);
      assert text[7..|text|] == alertname;
    }
  }

  /** What the "keep" rule keeps, for any lists; the separator may not occur in a metric's name. */
  predicate Kept(alerts: seq<string>, metrics: seq<string>, name: string, alertname: string) {
    || (name == "ALERTS" && alertname in alerts)
    || (name in metrics && alertname == "")
  }

  lemma MetricsMatch(metrics: seq<string>, name: string, alertname: string)
    requires ';' !in name && forall i :: 0 <= i < |metrics| ==> ';' !in metrics[i]
    ensures var text := name + ";" + alertname;
      Matches(AnyGroup(metrics), text, 0, |text|) <==> name in metrics && alertname == ""
  {
    var text := name + ";" + alertname;
    AnyGroupMatches(metrics, text);
    if i :| 0 <= i < |metrics| && text == metrics[i] + ";" {
      assert metrics[i] + ";" == metrics[i] + ";" + "";
      SplitsOnce(name, alertname, metrics[i], "");
    }
    if name in metrics && alertname == "" {
      var i :| 0 <= i < |metrics| && metrics[i] == name;
      assert text == metrics[i] + ";";
    }
  }

  /**
   The relabelling expression, as a fully anchored regular expression, accepts a subject exactly if it is a listed
   alert or a listed series, except that an empty list of alerts also lets through the alert without a name.
   */
  lemma RelabelMeaning(alerts: seq<string>, metrics: seq<string>, name: string, alertname: string)
    requires AllPlain(alerts) && AllPlain(metrics)
    requires ';' !in name && forall i :: 0 <= i < |metrics| ==> ';' !in metrics[i]
    ensures Accepts(RelabelRegex(alerts, metrics), name + ";" + alertname) <==>
            Kept(alerts, metrics, name, alertname) || (alerts == [] && name == "ALERTS" && alertname == "")
  {
    var text := name + ";" + alertname;
    ParseRelabel(alerts, metrics);
    AlertsMatch(alerts, name, alertname);
    MetricsMatch(metrics, name, alertname);
    hide Spelled, AnyOf, AnyGroup, RelabelRegex;
    CatEps(Spelled("ALERTS;", Cat(AnyOf(alerts), Eps)), text, 0, |text|);
  }

  /** Among the subjects that have a separator, `regex` accepts those that the two lists keep. */
  ghost predicate Selective(regex: string, alerts: seq<string>, metrics: seq<string>) {
    forall name: string, alertname: string :: ';' !in name ==>
      (Accepts(regex, name + ";" + alertname) <==>
       Kept(alerts, metrics, name, alertname) || (alerts == [] && name == "ALERTS" && alertname == ""))
  }

  /** The expression that is compiled selects by the two lists, provided that their names have no special characters. */
  method GetRelabelRegex(alerts: seq<string>, metrics: seq<string>) returns (regex: string)
    ensures AllPlain(alerts) && AllPlain(metrics) && (forall i :: 0 <= i < |metrics| ==> ';' !in metrics[i]) ==>
      Selective(regex, alerts, metrics)
  {
    hide Accepts, Kept, AllPlain;
    var grouped := MapItems(metrics, Grouped);
    regex := "(ALERTS;(" + JoinWith(alerts, "|") + "))|" + JoinWith(grouped[..], "|");
    if AllPlain(alerts) && AllPlain(metrics) && forall i :: 0 <= i < |metrics| ==> ';' !in metrics[i] {
      forall name: string, alertname: string | ';' !in name
        ensures Accepts(regex, name + ";" + alertname) <==>
                Kept(alerts, metrics, name, alertname) || (alerts == [] && name == "ALERTS" && alertname == "")
      {
        RelabelMeaning(alerts, metrics, name, alertname);
      }
    }
  }

  /** So it means just the two lists if and only if there is an alert, or ALERTS itself is among the metrics. */
  lemma RelabelIsExactIff(alerts: seq<string>, metrics: seq<string>)
    requires AllPlain(alerts) && AllPlain(metrics) && forall i :: 0 <= i < |metrics| ==> ';' !in metrics[i]
    ensures (forall name: string, alertname: string :: ';' !in name ==>
              (Accepts(RelabelRegex(alerts, metrics), name + ";" + alertname) <==> Kept(alerts, metrics, name, alertname)))
            <==> alerts != [] || "ALERTS" in metrics
  {
    hide RelabelRegex, Accepts;
    forall name: string, alertname: string | ';' !in name
      ensures Accepts(RelabelRegex(alerts, metrics), name + ";" + alertname) <==>
              Kept(alerts, metrics, name, alertname) || (alerts == [] && name == "ALERTS" && alertname == "")
    {
      RelabelMeaning(alerts, metrics, name, alertname);
    }
    if alerts == [] && "ALERTS" !in metrics {
      assert ';' !in "ALERTS" && !Kept(alerts, metrics, "ALERTS", "");
      assert Accepts(RelabelRegex(alerts, metrics), "ALERTS" + ";" + "");
    }
  }

  // The matchers of the Alertmanager routes

  function RegexMatcher(alerts: seq<string>): string {
    "^" + JoinWith(alerts, "$|^") + "$"
  }

  /** One name between anchors. */
  function Exactly(name: string): Re {
    Cat(Bol, Spelled(name, Cat(Eol, Eps)))
  }

  function ExactlyOneOf(names: seq<string>): Re
    requires names != []
  {
    if |names| == 1 then Exactly(names[0]) else Alt(Exactly(names[0]), ExactlyOneOf(names[1..]))
  }

  lemma ParseExactly(name: string, rest: string)
    requires Plain(name) && (rest == "" || rest[0] == '|')
    ensures ParseCat("^" + (name + ("$" + rest))) == Some((Exactly(name), rest))
  {
    var s := "$" + rest;
    assert s[1..] == rest;
    assert ParseCat(s) == Some((Cat(Eol, Eps), rest));
    ParseName(name, s);
    assert ("^" + (name + s))[1..] == name + s;
  }

  lemma {:induction false} ParseMatcher(names: seq<string>)
    requires AllPlain(names) && names != []
    ensures ParseAlt(RegexMatcher(names)) == Some((ExactlyOneOf(names), ""))
  {
    if |names| == 1 {
      ParseExactly(names[0], "");
      assert RegexMatcher(names) == "^" + (names[0] + ("$" + ""));
    } else {
      var rest := "|" + RegexMatcher(names[1..]);
      ParseExactly(names[0], rest);
      MatcherSplits(names);
      assert rest[1..] == RegexMatcher(names[1..]);
      ParseMatcher(names[1..]);
    }
  }

  lemma MatcherSplits(names: seq<string>)
    requires |names| > 1
    ensures RegexMatcher(names) == "^" + (names[0] + ("$" + ("|" + RegexMatcher(names[1..]))))
  {
  }

  lemma CatSplit(a: Re, b: Re, text: string, i: nat, j: nat) returns (k: nat)
    requires i <= j <= |text| && Matches(Cat(a, b), text, i, j)
    ensures i <= k <= j && Matches(a, text, i, k) && Matches(b, text, k, j)
  {
    k :| i <= k <= j && Matches(a, text, i, k) && Matches(b, text, k, j);
  }

  lemma ExactlyMatches(name: string, text: string)
    ensures Matches(Exactly(name), text, 0, |text|) <==> text == name
  {
    var n := |text|;
    SpelledMatches(name, Cat(Eol, Eps), text, 0, n);
    assert text[0..n] == text;
    if text == name {
      assert Matches(Eol, text, n, n) && Matches(Eps, text, n, n);
      assert Matches(Cat(Eol, Eps), text, n, n);
      assert Matches(Bol, text, 0, 0) && Matches(Spelled(name, Cat(Eol, Eps)), text, 0, n);
    }
    if Matches(Exactly(name), text, 0, n) {
      var k := CatSplit(Bol, Spelled(name, Cat(Eol, Eps)), text, 0, n);
      assert Matches(Cat(Eol, Eps), text, |name|, n);
      assert |name| == n;
    }
  }

  lemma {:induction false} ExactlyOneMatches(names: seq<string>, text: string)
    requires names != []
    ensures Matches(ExactlyOneOf(names), text, 0, |text|) <==> text in names
  {
    hide Exactly;
    ExactlyMatches(names[0], text);
    if |names| > 1 {
      ExactlyOneMatches(names[1..], text);
      assert text in names <==> text == names[0] || text in names[1..];
    }
  }

  /** The matcher accepts exactly the listed names; made from no name at all, it accepts the empty one. */
  lemma MatcherMeaning(names: seq<string>, text: string)
    requires AllPlain(names)
    ensures Accepts(RegexMatcher(names), text) <==> text in names || (names == [] && text == "")
  {
    if names == [] {
      EmptyMatcher(text);
    } else {
      ParseMatcher(names);
      ExactlyOneMatches(names, text);
    }
  }

  lemma EmptyMatcher(text: string)
    ensures Accepts(RegexMatcher([]), text) <==> text == ""
  {
    assert RegexMatcher([]) == "^" + ("" + ("$" + ""));
    ParseExactly("", "");
    ExactlyMatches("", text);
  }

  // Routing

  datatype Matcher = MatchRegexp(regex: string) | MatchEqual(value: string)
  datatype Route = Route(matcher: Matcher, receiver: string)

  ghost predicate Selects(m: Matcher, alertname: string) {
    match m
    case MatchRegexp(regex) => Accepts(regex, alertname)
    case MatchEqual(value) => alertname == value
  }

  /** The receiver of the first route that matches, else that of the root. */
  ghost function ReceiverOf(routes: seq<Route>, root: string, alertname: string): string {
    if routes == [] then root
    else if Selects(routes[0].matcher, alertname) then routes[0].receiver
    else ReceiverOf(routes[1..], root, alertname)
  }

  function Routes(smtpAlerts: seq<string>, pagerdutyAlerts: seq<string>): seq<Route> {
    [Route(MatchRegexp(RegexMatcher(smtpAlerts)), "SendGrid"),
     Route(MatchRegexp(RegexMatcher(pagerdutyAlerts)), "pagerduty"),
     Route(MatchEqual("DeadMansSnitch"), "DeadMansSnitch")]
  }

  /** Where an alert goes, for any non-empty lists, also if they overlap: mail comes first, then the pager. */
  lemma RoutingByPriority(smtpAlerts: seq<string>, pagerdutyAlerts: seq<string>, alertname: string)
    requires AllPlain(smtpAlerts) && AllPlain(pagerdutyAlerts) && smtpAlerts != [] && pagerdutyAlerts != []
    ensures ReceiverOf(Routes(smtpAlerts, pagerdutyAlerts), "null", alertname) ==
            if alertname in smtpAlerts then "SendGrid"
            else if alertname in pagerdutyAlerts then "pagerduty"
            else if alertname == "DeadMansSnitch" then "DeadMansSnitch" else "null"
  {
    hide Accepts, RegexMatcher;
    MatcherMeaning(smtpAlerts, alertname);
    MatcherMeaning(pagerdutyAlerts, alertname);
    var routes := Routes(smtpAlerts, pagerdutyAlerts);
    var second := routes[1..];
    var third := second[1..];
    assert second[0] == routes[1] && third[0] == routes[2] && third[1..] == [];
    assert ReceiverOf(third, "null", alertname) == if alertname == "DeadMansSnitch" then "DeadMansSnitch" else "null";
    assert ReceiverOf(second, "null", alertname) ==
           if alertname in pagerdutyAlerts then "pagerduty" else ReceiverOf(third, "null", alertname);
  }

  /** With disjoint lists that leave the snitch alone, each receiver gets exactly its own alerts. */
  lemma EachAlertToItsReceiver(smtpAlerts: seq<string>, pagerdutyAlerts: seq<string>, alertname: string)
    requires AllPlain(smtpAlerts) && AllPlain(pagerdutyAlerts) && smtpAlerts != [] && pagerdutyAlerts != []
    requires forall a :: a in smtpAlerts ==> a !in pagerdutyAlerts
    requires "DeadMansSnitch" !in smtpAlerts && "DeadMansSnitch" !in pagerdutyAlerts
    ensures var receiver := ReceiverOf(Routes(smtpAlerts, pagerdutyAlerts), "null", alertname);
      && (receiver == "SendGrid" <==> alertname in smtpAlerts)
      && (receiver == "pagerduty" <==> alertname in pagerdutyAlerts)
      && (receiver == "DeadMansSnitch" <==> alertname == "DeadMansSnitch")
      && (receiver == "null" <==> alertname !in smtpAlerts && alertname !in pagerdutyAlerts && alertname != "DeadMansSnitch")
  {
    RoutingByPriority(smtpAlerts, pagerdutyAlerts, alertname);
  }
}
