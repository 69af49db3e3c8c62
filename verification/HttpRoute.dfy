/** The rule of an HTTPRoute: what the API server takes and stores of it, and which requests it
    accepts, as the Gateway API defines both. */
module HttpRoute {
  import opened Wrappers

  datatype Backend = Backend(service: string, port: int, weight: int)

  datatype PathKind = ExactPath | PathPrefix | PathRegex

  datatype PathMatch = PathMatch(kind: Option<PathKind>, value: Option<string>)

  datatype HeaderKind = Exact | Regex

  /** The type of a header match is optional on the way to the API server. */
  datatype Header = Header(name: string, value: string, kind: Option<HeaderKind>)

  /** `more` stands for the conditions on method and query, if there are any. */
  datatype Match = Match(path: Option<PathMatch>, headers: seq<Header>, more: Option<string>)

  /** A patch replaces the rule as a whole or leaves it alone. */
  datatype Rule = Rule(backends: seq<Backend>, matches: seq<Match>)

  // ---------------------------------------------------------------------------------------
  // What the API server takes and stores

  const MAX_BACKENDS := 16
  const MAX_HEADERS := 16
  const MAX_MATCHES := 64

  /** A list of headers is keyed by name, as written. */
  predicate ValidHeaders(hs: seq<Header>) {
    |hs| <= MAX_HEADERS && forall i, j :: 0 <= i < j < |hs| ==> hs[i].name != hs[j].name
  }

  predicate ValidMatches(ms: seq<Match>) {
    |ms| <= MAX_MATCHES && forall i :: 0 <= i < |ms| ==> ValidHeaders(ms[i].headers)
  }

  predicate Valid(r: Rule) { |r.backends| <= MAX_BACKENDS && ValidMatches(r.matches) }

  const ANY_PATH := PathMatch(Some(PathPrefix), Some("/"))

  /** The defaults: a path is a prefix and `/`, a header is matched exactly, a match without a path
      takes every path, and so does a rule without matches. */
  function DefaultPath(p: PathMatch): PathMatch {
    PathMatch(if p.kind.None? then ANY_PATH.kind else p.kind, if p.value.None? then ANY_PATH.value else p.value)
  }

  function DefaultHeader(h: Header): Header { if h.kind.None? then h.(kind := Some(Exact)) else h }

  function DefaultMatch(m: Match): Match {
    Match(Some(if m.path.None? then ANY_PATH else DefaultPath(m.path.value)),
          seq(|m.headers|, i requires 0 <= i < |m.headers| => DefaultHeader(m.headers[i])), m.more)
  }

  function Defaulted(r: Rule): Rule {
    r.(matches := if r.matches == [] then [Match(Some(ANY_PATH), [], None)]
                  else seq(|r.matches|, i requires 0 <= i < |r.matches| => DefaultMatch(r.matches[i])))
  }

  // ---------------------------------------------------------------------------------------
  // Which requests a rule accepts

  /** Header names are in lower case; `more` stands for method and query. */
  datatype Request = Request(path: string, more: string, headers: map<string, string>)

  predicate Proper(r: Request) { r.path != "" && r.path[0] == '/' }

  /** What is up to the implementation: regular expressions, and conditions on method and query. */
  datatype Judge = Judge(regex: (string, string) -> bool, more: (string, string) -> bool)

  function LowerChar(c: char): char { if 'A' <= c <= 'Z' then (c as int + 32) as char else c }

  function Lower(s: string): string { seq(|s|, i requires 0 <= i < |s| => LowerChar(s[i])) }

  /** A prefix is matched by whole elements, whether or not it ends in a slash. */
  predicate HasPrefix(path: string, prefix: string) {
    var p := if prefix != "" && prefix[|prefix| - 1] == '/' then prefix[..|prefix| - 1] else prefix;
    path == p || p + "/" <= path
  }

  predicate PathMeets(judge: Judge, path: Option<PathMatch>, r: Request) {
    path.None? ||
    var kind := path.value.kind;
    var value := if path.value.value.None? then "/" else path.value.value.value;
    if kind == Some(ExactPath) then r.path == value
    else if kind == Some(PathRegex) then judge.regex(value, r.path)
    else HasPrefix(r.path, value)
  }

  predicate ValueMeets(judge: Judge, h: Header, value: string) {
    if h.kind == Some(Regex) then judge.regex(h.value, value) else value == h.value
  }

  predicate HeaderMeets(judge: Judge, h: Header, r: Request) {
    Lower(h.name) in r.headers && ValueMeets(judge, h, r.headers[Lower(h.name)])
  }

  /** Of the headers with the same name, in whatever case, only the first counts. */
  predicate Counts(hs: seq<Header>, i: nat)
    requires i < |hs|
  {
    forall j :: 0 <= j < i ==> Lower(hs[j].name) != Lower(hs[i].name)
  }

  predicate HeadersMeet(judge: Judge, hs: seq<Header>, r: Request) {
    forall i :: 0 <= i < |hs| && Counts(hs, i) ==> HeaderMeets(judge, hs[i], r)
  }

  predicate MatchMeets(judge: Judge, m: Match, r: Request) {
    && PathMeets(judge, m.path, r) && HeadersMeet(judge, m.headers, r)
    && (m.more.Some? ==> judge.more(m.more.value, r.more))
  }

  predicate Accepts(judge: Judge, rule: Rule, r: Request) {
    exists i :: 0 <= i < |rule.matches| && MatchMeets(judge, rule.matches[i], r)
  }

  lemma AnyPathMeets(r: Request)
    requires Proper(r)
    ensures HasPrefix(r.path, "/")
  {
    assert "/"[..0] == "" && "" + "/" == "/";
  }

  lemma DefaultPathMeets(judge: Judge, m: Match, r: Request)
    requires Proper(r)
    ensures PathMeets(judge, DefaultMatch(m).path, r) <==> PathMeets(judge, m.path, r)
  {
    AnyPathMeets(r);
  }

  lemma DefaultHeadersMeet(judge: Judge, m: Match, r: Request)
    ensures HeadersMeet(judge, DefaultMatch(m).headers, r) <==> HeadersMeet(judge, m.headers, r)
  {
    var d := DefaultMatch(m).headers;
    assert forall j :: 0 <= j < |m.headers| ==> d[j].name == m.headers[j].name;
    forall i | 0 <= i < |m.headers|
      ensures Counts(d, i) == Counts(m.headers, i) && HeaderMeets(judge, d[i], r) == HeaderMeets(judge, m.headers[i], r)
    {
    }
  }

  /** The defaults are those that a request is judged by anyway. */
  lemma DefaultMatchMeets(judge: Judge, m: Match, r: Request)
    requires Proper(r)
    ensures MatchMeets(judge, DefaultMatch(m), r) <==> MatchMeets(judge, m, r)
  {
    DefaultPathMeets(judge, m, r);
    DefaultHeadersMeet(judge, m, r);
  }

  lemma DefaultedAccepts(judge: Judge, rule: Rule, r: Request)
    requires Proper(r)
    ensures Accepts(judge, Defaulted(rule), r) <==> rule.matches == [] || Accepts(judge, rule, r)
  {
    var d := Defaulted(rule);
    if rule.matches == [] {
      AnyPathMeets(r);
      assert MatchMeets(judge, d.matches[0], r);
    } else {
      forall i | 0 <= i < |rule.matches|
        ensures MatchMeets(judge, d.matches[i], r) <==> MatchMeets(judge, rule.matches[i], r)
      {
        DefaultMatchMeets(judge, rule.matches[i], r);
      }
    }
  }

  // ---------------------------------------------------------------------------------------
  // Adding a header to a match

  predicate Names(hs: seq<Header>, name: string) { exists i :: 0 <= i < |hs| && Lower(hs[i].name) == Lower(name) }

  /** An added header counts unless its name is taken. */
  lemma AddedHeaderMeets(judge: Judge, hs: seq<Header>, h: Header, r: Request)
    ensures HeadersMeet(judge, hs + [h], r) <==> HeadersMeet(judge, hs, r) && (Names(hs, h.name) || HeaderMeets(judge, h, r))
  {
    var all := hs + [h];
    assert forall i :: 0 <= i < |hs| ==> all[i] == hs[i];
    forall i | 0 <= i < |hs| ensures Counts(all, i) == Counts(hs, i) {
    }
    assert all[|hs|] == h;
    assert Counts(all, |hs|) <==> !Names(hs, h.name);
  }
}
