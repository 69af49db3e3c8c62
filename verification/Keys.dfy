/** Redis key strings of the rate limiter and the quota service, and a decoder that inverts them.
    Both write `prefix:key=value.key=value.` ...; a rate key goes on with `rule:windowStart`. */
module Keys {
  import opened Wrappers

  datatype Label = Label(key: string, value: string)

  // ---------------------------------------------------------------------------------------
  // Decimal numbers

  function Digit(d: int): char
    requires 0 <= d < 10
  {
    ('0' as int + d) as char
  }

  function Digits(n: nat): string {
    if n < 10 then [Digit(n)] else Digits(n / 10) + [Digit(n % 10)]
  }

  /** `strconv.FormatInt(n, 10)`. */
  function Decimal(n: int): string {
    if n < 0 then "-" + Digits(-n) else Digits(n)
  }

  function ParseDigits(s: string): Option<int> {
    if s == [] then None
    else
      var c := s[|s| - 1];
      if !('0' <= c <= '9') then None
      else
        var d := c as int - '0' as int;
        if |s| == 1 then Some(d)
        else match ParseDigits(s[..|s| - 1])
          case None => None
          case Some(n) => Some(10 * n + d)
  }

  function ParseDecimal(s: string): Option<int> {
    if s != [] && s[0] == '-' then
      match ParseDigits(s[1..])
      case None => None
      case Some(n) => Some(-n)
    else
      match ParseDigits(s)
      case None => None
      case Some(n) => Some(n)
  }

  lemma {:induction false} DigitsRoundTrip(n: nat)
    ensures Digits(n) != [] && (forall c :: c in Digits(n) ==> '0' <= c <= '9')
    ensures ParseDigits(Digits(n)) == Some(n)
  {
    if n >= 10 {
      DigitsRoundTrip(n / 10);
      var s := Digits(n);
      assert s[..|s| - 1] == Digits(n / 10) && s[|s| - 1] == Digit(n % 10);
    }
  }

  lemma DecimalRoundTrip(n: int)
    ensures ParseDecimal(Decimal(n)) == Some(n)
    ensures ':' !in Decimal(n)
  {
    if n < 0 {
      NegativeRoundTrip(-n);
    } else {
      DigitsRoundTrip(n);
      assert Digits(n)[0] in Digits(n);
    }
  }

  lemma NegativeRoundTrip(n: int)
    requires n >= 0
    ensures ParseDecimal("-" + Digits(n)) == Some(-n)
    ensures ':' !in "-" + Digits(n)
  {
    DigitsRoundTrip(n);
    var s := "-" + Digits(n);
    assert s[0] == '-' && s[1..] == Digits(n);
  }

  // ---------------------------------------------------------------------------------------
  // Encoding

  function Identifier(labels: seq<Label>): string {
    if labels == [] then []
    else
      var l := labels[|labels| - 1];
      Identifier(labels[..|labels| - 1]) + l.key + "=" + l.value + "."
  }

  function QuotaKey(prefix: string, labels: seq<Label>): string {
    prefix + ":" + Identifier(labels)
  }

  function RateKey(prefix: string, labels: seq<Label>, rule: string, windowStart: int): string {
    prefix + ":" + Identifier(labels) + rule + ":" + Decimal(windowStart)
  }

  method WriteIdentifier(buffer: string, labels: seq<Label>) returns (b: string)
    ensures b == buffer + Identifier(labels)
  {
    b := buffer;
    for i := 0 to |labels|
      invariant b == buffer + Identifier(labels[..i])
    {
      assert labels[..i + 1][..i] == labels[..i];
      b := b + labels[i].key;
      b := b + "=";
      b := b + labels[i].value;
      b := b + ".";
      assert b == buffer + (Identifier(labels[..i]) + labels[i].key + "=" + labels[i].value + ".");
    }
    assert labels[..|labels|] == labels;
  }

  method GenerateQuotaKey(prefix: string, labels: seq<Label>) returns (b: string)
    ensures b == QuotaKey(prefix, labels)
  {
    b := prefix + ":";
    b := WriteIdentifier(b, labels);
  }

  method GenerateRateKey(prefix: string, labels: seq<Label>, rule: string, windowStart: int) returns (b: string)
    ensures b == RateKey(prefix, labels, rule, windowStart)
  {
    b := prefix + ":";
    b := WriteIdentifier(b, labels);
    b := b + rule + ":";
    b := b + Decimal(windowStart);
  }

  // ---------------------------------------------------------------------------------------
  // Decoding

  /** Index of the last `c`, or -1. */
  function LastIndex(s: string, c: char): (i: int)
    ensures -1 <= i < |s|
    ensures i >= 0 ==> s[i] == c
    ensures forall j :: i < j < |s| ==> s[j] != c
  {
    if s == [] then -1
    else if s[|s| - 1] == c then |s| - 1
    else LastIndex(s[..|s| - 1], c)
  }

  /** What stands before and after the last `c`. */
  function SplitLast(s: string, c: char): Option<(string, string)> {
    var i := LastIndex(s, c);
    if i < 0 then None else Some((s[..i], s[i + 1..]))
  }

  lemma SplitLastConcat(a: string, c: char, b: string)
    requires c !in b
    ensures SplitLast(a + [c] + b, c) == Some((a, b))
  {
    var s := a + [c] + b;
    var i := LastIndex(s, c);
    assert s[|a|] == c;
    forall j | |a| < j < |s| ensures s[j] != c { assert s[j] == b[j - |a| - 1]; }
    assert s[..|a|] == a && s[|a| + 1..] == b;
  }

  lemma SplitLastNone(s: string, c: char)
    ensures c !in s ==> SplitLast(s, c) == None
    ensures SplitLast(s, c).Some? ==> c !in SplitLast(s, c).value.1
    ensures SplitLast(s, c).None? ==> c !in s
  {
  }

  /** Reads labels from the back: the last `=` ends a key, the last `.` before it starts it. */
  function DecodeIdentifier(s: string): Option<seq<Label>>
    decreases |s|
  {
    if s == [] then Some([])
    else if s[|s| - 1] != '.' then None
    else match SplitLast(s[..|s| - 1], '=')
      case None => None
      case Some((left, value)) =>
        var (rest, key) := match SplitLast(left, '.') case None => ([], left) case Some((r, k)) => (r + ['.'], k);
        if '=' in key then None
        else match DecodeIdentifier(rest)
          case None => None
          case Some(labels) => Some(labels + [Label(key, value)])
  }

  predicate SafeLabel(l: Label) {
    '=' !in l.key && '.' !in l.key && '=' !in l.value
  }

  predicate SafeLabels(labels: seq<Label>) {
    forall i :: 0 <= i < |labels| ==> SafeLabel(labels[i])
  }

  /** An identifier is empty or ends with a dot. */
  lemma IdentifierEnd(labels: seq<Label>) returns (body: string)
    requires labels != []
    ensures Identifier(labels) == body + ['.']
    ensures body == Identifier(labels[..|labels| - 1]) + labels[|labels| - 1].key + ['='] + labels[|labels| - 1].value
  {
    var l := labels[|labels| - 1];
    body := Identifier(labels[..|labels| - 1]) + l.key + ['='] + l.value;
  }

  /** Splitting `pre + key` at its last dot, when `pre` is an identifier. */
  lemma SplitAfterIdentifier(labels: seq<Label>, tail: string)
    requires '.' !in tail
    ensures var pre := Identifier(labels);
            (match SplitLast(pre + tail, '.') case None => ([], pre + tail) case Some((r, k)) => (r + ['.'], k))
            == (pre, tail)
  {
    var pre := Identifier(labels);
    if labels == [] {
      assert pre + tail == tail;
      SplitLastNone(tail, '.');
    } else {
      var body := IdentifierEnd(labels);
      SplitLastConcat(body, '.', tail);
      assert pre + tail == body + ['.'] + tail;
    }
  }

  /** Decoding peels off the last label. */
  lemma DecodeLast(init: seq<Label>, l: Label, s: string)
    requires SafeLabel(l) && s == Identifier(init) + l.key + ['='] + l.value + ['.']
    requires DecodeIdentifier(Identifier(init)) == Some(init)
    ensures DecodeIdentifier(s) == Some(init + [l])
  {
    var left := Identifier(init) + l.key;
    var body := left + ['='] + l.value;
    assert s[..|s| - 1] == body && s[|s| - 1] == '.';
    SplitLastConcat(left, '=', l.value);
    SplitAfterIdentifier(init, l.key);
  }

  lemma {:induction false} IdentifierRoundTrip(labels: seq<Label>)
    requires SafeLabels(labels)
    ensures DecodeIdentifier(Identifier(labels)) == Some(labels)
  {
    if labels != [] {
      var init, l := labels[..|labels| - 1], labels[|labels| - 1];
      IdentifierRoundTrip(init);
      DecodeLast(init, l, Identifier(labels));
      assert init + [l] == labels;
    }
  }

  /** Whatever the decoder returns is made of safe labels. */
  lemma {:induction false} DecodedIsSafe(s: string)
    requires DecodeIdentifier(s).Some?
    ensures SafeLabels(DecodeIdentifier(s).value)
    decreases |s|
  {
    if s != [] {
      SplitLastNone(s[..|s| - 1], '=');
      var (left, value) := SplitLast(s[..|s| - 1], '=').value;
      SplitLastNone(left, '.');
      match SplitLast(left, '.')
      case None => DecodedIsSafe([]);
      case Some((r, _)) => DecodedIsSafe(r + ['.']);
    }
  }

  /** The text after the prefix and its colon. */
  function AfterPrefix(prefix: string, s: string): Option<string> {
    if |prefix| < |s| && s[..|prefix|] == prefix && s[|prefix|] == ':' then Some(s[|prefix| + 1..]) else None
  }

  lemma AfterPrefixOf(prefix: string, rest: string)
    ensures AfterPrefix(prefix, prefix + ":" + rest) == Some(rest)
  {
    var s := prefix + ":" + rest;
    assert s[..|prefix|] == prefix && s[|prefix|] == ':' && s[|prefix| + 1..] == rest;
  }

  function DecodeQuotaKey(prefix: string, s: string): Option<seq<Label>> {
    match AfterPrefix(prefix, s)
    case None => None
    case Some(rest) => DecodeIdentifier(rest)
  }

  /** The last `:` starts the window, the last `.` before it ends the identifier. */
  function DecodeRateKey(prefix: string, s: string): Option<(seq<Label>, string, int)> {
    match AfterPrefix(prefix, s)
    case None => None
    case Some(rest) =>
      match SplitLast(rest, ':')
      case None => None
      case Some((left, window)) =>
        var (id, rule) := match SplitLast(left, '.') case None => ([], left) case Some((r, k)) => (r + ['.'], k);
        match (DecodeIdentifier(id), ParseDecimal(window))
        case (Some(labels), Some(w)) => Some((labels, rule, w))
        case _ => None
  }

  /** The key determines the labels exactly when no key holds `=` or `.` and no value holds `=`.
      Values may hold `.` and `:`. */
  lemma QuotaKeyRoundTripIff(prefix: string, labels: seq<Label>)
    ensures DecodeQuotaKey(prefix, QuotaKey(prefix, labels)) == Some(labels) <==> SafeLabels(labels)
  {
    AfterPrefixOf(prefix, Identifier(labels));
    if SafeLabels(labels) {
      IdentifierRoundTrip(labels);
    } else if DecodeIdentifier(Identifier(labels)) == Some(labels) {
      DecodedIsSafe(Identifier(labels));
      assert false;
    }
  }

  lemma RateKeyRest(prefix: string, labels: seq<Label>, rule: string, w: int)
    ensures AfterPrefix(prefix, RateKey(prefix, labels, rule, w)) == Some(Identifier(labels) + rule + [':'] + Decimal(w))
    ensures SplitLast(Identifier(labels) + rule + [':'] + Decimal(w), ':') == Some((Identifier(labels) + rule, Decimal(w)))
  {
    var rest := Identifier(labels) + rule + [':'] + Decimal(w);
    assert RateKey(prefix, labels, rule, w) == prefix + ":" + rest;
    AfterPrefixOf(prefix, rest);
    DecimalRoundTrip(w);
    SplitLastConcat(Identifier(labels) + rule, ':', Decimal(w));
  }

  /** The rate key determines labels, rule and window exactly when the labels are safe and the
      rule name holds no `.`. */
  lemma RateKeyRoundTripIff(prefix: string, labels: seq<Label>, rule: string, w: int)
    ensures DecodeRateKey(prefix, RateKey(prefix, labels, rule, w)) == Some((labels, rule, w))
            <==> SafeLabels(labels) && '.' !in rule
  {
    var left := Identifier(labels) + rule;
    RateKeyRest(prefix, labels, rule, w);
    DecimalRoundTrip(w);
    if SafeLabels(labels) && '.' !in rule {
      SplitAfterIdentifier(labels, rule);
      IdentifierRoundTrip(labels);
    } else if DecodeRateKey(prefix, RateKey(prefix, labels, rule, w)) == Some((labels, rule, w)) {
      SplitLastNone(left, '.');
      match SplitLast(left, '.') {
        case None => DecodedIsSafe([]);
        case Some((r, _)) => DecodedIsSafe(r + ['.']);
      }
      assert false;
    }
  }

  /** Distinct safe (labels, rule, window) have distinct keys. */
  lemma RateKeyInjective(prefix: string, l1: seq<Label>, r1: string, w1: int, l2: seq<Label>, r2: string, w2: int)
    requires SafeLabels(l1) && SafeLabels(l2) && '.' !in r1 && '.' !in r2
    requires RateKey(prefix, l1, r1, w1) == RateKey(prefix, l2, r2, w2)
    ensures l1 == l2 && r1 == r2 && w1 == w2
  {
    RateKeyRoundTripIff(prefix, l1, r1, w1);
    RateKeyRoundTripIff(prefix, l2, r2, w2);
  }

  /** Under the same labels, however named, distinct rules and windows have distinct keys. */
  lemma RateKeySameLabels(prefix: string, labels: seq<Label>, r1: string, w1: int, r2: string, w2: int)
    requires RateKey(prefix, labels, r1, w1) == RateKey(prefix, labels, r2, w2)
    ensures r1 == r2 && w1 == w2
  {
    RateKeyRest(prefix, labels, r1, w1);
    RateKeyRest(prefix, labels, r2, w2);
    var id := Identifier(labels);
    assert id + r1 == id + r2;
    assert r1 == (id + r1)[|id|..] == r2;
    DecimalRoundTrip(w1);
    DecimalRoundTrip(w2);
  }

  /** A rate key ends with a digit, a quota key with `.` or `:`; so the two never meet, whatever
      the prefixes. */
  lemma KeySpacesDisjoint(p1: string, l1: seq<Label>, rule: string, w: int, p2: string, l2: seq<Label>)
    ensures RateKey(p1, l1, rule, w) != QuotaKey(p2, l2)
  {
    var a, b := RateKey(p1, l1, rule, w), QuotaKey(p2, l2);
    var digits := Digits(if w < 0 then -w else w);
    DigitsRoundTrip(if w < 0 then -w else w);
    assert a[|a| - 1] == Decimal(w)[|Decimal(w)| - 1] == digits[|digits| - 1];
    assert digits[|digits| - 1] in digits;
    if l2 == [] {
      assert b[|b| - 1] == ':';
    } else {
      var body := IdentifierEnd(l2);
      assert b[|b| - 1] == '.';
    }
  }

  lemma QuotaKeyInjective(prefix: string, l1: seq<Label>, l2: seq<Label>)
    requires SafeLabels(l1) && SafeLabels(l2)
    requires QuotaKey(prefix, l1) == QuotaKey(prefix, l2)
    ensures l1 == l2
  {
    QuotaKeyRoundTripIff(prefix, l1);
    QuotaKeyRoundTripIff(prefix, l2);
  }

  // ---------------------------------------------------------------------------------------
  // The labels that the gateway uses

  function RateLabels(namespace: string, user: string, model: string): seq<Label> {
    [Label("namespace", namespace), Label("user", user), Label("model", model)]
  }

  function QuotaLabels(namespace: string, name: string, kind: string): seq<Label> {
    [Label("namespace", namespace), Label("quotaname", name), Label("type", kind)]
  }

  lemma RateLabelsSafe(namespace: string, user: string, model: string)
    ensures SafeLabels(RateLabels(namespace, user, model)) <==> '=' !in namespace && '=' !in user && '=' !in model
  {
    var l := RateLabels(namespace, user, model);
    assert l[0].value == namespace && l[1].value == user && l[2].value == model;
    if '=' !in namespace && '=' !in user && '=' !in model {
      forall i | 0 <= i < |l| ensures SafeLabel(l[i]) { }
    }
  }

  lemma QuotaLabelsSafe(namespace: string, name: string, kind: string)
    ensures SafeLabels(QuotaLabels(namespace, name, kind)) <==> '=' !in namespace && '=' !in name && '=' !in kind
  {
    var l := QuotaLabels(namespace, name, kind);
    assert l[0].value == namespace && l[1].value == name && l[2].value == kind;
    if '=' !in namespace && '=' !in name && '=' !in kind {
      forall i | 0 <= i < |l| ensures SafeLabel(l[i]) { }
    }
  }

  /** With `=` in values two users can share a counter. */
  lemma EqualsSignCollides()
    ensures RateLabels("n", "u", "m.model=k") != RateLabels("n", "u.model=m", "k")
    ensures Identifier(RateLabels("n", "u", "m.model=k")) == Identifier(RateLabels("n", "u.model=m", "k"))
  {
    IdentifierOfThree("namespace", "n", "user", "u", "model", "m.model=k");
    IdentifierOfThree("namespace", "n", "user", "u.model=m", "model", "k");
    assert "u" + "." + "model" + "=" + "m.model=k" == "u.model=m" + "." + "model" + "=" + "k";
  }

  lemma IdentifierOfThree(k1: string, v1: string, k2: string, v2: string, k3: string, v3: string)
    ensures Identifier([Label(k1, v1), Label(k2, v2), Label(k3, v3)])
            == k1 + "=" + v1 + "." + k2 + "=" + (v2 + "." + k3 + "=" + v3) + "."
  {
    var l := [Label(k1, v1), Label(k2, v2), Label(k3, v3)];
    assert l[..2][..1] == [Label(k1, v1)] && l[..1][..0] == [];
    assert Identifier([]) == "";
    assert Identifier([Label(k1, v1)]) == "" + k1 + "=" + v1 + ".";
    assert Identifier(l[..2]) == Identifier([Label(k1, v1)]) + k2 + "=" + v2 + ".";
  }
}
