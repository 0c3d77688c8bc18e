/** Label text of the rendered metrics: `labels` and `escapePrometheusLabelValue`.

    The format is the Prometheus text exposition format 0.0.4, section "Text format
    details": label values escape backslash, double quote and line feed. A parser for that
    format, written from it, is the partner of the printer. */
module Exposition {
  import opened Wrappers

  type Pair = (string, string)

  // ----- printing

  function EscapeChar(c: char): string {
    if c == '\\' then "\\\\" else if c == '\n' then "\\n" else if c == '"' then "\\\"" else [c]
  }

  function Escape(v: string): string {
    if v == "" then "" else EscapeChar(v[0]) + Escape(v[1..])
  }

  function PairText(p: Pair): string {
    p.0 + "=\"" + Escape(p.1) + "\""
  }

  function Join(parts: seq<string>): string {
    if parts == [] then "" else if |parts| == 1 then parts[0] else parts[0] + "," + Join(parts[1..])
  }

  /** Key and value arguments in turn; an odd one at the end is dropped. */
  function Paired(kv: seq<string>): seq<Pair> {
    if |kv| < 2 then [] else [(kv[0], kv[1])] + Paired(kv[2..])
  }

  function PairsOf(service: string, kv: seq<string>): seq<Pair> {
    (if service != "" then [("service", service)] else []) + Paired(kv)
  }

  function Texts(pairs: seq<Pair>): seq<string> {
    if pairs == [] then [] else [PairText(pairs[0])] + Texts(pairs[1..])
  }

  function Labels(service: string, kv: seq<string>): string {
    "{" + Join(Texts(PairsOf(service, kv))) + "}"
  }

  lemma {:induction false} PairedSnoc(kv: seq<string>, i: nat)
    requires i % 2 == 0 && i + 1 < |kv|
    ensures Paired(kv[..i + 2]) == Paired(kv[..i]) + [(kv[i], kv[i + 1])]
  {
    if i == 0 {
      assert kv[..2][2..] == [];
    } else {
      PairedSnoc(kv[2..], i - 2);
      assert kv[2..][..i] == kv[..i + 2][2..];
      assert kv[2..][..i - 2] == kv[..i][2..];
    }
  }

  lemma {:induction false} TextsSnoc(pairs: seq<Pair>, p: Pair)
    ensures Texts(pairs + [p]) == Texts(pairs) + [PairText(p)]
  {
    if pairs == [] {
      assert pairs + [p] == [p];
    } else {
      TextsSnoc(pairs[1..], p);
      assert (pairs + [p])[1..] == pairs[1..] + [p];
    }
  }

  lemma {:induction false} PairedIgnoresOdd(kv: seq<string>)
    requires |kv| % 2 == 1
    ensures Paired(kv) == Paired(kv[..|kv| - 1])
  {
    if |kv| > 1 {
      PairedIgnoresOdd(kv[2..]);
      assert kv[..|kv| - 1][2..] == kv[2..][..|kv| - 3];
    }
  }

  lemma FirstTexts(service: string)
    ensures Texts(PairsOf(service, [])) == if service != "" then [PairText(("service", service))] else []
  {
    TextsSnoc([], ("service", service));
    assert [] + [("service", service)] == [("service", service)];
  }

  lemma MoreTexts(service: string, kv: seq<string>, i: nat)
    requires i % 2 == 0 && i + 1 < |kv|
    ensures Texts(PairsOf(service, kv[..i + 2])) == Texts(PairsOf(service, kv[..i])) + [PairText((kv[i], kv[i + 1]))]
  {
    PairedSnoc(kv, i);
    TextsSnoc(PairsOf(service, kv[..i]), (kv[i], kv[i + 1]));
    assert PairsOf(service, kv[..i + 2]) == PairsOf(service, kv[..i]) + [(kv[i], kv[i + 1])];
  }

  /** `labels`, with its loop over the arguments. */
  method LabelText(service: string, kv: seq<string>) returns (text: string)
    ensures text == Labels(service, kv)
  {
    var pairs: seq<string> := [];
    if service != "" {
      pairs := [PairText(("service", service))];
    }
    var i := 0;
    FirstTexts(service);
    while i + 1 < |kv|
      invariant i % 2 == 0 && i <= |kv|
      invariant pairs == Texts(PairsOf(service, kv[..i]))
    {
      MoreTexts(service, kv, i);
      pairs := pairs + [PairText((kv[i], kv[i + 1]))];
      i := i + 2;
    }
    if i < |kv| {
      PairedIgnoresOdd(kv);
    } else {
      assert kv[..i] == kv;
    }
    return "{" + Join(pairs) + "}";
  }

  // ----- parsing

  /** Everything up to the first `c`, and what follows it. */
  function SplitAt(c: char, s: string): Option<(string, string)> {
    if s == "" then None
    else if s[0] == c then Some(("", s[1..]))
    else
      match SplitAt(c, s[1..])
      case None => None
      case Some(r) => Some(([s[0]] + r.0, r.1))
  }

  function ParseName(s: string): Option<(string, string)> {
    SplitAt('=', s)
  }

  /** A label value: everything up to the closing quote, which has been opened. */
  function ParseValue(s: string): Option<(string, string)> {
    if s == "" || s[0] == '\n' then None
    else if s[0] == '"' then Some(("", s[1..]))
    else if s[0] == '\\' then
      if |s| < 2 || s[1] !in "\\n\"" then None
      else
        match ParseValue(s[2..])
        case None => None
        case Some(r) => Some(([if s[1] == 'n' then '\n' else s[1]] + r.0, r.1))
    else
      match ParseValue(s[1..])
      case None => None
      case Some(r) => Some(([s[0]] + r.0, r.1))
  }

  function ParsePair(s: string): (r: Option<(Pair, string)>)
    ensures r.Some? ==> |r.value.1| < |s|
  {
    match ParseName(s)
    case None => None
    case Some(n) =>
      if n.1 == "" || n.1[0] != '"' then None
      else
        match ParseValue(n.1[1..])
        case None => None
        case Some(v) =>
          RestIsShorter('=', s);
          ValueRestIsShorter(n.1[1..]);
          Some(((n.0, v.0), v.1))
  }

  lemma {:induction false} RestIsShorter(c: char, s: string)
    ensures SplitAt(c, s).Some? ==> |SplitAt(c, s).value.1| < |s|
  {
    if s != "" && s[0] != c {
      RestIsShorter(c, s[1..]);
    }
  }

  lemma {:induction false} ValueRestIsShorter(s: string)
    ensures ParseValue(s).Some? ==> |ParseValue(s).value.1| < |s|
    decreases |s|
  {
    if s != "" && s[0] == '\\' && |s| >= 2 {
      ValueRestIsShorter(s[2..]);
    } else if s != "" {
      ValueRestIsShorter(s[1..]);
    }
  }

  /** Pairs separated by commas, up to the closing brace. */
  function ParsePairs(s: string): (r: Option<(seq<Pair>, string)>)
    ensures r.Some? ==> |r.value.1| < |s|
    decreases |s|
  {
    match ParsePair(s)
    case None => None
    case Some(p) =>
      if p.1 == "" then None
      else if p.1[0] == '}' then Some(([p.0], p.1[1..]))
      else if p.1[0] != ',' then None
      else
        match ParsePairs(p.1[1..])
        case None => None
        case Some(r) => Some(([p.0] + r.0, r.1))
  }

  function ParseLabels(s: string): (r: Option<(seq<Pair>, string)>)
    ensures r.Some? ==> |r.value.1| < |s|
  {
    if s == "" || s[0] != '{' then None
    else if |s| >= 2 && s[1] == '}' then Some(([], s[2..]))
    else ParsePairs(s[1..])
  }

  // ----- the parser undoes the printer

  predicate GoodName(n: string) {
    n != "" && '=' !in n && '\n' !in n && n[0] != '}'
  }

  /** The label names the rendering code passes. */
  const LABEL_NAMES := ["service", "method", "path", "status_class", "le", "rpc_type", "code"]

  lemma LabelNamesAreGood()
    ensures forall n | n in LABEL_NAMES :: GoodName(n)
  {
  }

  lemma {:induction false} SplitRoundTrip(c: char, n: string, rest: string)
    requires c !in n
    ensures SplitAt(c, n + [c] + rest) == Some((n, rest))
  {
    if n == "" {
      assert n + [c] + rest == [c] + rest;
    } else {
      SplitRoundTrip(c, n[1..], rest);
      assert (n + [c] + rest)[1..] == n[1..] + [c] + rest;
      assert (n + [c] + rest)[0] == n[0] && [n[0]] + n[1..] == n;
    }
  }

  lemma Regroup3(a: string, b: string, c: string, d: string)
    ensures a + b + c + d == a + (b + c + d)
  {
  }

  lemma CharRoundTrip(c: char, text: string, v: string, rest: string)
    requires ParseValue(text) == Some((v, rest))
    ensures ParseValue(EscapeChar(c) + text) == Some(([c] + v, rest))
  {
    var all := EscapeChar(c) + text;
    if c == '\\' || c == '\n' || c == '"' {
      assert all[2..] == text;
      assert all[0] == '\\' && all[1] in "\\n\"";
      assert all[1] == EscapeChar(c)[1];
    } else {
      assert all[1..] == text;
    }
  }

  lemma {:induction false} ValueRoundTrip(v: string, rest: string)
    ensures ParseValue(Escape(v) + "\"" + rest) == Some((v, rest))
  {
    if v == "" {
      assert Escape(v) + "\"" + rest == "\"" + rest;
    } else {
      ValueRoundTrip(v[1..], rest);
      Regroup3(EscapeChar(v[0]), Escape(v[1..]), "\"", rest);
      CharRoundTrip(v[0], Escape(v[1..]) + "\"" + rest, v[1..], rest);
      assert [v[0]] + v[1..] == v;
    }
  }

  lemma PairTextRegroup(name: string, escaped: string, rest: string)
    ensures name + "=\"" + escaped + "\"" + rest == name + "=" + ("\"" + (escaped + "\"" + rest))
  {
  }

  lemma PairRoundTrip(p: Pair, rest: string)
    requires '=' !in p.0
    ensures ParsePair(PairText(p) + rest) == Some((p, rest))
  {
    var value := Escape(p.1) + "\"" + rest;
    PairTextRegroup(p.0, Escape(p.1), rest);
    SplitRoundTrip('=', p.0, "\"" + value);
    assert ("\"" + value)[1..] == value;
    ValueRoundTrip(p.1, rest);
  }

  lemma Regroup(a: string, b: string, c: string, d: string, e: string)
    ensures a + b + c + d + e == a + (b + (c + d + e))
  {
  }

  lemma FirstPairText(pairs: seq<Pair>, rest: string)
    requires |pairs| > 1
    ensures Join(Texts(pairs)) + "}" + rest == PairText(pairs[0]) + ("," + (Join(Texts(pairs[1..])) + "}" + rest))
  {
    var first := PairText(pairs[0]);
    var others := Texts(pairs[1..]);
    assert Texts(pairs) == [first] + others && |others| > 0;
    JoinCons(first, others);
    Regroup(first, ",", Join(others), "}", rest);
  }

  lemma JoinCons(first: string, others: seq<string>)
    requires others != []
    ensures Join([first] + others) == first + "," + Join(others)
  {
    assert ([first] + others)[1..] == others;
  }

  lemma {:induction false} PairsRoundTrip(pairs: seq<Pair>, rest: string)
    requires pairs != [] && forall p | p in pairs :: GoodName(p.0)
    ensures ParsePairs(Join(Texts(pairs)) + "}" + rest) == Some((pairs, rest))
    decreases |pairs|
  {
    var p := pairs[0];
    if |pairs| == 1 {
      assert Texts(pairs) == [PairText(p)];
      assert Join(Texts(pairs)) + "}" + rest == PairText(p) + ("}" + rest);
      PairRoundTrip(p, "}" + rest);
      assert ("}" + rest)[1..] == rest;
      assert pairs == [p];
    } else {
      var more := Join(Texts(pairs[1..])) + "}" + rest;
      FirstPairText(pairs, rest);
      PairRoundTrip(p, "," + more);
      assert ("," + more)[1..] == more;
      PairsRoundTrip(pairs[1..], rest);
      assert [p] + pairs[1..] == pairs;
    }
  }

  predicate GoodNames(kv: seq<string>) {
    forall i | 0 <= i < |kv| && i % 2 == 0 :: GoodName(kv[i])
  }

  lemma {:induction false} GoodPairs(kv: seq<string>)
    requires GoodNames(kv)
    ensures forall p | p in Paired(kv) :: GoodName(p.0)
  {
    if |kv| >= 2 {
      assert forall i | 0 <= i < |kv[2..]| && i % 2 == 0 :: kv[2..][i] == kv[i + 2];
      GoodPairs(kv[2..]);
    }
  }

  lemma {:induction false} TextStartsWithName(pairs: seq<Pair>)
    requires pairs != [] && GoodName(pairs[0].0)
    ensures Join(Texts(pairs)) != "" && Join(Texts(pairs))[0] == pairs[0].0[0]
  {
    assert Texts(pairs)[0] == PairText(pairs[0]);
  }

  /** Printing is invertible: whatever the service name and the label values are, parsing
      what `labels` prints gives back exactly the pairs, and whatever follows them. */
  lemma LabelsRoundTrip(service: string, kv: seq<string>, rest: string)
    requires GoodNames(kv)
    ensures ParseLabels(Labels(service, kv) + rest) == Some((PairsOf(service, kv), rest))
  {
    GoodPairs(kv);
    var pairs := PairsOf(service, kv);
    assert forall p | p in pairs :: GoodName(p.0);
    BracesRoundTrip(pairs, rest);
  }

  lemma BracesRoundTrip(pairs: seq<Pair>, rest: string)
    requires forall p | p in pairs :: GoodName(p.0)
    ensures ParseLabels("{" + Join(Texts(pairs)) + "}" + rest) == Some((pairs, rest))
  {
    var text := "{" + Join(Texts(pairs)) + "}" + rest;
    if pairs == [] {
      assert text[0] == '{' && text[1] == '}' && text[2..] == rest;
    } else {
      TextStartsWithName(pairs);
      assert text[1] == Join(Texts(pairs))[0];
      assert text[1..] == Join(Texts(pairs)) + "}" + rest;
      PairsRoundTrip(pairs, rest);
    }
  }

  /** Different pairs are printed differently. */
  lemma LabelsAreInjective(service: string, kv: seq<string>, kv': seq<string>)
    requires GoodNames(kv) && GoodNames(kv')
    ensures Labels(service, kv) == Labels(service, kv') <==> PairsOf(service, kv) == PairsOf(service, kv')
  {
    LabelsRoundTrip(service, kv, "");
    LabelsRoundTrip(service, kv', "");
    assert Labels(service, kv) + "" == Labels(service, kv) && Labels(service, kv') + "" == Labels(service, kv');
  }

  /** The text of one label, with and without a service. */
  lemma OneLabel(service: string, name: string, value: string)
    ensures Labels("", [name, value]) == "{" + PairText((name, value)) + "}"
    ensures service != "" ==>
      Labels(service, [name, value]) == "{" + (PairText(("service", service)) + "," + PairText((name, value))) + "}"
  {
    var p, q := ("service", service), (name, value);
    assert [name, value][2..] == [];
    assert Paired([name, value]) == [q];
    assert [q][1..] == [] && Texts([q]) == [PairText(q)];
    assert [] + [q] == [q] && PairsOf("", [name, value]) == [q];
    if service != "" {
      JoinCons(PairText(p), [PairText(q)]);
      assert [p] + [q] == [p, q] && [p, q][1..] == [q];
      assert PairsOf(service, [name, value]) == [p, q];
      assert Texts([p, q]) == [PairText(p)] + [PairText(q)];
    }
  }

  // ----- one line a series

  lemma {:induction false} EscapeHasNoNewline(v: string)
    ensures '\n' !in Escape(v)
  {
    if v != "" {
      EscapeHasNoNewline(v[1..]);
    }
  }

  lemma {:induction false} JoinHasNoNewline(pairs: seq<Pair>)
    requires forall p | p in pairs :: GoodName(p.0)
    ensures '\n' !in Join(Texts(pairs))
  {
    if pairs != [] {
      EscapeHasNoNewline(pairs[0].1);
      JoinHasNoNewline(pairs[1..]);
      assert Texts(pairs)[1..] == Texts(pairs[1..]);
    }
  }

  /** No label value breaks the line. */
  lemma LabelsHaveNoNewline(service: string, kv: seq<string>)
    requires GoodNames(kv)
    ensures '\n' !in Labels(service, kv)
  {
    GoodPairs(kv);
    JoinHasNoNewline(PairsOf(service, kv));
  }
}
