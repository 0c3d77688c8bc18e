/** A rendered counter family: the sorted-key functions, and the lines they put in order.

    The partner of the renderer is a parser of the text exposition format, which gets the
    family's map back from its text. */
module Rendering {
  import opened Wrappers
  import opened Decimal
  import opened Exposition

  // ----- sorted keys

  /** Go's `<` on strings. */
  predicate Less(a: string, b: string) {
    b != "" && (a == "" || a[0] < b[0] || (a[0] == b[0] && Less(a[1..], b[1..])))
  }

  lemma {:induction false} LessIsIrreflexive(a: string)
    ensures !Less(a, a)
  {
    if a != "" {
      LessIsIrreflexive(a[1..]);
    }
  }

  lemma {:induction false} LessIsTransitive(a: string, b: string, c: string)
    requires Less(a, b) && Less(b, c)
    ensures Less(a, c)
  {
    if a != "" && a[0] == b[0] == c[0] {
      LessIsTransitive(a[1..], b[1..], c[1..]);
    }
  }

  lemma {:induction false} LessIsTotal(a: string, b: string)
    ensures Less(a, b) || a == b || Less(b, a)
  {
    if a != "" && b != "" && a[0] == b[0] {
      LessIsTotal(a[1..], b[1..]);
      assert a == [a[0]] + a[1..] && b == [b[0]] + b[1..];
    }
  }

  /** A metric key by its fields: method, path and status class; method, RPC type and
      code; or the first two only, for durations. */
  type Fields = seq<string>

  /** The comparators of the sorted-key functions: the first field that differs decides. */
  predicate KeyLess(a: Fields, b: Fields)
    requires |a| == |b|
  {
    a != [] && if a[0] != b[0] then Less(a[0], b[0]) else KeyLess(a[1..], b[1..])
  }

  lemma {:induction false} KeyLessIsIrreflexive(a: Fields)
    ensures !KeyLess(a, a)
  {
    if a != [] {
      KeyLessIsIrreflexive(a[1..]);
    }
  }

  lemma {:induction false} KeyLessIsTransitive(a: Fields, b: Fields, c: Fields)
    requires |a| == |b| == |c| && KeyLess(a, b) && KeyLess(b, c)
    ensures KeyLess(a, c)
  {
    if a[0] == b[0] == c[0] {
      KeyLessIsTransitive(a[1..], b[1..], c[1..]);
    } else if a[0] != b[0] && b[0] != c[0] {
      LessIsTransitive(a[0], b[0], c[0]);
      LessIsIrreflexive(a[0]);
    }
  }

  lemma {:induction false} KeyLessIsTotal(a: Fields, b: Fields)
    requires |a| == |b|
    ensures KeyLess(a, b) || a == b || KeyLess(b, a)
  {
    if a != [] {
      if a[0] == b[0] {
        KeyLessIsTotal(a[1..], b[1..]);
        assert a == [a[0]] + a[1..] && b == [b[0]] + b[1..];
      } else {
        LessIsTotal(a[0], b[0]);
      }
    }
  }

  /** Two strings agree before index `n`. */
  predicate AgreeBefore(a: string, b: string, n: nat) {
    n <= |a| && n <= |b| && a[..n] == b[..n]
  }

  /** The order is that of the first difference, or of the lengths if there is none. */
  lemma {:induction false} LessIsLexicographic(a: string, b: string)
    ensures Less(a, b) <==> exists n: nat :: FirstDifference(a, b, n)
  {
    if a == "" || b == "" {
      assert b != "" ==> FirstDifference(a, b, 0);
    } else if a[0] != b[0] {
      assert a[0] < b[0] ==> FirstDifference(a, b, 0);
      forall n: nat | FirstDifference(a, b, n)
        ensures a[0] < b[0]
      {
      }
    } else {
      LessIsLexicographic(a[1..], b[1..]);
      forall n: nat | FirstDifference(a[1..], b[1..], n)
        ensures FirstDifference(a, b, n + 1)
      {
        assert a[..n + 1] == [a[0]] + a[1..][..n] && b[..n + 1] == [b[0]] + b[1..][..n];
      }
      forall n: nat | FirstDifference(a, b, n)
        ensures n > 0 && FirstDifference(a[1..], b[1..], n - 1)
      {
        if n > 0 {
          assert a[1..][..n - 1] == a[..n][1..] && b[1..][..n - 1] == b[..n][1..];
        }
      }
      if Less(a, b) {
        var n: nat :| FirstDifference(a[1..], b[1..], n);
        assert FirstDifference(a, b, n + 1);
      }
    }
  }

  /** They differ first at `n`, where the one ends or has the lesser character. */
  predicate FirstDifference(a: string, b: string, n: nat) {
    AgreeBefore(a, b, n) && n < |b| && (n == |a| || a[n] < b[n])
  }

  /** The fields before `n` are equal, and those at `n` decide. */
  predicate DecidedAt(a: Fields, b: Fields, n: nat) {
    n < |a| == |b| && a[..n] == b[..n] && a[n] != b[n] && Less(a[n], b[n])
  }

  /** The comparators are decided by the first field that differs. */
  lemma {:induction false} FirstFieldDecides(a: Fields, b: Fields)
    requires |a| == |b|
    ensures KeyLess(a, b) <==> exists n: nat :: DecidedAt(a, b, n)
  {
    if a != [] {
      if a[0] != b[0] {
        assert Less(a[0], b[0]) ==> DecidedAt(a, b, 0);
        forall n: nat | DecidedAt(a, b, n)
          ensures Less(a[0], b[0])
        {
        }
      } else {
        FirstFieldDecides(a[1..], b[1..]);
        forall n: nat | DecidedAt(a[1..], b[1..], n)
          ensures DecidedAt(a, b, n + 1)
        {
          assert a[..n + 1] == [a[0]] + a[1..][..n] && b[..n + 1] == [b[0]] + b[1..][..n];
        }
        forall n: nat | DecidedAt(a, b, n)
          ensures n > 0 && DecidedAt(a[1..], b[1..], n - 1)
        {
          if n > 0 {
            assert a[1..][..n - 1] == a[..n][1..] && b[1..][..n - 1] == b[..n][1..];
          }
        }
        if KeyLess(a, b) {
          var n: nat :| DecidedAt(a[1..], b[1..], n);
          assert DecidedAt(a, b, n + 1);
        }
      }
    }
  }

  predicate AllOfWidth(keys: set<Fields>, width: nat) {
    forall k | k in keys :: |k| == width
  }

  /** A list of exactly these keys, each once, in increasing order. */
  ghost predicate Enumerates(s: seq<Fields>, keys: set<Fields>, width: nat) {
    && (forall k :: k in s <==> k in keys)
    && (forall i | 0 <= i < |s| :: |s[i]| == width)
    && (forall i, j | 0 <= i < j < |s| :: |s[i]| == |s[j]| && KeyLess(s[i], s[j]))
  }

  /** The sorted key list is the only increasing enumeration of the map's keys: it does not
      depend on the order in which the map is iterated. */
  lemma {:induction false} EnumerationIsUnique(s: seq<Fields>, t: seq<Fields>, keys: set<Fields>, width: nat)
    requires Enumerates(s, keys, width) && Enumerates(t, keys, width)
    ensures s == t
    decreases |s|
  {
    EmptyEnumeration(s, keys, width);
    EmptyEnumeration(t, keys, width);
    if s != [] {
      FirstIsLeast(s, t, keys, width);
      FirstIsLeast(t, s, keys, width);
      if KeyLess(s[0], t[0]) && KeyLess(t[0], s[0]) {
        KeyLessIsTransitive(s[0], t[0], s[0]);
        KeyLessIsIrreflexive(s[0]);
      }
      assert s[0] == t[0];
      RestEnumerates(s, keys, width);
      RestEnumerates(t, keys, width);
      EnumerationIsUnique(s[1..], t[1..], keys - {s[0]}, width);
      assert s == [s[0]] + s[1..] && t == [t[0]] + t[1..];
    }
  }

  lemma EmptyEnumeration(s: seq<Fields>, keys: set<Fields>, width: nat)
    requires Enumerates(s, keys, width)
    ensures s == [] <==> keys == {}
  {
    if s != [] {
      assert s[0] in s;
    }
  }

  lemma FirstIsLeast(s: seq<Fields>, t: seq<Fields>, keys: set<Fields>, width: nat)
    requires Enumerates(s, keys, width) && Enumerates(t, keys, width) && s != [] && t != []
    ensures |s[0]| == |t[0]| && (s[0] == t[0] || KeyLess(s[0], t[0]))
  {
    assert t[0] in s;
    var i :| 0 <= i < |s| && s[i] == t[0];
    if i > 0 {
      assert KeyLess(s[0], s[i]);
    }
  }

  lemma RestEnumerates(s: seq<Fields>, keys: set<Fields>, width: nat)
    requires Enumerates(s, keys, width) && s != []
    ensures Enumerates(s[1..], keys - {s[0]}, width)
  {
    assert s == [s[0]] + s[1..];
    KeyLessIsIrreflexive(s[0]);
    forall k
      ensures k in s[1..] <==> k in keys - {s[0]}
    {
      if k in s[1..] {
        var i :| 0 <= i < |s[1..]| && s[1..][i] == k;
        assert KeyLess(s[0], s[i + 1]);
      }
    }
  }

  /** The sorted-key functions: collect the keys in whatever order the map yields them, and
      sort; each key goes to its place among those before it. */
  method SortedKeys(keys: set<Fields>, width: nat) returns (s: seq<Fields>)
    requires AllOfWidth(keys, width)
    ensures Enumerates(s, keys, width)
  {
    s := [];
    var pending := keys;
    while pending != {}
      invariant pending <= keys && Enumerates(s, keys - pending, width)
      decreases |pending|
    {
      var key :| key in pending;
      var i := 0;
      while i < |s| && KeyLess(s[i], key)
        invariant 0 <= i <= |s|
        invariant forall k | 0 <= k < i :: KeyLess(s[k], key)
        decreases |s| - i
      {
        i := i + 1;
      }
      InsertEnumerates(s, keys - pending, key, i, width);
      s := Inserted(s, key, i);
      assert keys - pending + {key} == keys - (pending - {key});
      pending := pending - {key};
    }
    assert keys - pending == keys;
  }

  /** `key` inserted before index `i`. */
  function Inserted(s: seq<Fields>, key: Fields, i: nat): (t: seq<Fields>)
    requires i <= |s|
    ensures |t| == |s| + 1 && t[i] == key
    ensures forall k | 0 <= k < i :: t[k] == s[k]
    ensures forall k | i < k <= |s| :: t[k] == s[k - 1]
    ensures forall x :: x in t <==> x == key || x in s
  {
    assert s == s[..i] + s[i..];
    s[..i] + [key] + s[i..]
  }

  /** Where a key goes among the keys before it. */
  ghost predicate IsPlace(s: seq<Fields>, keys: set<Fields>, key: Fields, i: nat, width: nat) {
    && Enumerates(s, keys, width) && key !in keys && |key| == width && i <= |s|
    && (forall k | 0 <= k < i :: |s[k]| == width && KeyLess(s[k], key))
    && (i < |s| ==> |s[i]| == width && !KeyLess(s[i], key))
  }

  lemma InsertIsOrdered(s: seq<Fields>, keys: set<Fields>, key: Fields, i: nat, width: nat, a: nat, b: nat)
    requires IsPlace(s, keys, key, i, width) && a < b <= |s|
    ensures var t := Inserted(s, key, i);
      |t[a]| == |t[b]| == width && KeyLess(t[a], t[b])
  {
    var t := Inserted(s, key, i);
    if a == i {
      AfterPlace(s, keys, key, i, b - 1, width);
    } else if b != i {
      assert t[a] == s[if a < i then a else a - 1] && t[b] == s[if b < i then b else b - 1];
    }
  }

  lemma InsertEnumerates(s: seq<Fields>, keys: set<Fields>, key: Fields, i: nat, width: nat)
    requires IsPlace(s, keys, key, i, width)
    ensures Enumerates(Inserted(s, key, i), keys + {key}, width)
  {
    var t := Inserted(s, key, i);
    forall a, b | 0 <= a < b < |t|
      ensures |t[a]| == |t[b]| == width && KeyLess(t[a], t[b])
    {
      InsertIsOrdered(s, keys, key, i, width, a, b);
    }
    forall a | 0 <= a < |t|
      ensures |t[a]| == width
    {
      assert t[a] == key || t[a] in s;
    }
  }

  lemma AfterPlace(s: seq<Fields>, keys: set<Fields>, key: Fields, i: nat, k: nat, width: nat)
    requires Enumerates(s, keys, width) && key !in keys && |key| == width && i <= k < |s|
    requires !KeyLess(s[i], key)
    ensures KeyLess(key, s[k])
  {
    assert s[i] in s;
    KeyLessIsTotal(key, s[i]);
    if i < k {
      KeyLessIsTransitive(key, s[i], s[k]);
    }
  }

  // ----- a rendered family

  /** What a family's text depends on besides its counters. */
  datatype Metric = Metric(name: string, help: string, kind: string, service: string, labelNames: seq<string>)

  function Header(m: Metric): string {
    "# HELP " + m.name + " " + m.help + "\n" + "# TYPE " + m.name + " " + m.kind + "\n"
  }

  function Arguments(labelNames: seq<string>, key: Fields): seq<string> {
    if labelNames == [] || key == [] then [] else [labelNames[0], key[0]] + Arguments(labelNames[1..], key[1..])
  }

  function Line(m: Metric, key: Fields, value: nat): string {
    m.name + Labels(m.service, Arguments(m.labelNames, key)) + " " + Itoa(value) + "\n"
  }

  /** A missing key counts as zero, as in Go. */
  function At(values: map<Fields, nat>, key: Fields): nat {
    if key in values then values[key] else 0
  }

  /** The lines of the family, in the order given. */
  function Lines(m: Metric, keys: seq<Fields>, values: map<Fields, nat>): string {
    if keys == [] then ""
    else Lines(m, keys[..|keys| - 1], values) + Line(m, keys[|keys| - 1], At(values, keys[|keys| - 1]))
  }

  lemma LinesSnoc(m: Metric, keys: seq<Fields>, values: map<Fields, nat>, i: nat)
    requires i < |keys|
    ensures Lines(m, keys[..i + 1], values) == Lines(m, keys[..i], values) + Line(m, keys[i], At(values, keys[i]))
  {
    assert keys[..i + 1][..i] == keys[..i];
  }

  lemma LinesAppend(m: Metric, keys: seq<Fields>, key: Fields, values: map<Fields, nat>)
    ensures Lines(m, keys + [key], values) == Lines(m, keys, values) + Line(m, key, At(values, key))
  {
    assert (keys + [key])[..|keys|] == keys;
  }

  lemma {:induction false} LinesCons(m: Metric, key: Fields, keys: seq<Fields>, values: map<Fields, nat>)
    ensures Lines(m, [key] + keys, values) == Line(m, key, At(values, key)) + Lines(m, keys, values)
  {
    if keys == [] {
      assert [key] + keys == [] + [key];
      LinesAppend(m, [], key, values);
    } else {
      var past, last := keys[..|keys| - 1], keys[|keys| - 1];
      LinesCons(m, key, past, values);
      assert [key] + keys == ([key] + past) + [last];
      LinesAppend(m, [key] + past, last, values);
      Regroup3(Line(m, key, At(values, key)), Lines(m, past, values), Line(m, last, At(values, last)));
    }
  }

  lemma Regroup3(a: string, b: string, c: string)
    ensures a + b + c == a + (b + c)
  {
  }

  /** What the family is rendered as: a function of the map alone. */
  ghost function Family(m: Metric, values: map<Fields, nat>): string
    requires AllOfWidth(values.Keys, |m.labelNames|)
  {
    SomeEnumeration(values.Keys, |m.labelNames|);
    var keys :| Enumerates(keys, values.Keys, |m.labelNames|);
    Header(m) + Lines(m, keys, values)
  }

  lemma SomeEnumeration(keys: set<Fields>, width: nat)
    requires AllOfWidth(keys, width)
    ensures exists s :: Enumerates(s, keys, width)
  {
    var s := Sorted(keys, width);
  }

  lemma {:induction false} Sorted(keys: set<Fields>, width: nat) returns (s: seq<Fields>)
    requires AllOfWidth(keys, width)
    ensures Enumerates(s, keys, width)
    decreases |keys|
  {
    if keys == {} {
      s := [];
    } else {
      var key :| key in keys;
      var before := Sorted(keys - {key}, width);
      var i := PlaceOf(before, key, keys - {key}, width);
      InsertEnumerates(before, keys - {key}, key, i, width);
      assert keys - {key} + {key} == keys;
      s := Inserted(before, key, i);
    }
  }

  lemma PlaceOf(s: seq<Fields>, key: Fields, keys: set<Fields>, width: nat) returns (i: nat)
    requires Enumerates(s, keys, width) && |key| == width
    ensures i <= |s| && forall k | 0 <= k < i :: |s[k]| == width && KeyLess(s[k], key)
    ensures i < |s| ==> |s[i]| == width && !KeyLess(s[i], key)
  {
    i := 0;
    while i < |s| && KeyLess(s[i], key)
      invariant 0 <= i <= |s|
      invariant forall k | 0 <= k < i :: KeyLess(s[k], key)
    {
      i := i + 1;
    }
  }

  /** The loop over the sorted keys. */
  method RenderLines(m: Metric, values: map<Fields, nat>) returns (text: string, ghost keys: seq<Fields>)
    requires AllOfWidth(values.Keys, |m.labelNames|)
    ensures Enumerates(keys, values.Keys, |m.labelNames|)
    ensures text == Lines(m, keys, values)
  {
    var sorted := SortedKeys(values.Keys, |m.labelNames|);
    keys := sorted;
    text := "";
    for i := 0 to |sorted|
      invariant text == Lines(m, sorted[..i], values)
    {
      LinesSnoc(m, sorted, values, i);
      var labels := LabelText(m.service, Arguments(m.labelNames, sorted[i]));
      text := text + (m.name + labels + " " + Itoa(At(values, sorted[i])) + "\n");
    }
    assert sorted[..|sorted|] == sorted;
  }

  /** The rendered text of a family does not depend on map iteration order. */
  method RenderFamily(m: Metric, values: map<Fields, nat>) returns (text: string)
    requires AllOfWidth(values.Keys, |m.labelNames|)
    ensures text == Family(m, values)
  {
    text := "# HELP " + m.name + " " + m.help + "\n" + "# TYPE " + m.name + " " + m.kind + "\n";
    var lines, keys := RenderLines(m, values);
    text := text + lines;
    FamilyInOrder(m, values, keys);
  }

  lemma FamilyInOrder(m: Metric, values: map<Fields, nat>, keys: seq<Fields>)
    requires AllOfWidth(values.Keys, |m.labelNames|) && Enumerates(keys, values.Keys, |m.labelNames|)
    ensures Family(m, values) == Header(m) + Lines(m, keys, values)
  {
    var chosen :| Enumerates(chosen, values.Keys, |m.labelNames|)
      && Family(m, values) == Header(m) + Lines(m, chosen, values);
    EnumerationIsUnique(keys, chosen, values.Keys, |m.labelNames|);
  }

  // ----- parsing

  datatype Sample = Sample(pairs: seq<Pair>, value: nat)

  /** A line: the metric's name, labels, a space, digits and a line feed. */
  function ParseLine(name: string, s: string): (r: Option<(Sample, string)>)
    ensures r.Some? ==> |r.value.1| < |s|
  {
    if !(name <= s) then None
    else
      match ParseLabels(s[|name|..])
      case None => None
      case Some(l) =>
        if l.1 == "" || l.1[0] != ' ' then None
        else
          RestIsShorter('\n', l.1[1..]);
          match SplitAt('\n', l.1[1..])
          case None => None
          case Some(d) => Some((Sample(l.0, Value(d.0)), d.1))
  }

  function ParseLines(name: string, s: string): Option<seq<Sample>>
    decreases |s|
  {
    if s == "" then Some([])
    else
      match ParseLine(name, s)
      case None => None
      case Some(first) =>
        match ParseLines(name, first.1)
        case None => None
        case Some(others) => Some([first.0] + others)
  }

  /** A comment line with the given start: its text and what follows. */
  function ParseComment(start: string, s: string): Option<(string, string)> {
    if start <= s then SplitAt('\n', s[|start|..]) else None
  }

  /** The label values of a sample, without the service. */
  function KeyOf(service: string, pairs: seq<Pair>): Fields {
    var own := if service != "" && pairs != [] then pairs[1..] else pairs;
    seq(|own|, i requires 0 <= i < |own| => own[i].1)
  }

  function Collected(service: string, samples: seq<Sample>): map<Fields, nat> {
    if samples == [] then map[]
    else
      var last := samples[|samples| - 1];
      Collected(service, samples[..|samples| - 1])[KeyOf(service, last.pairs) := last.value]
  }

  /** What a family's text says: its help, its type and its counters. */
  datatype Content = Content(help: string, kind: string, values: map<Fields, nat>)

  /** A HELP line, a TYPE line, and the samples. */
  function ParseFamily(name: string, service: string, s: string): Option<Content> {
    match ParseComment("# HELP " + name + " ", s)
    case None => None
    case Some(help) =>
      match ParseComment("# TYPE " + name + " ", help.1)
      case None => None
      case Some(kind) =>
        match ParseLines(name, kind.1)
        case None => None
        case Some(samples) => Some(Content(help.0, kind.0, Collected(service, samples)))
  }

  // ----- the parser undoes the renderer

  predicate GoodMetric(m: Metric) {
    && (forall n | n in m.labelNames :: GoodName(n))
    && '\n' !in m.name && '\n' !in m.help && '\n' !in m.kind
  }

  lemma {:induction false} ArgumentsPair(labelNames: seq<string>, key: Fields)
    requires |labelNames| == |key|
    ensures |Paired(Arguments(labelNames, key))| == |key|
    ensures forall i | 0 <= i < |key| :: Paired(Arguments(labelNames, key))[i] == (labelNames[i], key[i])
    ensures (forall n | n in labelNames :: GoodName(n)) ==> GoodNames(Arguments(labelNames, key))
  {
    if key != [] {
      ArgumentsPair(labelNames[1..], key[1..]);
      var rest := Arguments(labelNames[1..], key[1..]);
      assert ([labelNames[0], key[0]] + rest)[2..] == rest;
      var all := Arguments(labelNames, key);
      if forall n | n in labelNames :: GoodName(n) {
        forall i | 0 <= i < |all| && i % 2 == 0
          ensures GoodName(all[i])
        {
          if i >= 2 {
            assert all[i] == rest[i - 2];
          }
        }
      }
    }
  }

  /** The pairs printed for a key. */
  function PairsFor(m: Metric, key: Fields): seq<Pair> {
    PairsOf(m.service, Arguments(m.labelNames, key))
  }

  lemma KeyIsRecovered(m: Metric, key: Fields)
    requires |key| == |m.labelNames|
    ensures KeyOf(m.service, PairsFor(m, key)) == key
  {
    ArgumentsPair(m.labelNames, key);
    var pairs := PairsFor(m, key);
    var n := if m.service != "" then 1 else 0;
    assert pairs[n..] == Paired(Arguments(m.labelNames, key));
  }

  lemma {:induction false} DigitsHaveNoNewline(s: string)
    requires forall i | 0 <= i < |s| :: s[i] in DIGITS
    ensures '\n' !in s
  {
  }

  lemma LineRegroup(name: string, labels: string, digits: string, rest: string)
    ensures name + labels + " " + digits + "\n" + rest == name + (labels + (" " + (digits + ['\n'] + rest)))
  {
  }

  lemma Dropped(a: string, b: string)
    ensures a <= a + b && (a + b)[|a|..] == b
  {
  }

  /** One line, whatever follows it. */
  lemma LineRoundTrip(m: Metric, key: Fields, value: nat, rest: string)
    requires GoodMetric(m) && |key| == |m.labelNames|
    ensures ParseLine(m.name, Line(m, key, value) + rest) == Some((Sample(PairsFor(m, key), value), rest))
  {
    var labels := Labels(m.service, Arguments(m.labelNames, key));
    var digits := Digits(value);
    var tail := digits + ['\n'] + rest;
    LineRegroup(m.name, labels, digits, rest);
    Dropped(m.name, labels + (" " + tail));
    ArgumentsPair(m.labelNames, key);
    LabelsRoundTrip(m.service, Arguments(m.labelNames, key), " " + tail);
    Dropped(" ", tail);
    DigitsHaveNoNewline(digits);
    SplitRoundTrip('\n', digits, rest);
    DigitsDenote(value);
  }

  function SamplesOf(m: Metric, keys: seq<Fields>, values: map<Fields, nat>): seq<Sample> {
    if keys == [] then []
    else [Sample(PairsFor(m, keys[0]), At(values, keys[0]))] + SamplesOf(m, keys[1..], values)
  }

  lemma {:induction false} LinesRoundTrip(m: Metric, keys: seq<Fields>, values: map<Fields, nat>)
    requires GoodMetric(m) && forall k | k in keys :: |k| == |m.labelNames|
    ensures ParseLines(m.name, Lines(m, keys, values)) == Some(SamplesOf(m, keys, values))
  {
    if keys != [] {
      LinesRoundTrip(m, keys[1..], values);
      LinesCons(m, keys[0], keys[1..], values);
      assert [keys[0]] + keys[1..] == keys;
      LineRoundTrip(m, keys[0], At(values, keys[0]), Lines(m, keys[1..], values));
    }
  }

  lemma {:induction false} SamplesSnoc(m: Metric, keys: seq<Fields>, values: map<Fields, nat>)
    requires keys != []
    ensures |SamplesOf(m, keys, values)| == |keys|
    ensures var n := |keys| - 1;
      SamplesOf(m, keys, values)
      == SamplesOf(m, keys[..n], values) + [Sample(PairsFor(m, keys[n]), At(values, keys[n]))]
  {
    var n := |keys| - 1;
    if n > 0 {
      SamplesSnoc(m, keys[1..], values);
      assert keys[1..][..n - 1] == keys[..n][1..];
    }
  }

  /** The values at `keys`. */
  function Tabulated(keys: seq<Fields>, values: map<Fields, nat>): map<Fields, nat> {
    if keys == [] then map[]
    else Tabulated(keys[..|keys| - 1], values)[keys[|keys| - 1] := At(values, keys[|keys| - 1])]
  }

  lemma {:induction false} TabulatedAt(keys: seq<Fields>, values: map<Fields, nat>, k: Fields)
    ensures k in Tabulated(keys, values) <==> k in keys
    ensures k in keys ==> Tabulated(keys, values)[k] == At(values, k)
  {
    if keys != [] {
      TabulatedAt(keys[..|keys| - 1], values, k);
      assert keys == keys[..|keys| - 1] + [keys[|keys| - 1]];
    }
  }

  lemma EnumerationTabulates(keys: seq<Fields>, values: map<Fields, nat>, width: nat)
    requires Enumerates(keys, values.Keys, width)
    ensures Tabulated(keys, values) == values
  {
    forall k
      ensures k in Tabulated(keys, values) <==> k in values
      ensures k in values ==> k in Tabulated(keys, values) && Tabulated(keys, values)[k] == values[k]
    {
      TabulatedAt(keys, values, k);
    }
  }

  lemma CollectedSnoc(service: string, samples: seq<Sample>, last: Sample)
    ensures Collected(service, samples + [last])
         == Collected(service, samples)[KeyOf(service, last.pairs) := last.value]
  {
    assert (samples + [last])[..|samples|] == samples;
  }

  /** Collecting the samples of a map's keys gives the map's values at those keys. */
  lemma {:induction false} SamplesAreCollected(m: Metric, keys: seq<Fields>, values: map<Fields, nat>)
    requires forall k | k in keys :: |k| == |m.labelNames|
    ensures Collected(m.service, SamplesOf(m, keys, values)) == Tabulated(keys, values)
  {
    if keys != [] {
      var n := |keys| - 1;
      var past, key := keys[..n], keys[n];
      SamplesAreCollected(m, past, values);
      SamplesSnoc(m, keys, values);
      KeyIsRecovered(m, key);
      CollectedSnoc(m.service, SamplesOf(m, past, values), Sample(PairsFor(m, key), At(values, key)));
    }
  }

  lemma CommentRoundTrip(start: string, text: string, rest: string)
    requires '\n' !in text
    ensures ParseComment(start, start + text + "\n" + rest) == Some((text, rest))
  {
    var s := start + text + "\n" + rest;
    assert s == start + (text + ['\n'] + rest);
    Dropped(start, text + ['\n'] + rest);
    SplitRoundTrip('\n', text, rest);
  }

  lemma HeaderRoundTrip(m: Metric, lines: string)
    requires GoodMetric(m)
    ensures var help := ParseComment("# HELP " + m.name + " ", Header(m) + lines);
      && help.Some? && help.value.0 == m.help
      && ParseComment("# TYPE " + m.name + " ", help.value.1) == Some((m.kind, lines))
  {
    var help := "# HELP " + m.name + " ";
    var kind := "# TYPE " + m.name + " ";
    assert Header(m) + lines == help + m.help + "\n" + (kind + m.kind + "\n" + lines);
    CommentRoundTrip(help, m.help, kind + m.kind + "\n" + lines);
    CommentRoundTrip(kind, m.kind, lines);
  }

  /** Rendering loses nothing: parsing a family's text gives back its help, its type and
      exactly its counters, for any service name, label values and counts. */
  lemma FamilyRoundTrip(m: Metric, values: map<Fields, nat>)
    requires GoodMetric(m) && AllOfWidth(values.Keys, |m.labelNames|)
    ensures ParseFamily(m.name, m.service, Family(m, values)) == Some(Content(m.help, m.kind, values))
  {
    var keys := Sorted(values.Keys, |m.labelNames|);
    FamilyInOrder(m, values, keys);
    LinesRoundTrip(m, keys, values);
    LinesInFamily(m, Lines(m, keys, values), SamplesOf(m, keys, values));
    SamplesAreCollected(m, keys, values);
    EnumerationTabulates(keys, values, |m.labelNames|);
  }

  lemma LinesInFamily(m: Metric, lines: string, samples: seq<Sample>)
    requires GoodMetric(m) && ParseLines(m.name, lines) == Some(samples)
    ensures ParseFamily(m.name, m.service, Header(m) + lines)
         == Some(Content(m.help, m.kind, Collected(m.service, samples)))
  {
    HeaderRoundTrip(m, lines);
  }

  /** Two keys never share a series: neither their labels nor their lines are equal. */
  lemma SeriesAreDistinct(m: Metric, a: Fields, b: Fields, v: nat, w: nat)
    requires GoodMetric(m) && |a| == |b| == |m.labelNames|
    ensures Labels(m.service, Arguments(m.labelNames, a)) == Labels(m.service, Arguments(m.labelNames, b)) <==> a == b
    ensures Line(m, a, v) == Line(m, b, w) <==> a == b && v == w
  {
    ArgumentsPair(m.labelNames, a);
    ArgumentsPair(m.labelNames, b);
    LabelsAreInjective(m.service, Arguments(m.labelNames, a), Arguments(m.labelNames, b));
    KeyIsRecovered(m, a);
    KeyIsRecovered(m, b);
    LineRoundTrip(m, a, v, "");
    LineRoundTrip(m, b, w, "");
    assert Line(m, a, v) + "" == Line(m, a, v) && Line(m, b, w) + "" == Line(m, b, w);
  }
}
